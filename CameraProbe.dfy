/**
 * self-made/cam/testback/test.py: lists the present cameras from the lines a
 * PnP query prints, opens each OpenCV index in turn, and groups the opened
 * indices by the hash of their first frame to find indices that show the
 * same video.
 */
module CameraProbe {
  import opened Wrappers
  import opened Text

  /** A present camera as the PnP query reports it. */
  datatype PnpCam = PnpCam(name: string, instanceId: string)

  /** What separates the name from the instance id on one line of the query's output. */
  const Separator := "|||"

  /**
   * One line of the query's output: after stripping, a blank line or one
   * without the separator is skipped; otherwise the line splits at the first
   * separator into a stripped name and a stripped instance id.
   */
  function ParseLine(line: string): (r: Option<PnpCam>)
    ensures r.None? <==> Strip(line) == [] || !Contains(Strip(line), Separator)
    ensures r.Some? ==> Strip(r.value.name) == r.value.name && Strip(r.value.instanceId) == r.value.instanceId
  {
    var s := Strip(line);
    if s == [] then None
    else match Find(s, Separator)
      case None => None
      case Some(i) =>
        var name := Strip(s[..i]);
        var iid := Strip(s[i + |Separator|..]);
        StripIdempotent(s[..i]);
        StripIdempotent(s[i + |Separator|..]);
        Some(PnpCam(name, iid))
  }

  /** The line the query prints for a camera. */
  function Format(c: PnpCam): string {
    c.name + Separator + c.instanceId
  }

  /** A camera whose name and id have no outer whitespace and whose name has no '|' survives printing and parsing. */
  predicate Printable(c: PnpCam) {
    Strip(c.name) == c.name && Strip(c.instanceId) == c.instanceId && '|' !in c.name
  }

  /** The printed line has no outer whitespace. */
  lemma FormatStripped(c: PnpCam)
    requires Printable(c)
    ensures Strip(Format(c)) == Format(c)
  {
    var line := Format(c);
    assert line[0] == if c.name != [] then c.name[0] else '|';
    assert line[|line| - 1] == if c.instanceId != [] then c.instanceId[|c.instanceId| - 1] else '|';
    StripOfStripped(line);
  }

  /** The first separator of the printed line is the one after the name. */
  lemma FormatSeparator(c: PnpCam)
    requires '|' !in c.name
    ensures Find(Format(c), Separator) == Some(|c.name|)
  {
    var line := Format(c);
    var n := |c.name|;
    assert line[n..n + 3] == Separator;
    assert OccursAt(line, Separator, n);
    forall j: nat | j < n
      ensures !OccursAt(line, Separator, j)
    {
      assert line[j] == c.name[j];
    }
  }

  lemma {:induction false} ParseLineOfFormat(c: PnpCam)
    requires Printable(c)
    ensures ParseLine(Format(c)) == Some(c)
  {
    var line := Format(c);
    var n := |c.name|;
    FormatStripped(c);
    FormatSeparator(c);
    assert line[..n] == c.name;
    assert line[n + |Separator|..] == c.instanceId;
  }

  /** What one line contributes: its camera, or nothing when it is skipped. */
  function Parsed(line: string): seq<PnpCam> {
    match ParseLine(line)
    case None => []
    case Some(c) => [c]
  }

  /** The cameras read from the query's output lines, in line order. */
  function PnpCams(lines: seq<string>): seq<PnpCam> {
    if lines == [] then [] else PnpCams(lines[..|lines| - 1]) + Parsed(lines[|lines| - 1])
  }

  /** The lines the query prints for a list of cameras, one per camera. */
  function Lines(cams: seq<PnpCam>): (lines: seq<string>)
    ensures |lines| == |cams|
  {
    if cams == [] then [] else Lines(cams[..|cams| - 1]) + [Format(cams[|cams| - 1])]
  }

  lemma PnpCamsSnoc(lines: seq<string>, line: string)
    ensures PnpCams(lines + [line]) == PnpCams(lines) + Parsed(line)
  {
    assert (lines + [line])[..|lines|] == lines;
  }

  /** Printing a list of cameras one per line and parsing the lines gives the same list back, in order. */
  lemma {:induction false} PnpCamsOfLines(cams: seq<PnpCam>)
    requires forall k :: 0 <= k < |cams| ==> Printable(cams[k])
    ensures PnpCams(Lines(cams)) == cams
  {
    if cams != [] {
      var init := cams[..|cams| - 1];
      var last := cams[|cams| - 1];
      PnpCamsOfLines(init);
      ParseLineOfFormat(last);
      PnpCamsSnoc(Lines(init), Format(last));
      LastSplit(cams);
    }
  }

  /**
   * `list_present_cameras_pnp`: `output` is the query's output split into
   * lines, or None when the query failed, which gives no cameras.
   */
  method ListPresentCameras(output: Option<seq<string>>) returns (cams: seq<PnpCam>)
    ensures output.None? ==> cams == []
    ensures output.Some? ==> cams == PnpCams(output.value)
  {
    cams := [];
    if output.None? {
      return;
    }
    var lines := output.value;
    var i := 0;
    while i < |lines|
      invariant 0 <= i <= |lines|
      invariant cams == PnpCams(lines[..i])
    {
      PrefixStep(lines, i);
      cams := cams + Parsed(lines[i]);
      i := i + 1;
    }
    assert lines[..i] == lines;
  }

  /**
   * A captured frame: its size in elements and `frame_hash` of it (the
   * resized grayscale image's SHA-1, computed outside the model).
   */
  datatype Frame = Frame(size: nat, digest: string)

  /** One `cap.read()`: whether it reported success, and the frame it returned. */
  datatype Read = Read(ok: bool, frame: Option<Frame>)

  predicate Usable(r: Read) {
    r.ok && r.frame.Some? && r.frame.value.size > 0
  }

  /** The frame of the first usable read. */
  function FirstUsable(readings: seq<Read>): (f: Option<Frame>)
    ensures f.Some? <==> exists k :: 0 <= k < |readings| && Usable(readings[k])
    ensures f.Some? ==> f.value.size > 0
  {
    if readings == [] then None
    else
      var f := FirstUsable(readings[..|readings| - 1]);
      if f.Some? then
        var k :| 0 <= k < |readings| - 1 && Usable(readings[..|readings| - 1][k]);
        assert Usable(readings[k]);
        f
      else if Usable(readings[|readings| - 1]) then readings[|readings| - 1].frame
      else
        assert forall k :: 0 <= k < |readings| - 1 ==> readings[k] == readings[..|readings| - 1][k];
        None
  }

  /** The first usable read of a prefix is the first usable read of the whole. */
  lemma {:induction false} FirstUsableExtend(readings: seq<Read>, k: nat)
    requires k <= |readings| && FirstUsable(readings[..k]).Some?
    ensures FirstUsable(readings) == FirstUsable(readings[..k])
    decreases |readings| - k
  {
    if k < |readings| {
      assert readings[..k + 1][..k] == readings[..k];
      FirstUsableExtend(readings, k + 1);
    } else {
      assert readings[..k] == readings;
    }
  }

  /**
   * `try_open_index`: a capture that does not open gives (false, None);
   * otherwise up to `warmup` readings (the readings after those in `readings` fail)
   * and the first usable frame, or None when no read gave one.
   */
  method TryOpenIndex(isOpened: bool, readings: seq<Read>, warmup: nat) returns (didOpen: bool, frame: Option<Frame>)
    ensures !isOpened ==> !didOpen && frame.None?
    ensures isOpened ==> didOpen
    ensures isOpened ==> frame == FirstUsable(readings[..if warmup < |readings| then warmup else |readings|])
    ensures frame.Some? ==> frame.value.size > 0
  {
    if !isOpened {
      return false, None;
    }
    didOpen := true;
    frame := None;
    var n := if warmup < |readings| then warmup else |readings|;
    var k := 0;
    while k < n
      invariant 0 <= k <= n
      invariant frame == FirstUsable(readings[..k])
      invariant frame.None?
    {
      assert readings[..k + 1][..k] == readings[..k];
      if Usable(readings[k]) {
        frame := readings[k].frame;
        FirstUsableExtend(readings[..n], k + 1);
        assert readings[..n][..k + 1] == readings[..k + 1];
        return;
      }
      k := k + 1;
    }
  }

  /** An index that opened, with the hash of its frame when it gave one. */
  datatype ProbeResult = ProbeResult(index: nat, hash: Option<string>)

  predicate Ascending(s: seq<nat>) {
    forall a, b :: 0 <= a < b < |s| ==> s[a] < s[b]
  }

  predicate Increasing(results: seq<ProbeResult>) {
    forall a, b :: 0 <= a < b < |results| ==> results[a].index < results[b].index
  }

  /**
   * The results of probing indices 0 .. |outcomes| - 1, where `outcomes[i]`
   * is what `try_open_index(i)` returned: indices that did not open are skipped.
   */
  function OpenedResults(outcomes: seq<(bool, Option<Frame>)>): (results: seq<ProbeResult>)
    ensures Increasing(results)
    ensures forall k :: 0 <= k < |results| ==>
              results[k].index < |outcomes| && outcomes[results[k].index].0
              && results[k].hash == FrameHash(outcomes[results[k].index].1)
  {
    if outcomes == [] then []
    else
      var n := |outcomes| - 1;
      var rs := OpenedResults(outcomes[..n]);
      if !outcomes[n].0 then rs else rs + [ProbeResult(n, FrameHash(outcomes[n].1))]
  }

  /** The hash recorded for an opened index: that of its frame, or None without one. */
  function FrameHash(frame: Option<Frame>): Option<string> {
    match frame
    case None => None
    case Some(f) => Some(f.digest)
  }

  /** Every index that opened has its result. */
  lemma {:induction false} OpenedResultsComplete(outcomes: seq<(bool, Option<Frame>)>, i: nat)
    requires i < |outcomes| && outcomes[i].0
    ensures exists k :: 0 <= k < |OpenedResults(outcomes)| && OpenedResults(outcomes)[k].index == i
  {
    var n := |outcomes| - 1;
    var rs := OpenedResults(outcomes[..n]);
    var all := OpenedResults(outcomes);
    if i == n {
      assert all[|all| - 1].index == i;
    } else {
      assert outcomes[..n][i] == outcomes[i];
      OpenedResultsComplete(outcomes[..n], i);
      var k :| 0 <= k < |rs| && rs[k].index == i;
      assert all[k] == rs[k];
    }
  }

  /** No result at all exactly when no index opened. */
  lemma OpenedResultsEmpty(outcomes: seq<(bool, Option<Frame>)>)
    ensures OpenedResults(outcomes) == [] <==> forall i :: 0 <= i < |outcomes| ==> !outcomes[i].0
  {
    var rs := OpenedResults(outcomes);
    if rs != [] {
      assert outcomes[rs[0].index].0;
    } else {
      forall i | 0 <= i < |outcomes|
        ensures !outcomes[i].0
      {
        if outcomes[i].0 {
          OpenedResultsComplete(outcomes, i);
        }
      }
    }
  }

  /** The loop over indices in `probe_indices`. */
  method ProbeIndices(outcomes: seq<(bool, Option<Frame>)>) returns (results: seq<ProbeResult>)
    ensures results == OpenedResults(outcomes)
  {
    results := [];
    var i := 0;
    while i < |outcomes|
      invariant 0 <= i <= |outcomes|
      invariant results == OpenedResults(outcomes[..i])
    {
      assert outcomes[..i + 1][..i] == outcomes[..i];
      var (didOpen, frame) := outcomes[i];
      if didOpen {
        var h: Option<string> := None;
        if frame.Some? {
          h := Some(frame.value.digest);
        }
        assert h == FrameHash(frame);
        results := results + [ProbeResult(i, h)];
      }
      i := i + 1;
    }
    assert outcomes[..i] == outcomes;
  }

  const NoFramePrefix := "NOFRAME_"

  /** The group a result joins: its frame hash, or "NOFRAME_<index>" when it gave no frame. */
  function Key(r: ProbeResult): string {
    match r.hash
    case Some(h) => h
    case None => NoFramePrefix + NatToString(r.index)
  }

  /** Frameless results never share a group. */
  lemma NoFrameKeysDiffer(a: ProbeResult, b: ProbeResult)
    requires a.hash.None? && b.hash.None? && a.index != b.index
    ensures Key(a) != Key(b)
  {
    assert Key(a)[|NoFramePrefix|..] == NatToString(a.index);
    assert Key(b)[|NoFramePrefix|..] == NatToString(b.index);
    assert DigitsValue(NatToString(a.index)) != DigitsValue(NatToString(b.index));
  }

  /** One entry of the `groups` dictionary, in insertion order. */
  datatype Group = Group(key: string, indices: seq<nat>)

  /** Where `key` sits in the dictionary. */
  function KeyPos(groups: seq<Group>, key: string): (p: Option<nat>)
    ensures p.Some? ==> p.value < |groups| && groups[p.value].key == key
    ensures p.None? ==> forall q :: 0 <= q < |groups| ==> groups[q].key != key
  {
    if groups == [] then None
    else if groups[|groups| - 1].key == key then Some(|groups| - 1)
    else KeyPos(groups[..|groups| - 1], key)
  }

  /** `groups.setdefault(key, []).append(i)`. */
  function SetDefaultAppend(groups: seq<Group>, key: string, i: nat): (r: seq<Group>)
    ensures (forall p :: 0 <= p < |groups| ==> groups[p].indices != []) ==>
              forall p :: 0 <= p < |r| ==> r[p].indices != []
  {
    match KeyPos(groups, key)
    case Some(p) => groups[p := Group(key, groups[p].indices + [i])]
    case None => groups + [Group(key, [i])]
  }

  /** The `groups` dictionary after the grouping loop. */
  function Groups(results: seq<ProbeResult>): (groups: seq<Group>)
    ensures forall p :: 0 <= p < |groups| ==> groups[p].indices != []
  {
    if results == [] then []
    else
      var r := results[|results| - 1];
      SetDefaultAppend(Groups(results[..|results| - 1]), Key(r), r.index)
  }

  /** The indices of the results that join `key`'s group, in result order. */
  function IndicesWithKey(results: seq<ProbeResult>, key: string): seq<nat> {
    if results == [] then []
    else
      var r := results[|results| - 1];
      IndicesWithKey(results[..|results| - 1], key) + (if Key(r) == key then [r.index] else [])
  }

  lemma {:induction false} IndicesWithKeyMembers(results: seq<ProbeResult>, key: string)
    ensures forall x :: x in IndicesWithKey(results, key) <==>
              exists j :: 0 <= j < |results| && results[j].index == x && Key(results[j]) == key
  {
    if results != [] {
      var init := results[..|results| - 1];
      IndicesWithKeyMembers(init, key);
      assert forall j :: 0 <= j < |init| ==> init[j] == results[j];
    }
  }

  lemma {:induction false} IndicesWithKeyIncreasing(results: seq<ProbeResult>, key: string)
    requires Increasing(results)
    ensures Ascending(IndicesWithKey(results, key))
  {
    if results != [] {
      var init := results[..|results| - 1];
      IndicesWithKeyIncreasing(init, key);
      IndicesWithKeyMembers(init, key);
      var r := results[|results| - 1];
      var pre := IndicesWithKey(init, key);
      forall x | x in pre
        ensures x < r.index
      {
        var j :| 0 <= j < |init| && init[j].index == x && Key(init[j]) == key;
        assert init[j] == results[j];
      }
      var ind := IndicesWithKey(results, key);
      assert ind == pre + (if Key(r) == key then [r.index] else []);
      forall a, b | 0 <= a < b < |ind|
        ensures ind[a] < ind[b]
      {
        assert ind[a] == pre[a];
        if b < |pre| {
          assert ind[b] == pre[b];
          assert pre[a] < pre[b];
        } else {
          assert ind[b] == r.index;
          assert ind[a] in pre;
          assert ind[a] < r.index;
        }
      }
    }
  }

  /** The dictionary is keyed without repetition. */
  predicate DistinctKeys(groups: seq<Group>) {
    forall p, q :: 0 <= p < q < |groups| ==> groups[p].key != groups[q].key
  }

  /**
   * What the grouping loop builds: each key once, each group holding exactly
   * the indices of the results that join it, in order, and a group for every result.
   */
  predicate Faithful(groups: seq<Group>, results: seq<ProbeResult>) {
    DistinctKeys(groups)
    && (forall p :: 0 <= p < |groups| ==> groups[p].indices == IndicesWithKey(results, groups[p].key) && groups[p].indices != [])
    && (forall j :: 0 <= j < |results| ==> KeyPos(groups, Key(results[j])).Some?)
  }

  lemma NoKeyNoIndices(results: seq<ProbeResult>, key: string)
    requires forall j :: 0 <= j < |results| ==> Key(results[j]) != key
    ensures IndicesWithKey(results, key) == []
  {
    IndicesWithKeyMembers(results, key);
  }

  lemma IndicesWithKeyAppend(results: seq<ProbeResult>, r: ProbeResult, key: string)
    ensures IndicesWithKey(results + [r], key) == IndicesWithKey(results, key) + (if Key(r) == key then [r.index] else [])
  {
    assert (results + [r])[..|results|] == results;
  }

  lemma KeyPosOf(groups: seq<Group>, q: nat)
    requires q < |groups|
    ensures KeyPos(groups, groups[q].key).Some?
  {
  }

  /** Appending to an existing group keeps the dictionary faithful. */
  lemma AppendToGroup(groups: seq<Group>, results: seq<ProbeResult>, r: ProbeResult, p: nat)
    requires Faithful(groups, results)
    requires KeyPos(groups, Key(r)) == Some(p)
    ensures Faithful(SetDefaultAppend(groups, Key(r), r.index), results + [r])
  {
    var all := results + [r];
    var gs := SetDefaultAppend(groups, Key(r), r.index);
    assert gs == groups[p := Group(Key(r), groups[p].indices + [r.index])];
    forall q | 0 <= q < |gs|
      ensures gs[q].key == groups[q].key
      ensures gs[q].indices == IndicesWithKey(all, gs[q].key)
    {
      IndicesWithKeyAppend(results, r, gs[q].key);
    }
    forall j | 0 <= j < |all|
      ensures KeyPos(gs, Key(all[j])).Some?
    {
      var q := if j < |results| then KeyPos(groups, Key(results[j])).value else p;
      assert gs[q].key == Key(all[j]);
      KeyPosOf(gs, q);
    }
  }

  /** Opening a new group keeps the dictionary faithful. */
  lemma OpenGroup(groups: seq<Group>, results: seq<ProbeResult>, r: ProbeResult)
    requires Faithful(groups, results)
    requires KeyPos(groups, Key(r)).None?
    ensures Faithful(SetDefaultAppend(groups, Key(r), r.index), results + [r])
  {
    var all := results + [r];
    var gs := SetDefaultAppend(groups, Key(r), r.index);
    assert gs == groups + [Group(Key(r), [r.index])];
    forall j | 0 <= j < |results|
      ensures Key(results[j]) != Key(r)
    {
      var q := KeyPos(groups, Key(results[j])).value;
      assert groups[q].key == Key(results[j]);
    }
    NoKeyNoIndices(results, Key(r));
    forall q | 0 <= q < |gs|
      ensures gs[q].indices == IndicesWithKey(all, gs[q].key)
    {
      IndicesWithKeyAppend(results, r, gs[q].key);
    }
    forall j | 0 <= j < |all|
      ensures KeyPos(gs, Key(all[j])).Some?
    {
      if j < |results| {
        assert all[j] == results[j];
        var q := KeyPos(groups, Key(results[j])).value;
        assert gs[q].key == Key(all[j]);
      } else {
        assert gs[|groups|].key == Key(all[j]);
      }
    }
  }

  /** The grouping loop builds a faithful dictionary. */
  lemma {:induction false} GroupsFaithful(results: seq<ProbeResult>)
    ensures Faithful(Groups(results), results)
  {
    if results != [] {
      var init := results[..|results| - 1];
      var r := results[|results| - 1];
      GroupsFaithful(init);
      assert init + [r] == results;
      match KeyPos(Groups(init), Key(r))
      case Some(p) => AppendToGroup(Groups(init), init, r, p);
      case None => OpenGroup(Groups(init), init, r);
    }
  }

  /** Groups appear in the order of their first index. */
  predicate FirstAppearanceOrder(groups: seq<Group>)
    requires forall p :: 0 <= p < |groups| ==> groups[p].indices != []
  {
    forall p, q :: 0 <= p < q < |groups| ==> groups[p].indices[0] < groups[q].indices[0]
  }

  /** Every group holds only indices of results, so all of them lie below any bound on those. */
  lemma GroupsBelow(results: seq<ProbeResult>, bound: nat)
    requires forall j :: 0 <= j < |results| ==> results[j].index < bound
    ensures forall p :: 0 <= p < |Groups(results)| ==> Groups(results)[p].indices[0] < bound
  {
    var gs := Groups(results);
    GroupsFaithful(results);
    forall p | 0 <= p < |gs|
      ensures gs[p].indices[0] < bound
    {
      IndicesWithKeyMembers(results, gs[p].key);
      assert gs[p].indices[0] in IndicesWithKey(results, gs[p].key);
    }
  }

  /** Appending to a group keeps its first index; a new group goes last with an index above all others. */
  lemma OrderStep(groups: seq<Group>, key: string, i: nat)
    requires forall p :: 0 <= p < |groups| ==> groups[p].indices != []
    requires FirstAppearanceOrder(groups)
    requires KeyPos(groups, key).None? ==> forall p :: 0 <= p < |groups| ==> groups[p].indices[0] < i
    ensures FirstAppearanceOrder(SetDefaultAppend(groups, key, i))
  {
    var gs := SetDefaultAppend(groups, key, i);
    match KeyPos(groups, key)
    case Some(p) =>
      assert forall q :: 0 <= q < |gs| ==> gs[q].indices[0] == groups[q].indices[0];
    case None =>
      assert forall q :: 0 <= q < |groups| ==> gs[q] == groups[q];
  }

  lemma {:induction false} GroupsOrdered(results: seq<ProbeResult>)
    requires Increasing(results)
    ensures Faithful(Groups(results), results)
    ensures FirstAppearanceOrder(Groups(results))
  {
    GroupsFaithful(results);
    if results != [] {
      var init := results[..|results| - 1];
      var r := results[|results| - 1];
      var gs := Groups(init);
      GroupsOrdered(init);
      if KeyPos(gs, Key(r)).None? {
        assert forall j :: 0 <= j < |init| ==> init[j] == results[j];
        GroupsBelow(init, r.index);
      }
      OrderStep(gs, Key(r), r.index);
    }
  }

  /**
   * The listing line of a result carries "DUP with <group>" exactly when the
   * result has a hash and that hash's group holds more than one index.
   */
  function DupWith(groups: seq<Group>, r: ProbeResult): Option<seq<nat>> {
    if r.hash.None? then None
    else match KeyPos(groups, r.hash.value)
      case Some(p) => if |groups[p].indices| > 1 then Some(groups[p].indices) else None
      case None => None
  }

  /** The marker of a result with a hash lists its group when that group has more than one index. */
  lemma DupWithGroup(results: seq<ProbeResult>, j: nat)
    requires j < |results| && results[j].hash.Some?
    ensures var ind := IndicesWithKey(results, Key(results[j]));
            DupWith(Groups(results), results[j]) == if |ind| > 1 then Some(ind) else None
  {
    GroupsFaithful(results);
    var p := KeyPos(Groups(results), Key(results[j])).value;
  }

  /** A group of more than one index holds a result other than `j`. */
  lemma SharedIfLarge(results: seq<ProbeResult>, j: nat)
    requires Increasing(results) && j < |results|
    requires |IndicesWithKey(results, Key(results[j]))| > 1
    ensures exists m :: 0 <= m < |results| && m != j && Key(results[m]) == Key(results[j])
  {
    var k := Key(results[j]);
    var ind := IndicesWithKey(results, k);
    IndicesWithKeyMembers(results, k);
    IndicesWithKeyIncreasing(results, k);
    var x := if ind[0] != results[j].index then ind[0] else ind[1];
    assert x in ind;
    var m :| 0 <= m < |results| && results[m].index == x && Key(results[m]) == k;
    assert m != j;
  }

  /** A result `m` other than `j` in the same group makes that group hold more than one index. */
  lemma LargeIfShared(results: seq<ProbeResult>, j: nat, m: nat)
    requires Increasing(results) && j < |results| && m < |results| && m != j
    requires Key(results[m]) == Key(results[j])
    ensures |IndicesWithKey(results, Key(results[j]))| > 1
  {
    var k := Key(results[j]);
    var ind := IndicesWithKey(results, k);
    IndicesWithKeyMembers(results, k);
    assert results[m].index in ind && results[j].index in ind;
    assert results[m].index != results[j].index;
  }

  /**
   * A result with a hash is marked DUP exactly when another result joins the
   * same group; its marker lists every index of that group.
   */
  lemma DupMarked(results: seq<ProbeResult>, j: nat)
    requires Increasing(results) && j < |results|
    ensures DupWith(Groups(results), results[j]).Some? <==>
              results[j].hash.Some? && exists m :: 0 <= m < |results| && m != j && Key(results[m]) == Key(results[j])
    ensures DupWith(Groups(results), results[j]).Some? ==>
              DupWith(Groups(results), results[j]).value == IndicesWithKey(results, Key(results[j]))
  {
    if results[j].hash.Some? {
      DupWithGroup(results, j);
      if |IndicesWithKey(results, Key(results[j]))| > 1 {
        SharedIfLarge(results, j);
      } else {
        forall m | 0 <= m < |results| && m != j
          ensures Key(results[m]) != Key(results[j])
        {
          if Key(results[m]) == Key(results[j]) {
            LargeIfShared(results, j, m);
          }
        }
      }
    }
  }

  /** `[inds[0] for k, inds in groups.items() if not k.startswith("NOFRAME_")]`. */
  function Unique(groups: seq<Group>): seq<nat>
    requires forall p :: 0 <= p < |groups| ==> groups[p].indices != []
  {
    if groups == [] then []
    else
      var g := groups[|groups| - 1];
      Unique(groups[..|groups| - 1]) + if StartsWith(g.key, NoFramePrefix) then [] else [g.indices[0]]
  }

  /** The unique list holds exactly the first index of every group whose key is not a "NOFRAME_" key. */
  lemma {:induction false} UniqueMembers(groups: seq<Group>)
    requires forall p :: 0 <= p < |groups| ==> groups[p].indices != []
    ensures forall x :: x in Unique(groups) <==>
              exists p :: 0 <= p < |groups| && !StartsWith(groups[p].key, NoFramePrefix) && groups[p].indices[0] == x
  {
    if groups != [] {
      var init := groups[..|groups| - 1];
      var g := groups[|groups| - 1];
      UniqueMembers(init);
      assert forall p :: 0 <= p < |init| ==> init[p] == groups[p];
      forall x | x in Unique(groups)
        ensures exists p :: 0 <= p < |groups| && !StartsWith(groups[p].key, NoFramePrefix) && groups[p].indices[0] == x
      {
        if x !in Unique(init) {
          assert groups[|groups| - 1] == g;
        }
      }
    }
  }

  /** Groups in first-appearance order give an increasing unique list. */
  lemma {:induction false} UniqueIncreasing(groups: seq<Group>)
    requires forall p :: 0 <= p < |groups| ==> groups[p].indices != []
    requires FirstAppearanceOrder(groups)
    ensures Ascending(Unique(groups))
  {
    if groups != [] {
      var init := groups[..|groups| - 1];
      var g := groups[|groups| - 1];
      assert forall p :: 0 <= p < |init| ==> init[p] == groups[p];
      UniqueIncreasing(init);
      UniqueMembers(init);
      var pre := Unique(init);
      var u := Unique(groups);
      forall a, b | 0 <= a < b < |u|
        ensures u[a] < u[b]
      {
        assert u[a] == pre[a];
        if b < |pre| {
          assert u[b] == pre[b];
        } else {
          assert u[b] == g.indices[0];
          assert u[a] in pre;
          var p :| 0 <= p < |init| && !StartsWith(init[p].key, NoFramePrefix) && init[p].indices[0] == u[a];
          assert groups[p].indices[0] < groups[|groups| - 1].indices[0];
        }
      }
    }
  }

  /** With distinct indices, an index in a key's group belongs to a result with that key. */
  lemma KeyOfIndex(results: seq<ProbeResult>, j: nat, key: string)
    requires Increasing(results) && j < |results|
    requires results[j].index in IndicesWithKey(results, key)
    ensures Key(results[j]) == key
  {
    IndicesWithKeyMembers(results, key);
    var m :| 0 <= m < |results| && results[m].index == results[j].index && Key(results[m]) == key;
    assert m == j;
  }

  /** A frameless result's index never heads a real-hash group. */
  lemma NoFrameNotUnique(results: seq<ProbeResult>, j: nat)
    requires Increasing(results) && j < |results| && results[j].hash.None?
    ensures results[j].index !in Unique(Groups(results))
  {
    var gs := Groups(results);
    GroupsFaithful(results);
    UniqueMembers(gs);
    assert Key(results[j])[..|NoFramePrefix|] == NoFramePrefix;
    forall p | 0 <= p < |gs| && gs[p].indices[0] == results[j].index
      ensures StartsWith(gs[p].key, NoFramePrefix)
    {
      assert gs[p].indices[0] in gs[p].indices;
      KeyOfIndex(results, j, gs[p].key);
    }
  }

  /**
   * The unique list rises with the index, holds the first index of every
   * group whose hash is not a "NOFRAME_" text, and no frameless index.
   */
  lemma UniqueOfResults(results: seq<ProbeResult>)
    requires Increasing(results)
    ensures Faithful(Groups(results), results)
    ensures var u := Unique(Groups(results));
            Ascending(u)
            && (forall j :: 0 <= j < |results| && results[j].hash.Some? && !StartsWith(results[j].hash.value, NoFramePrefix) ==>
                  IndicesWithKey(results, Key(results[j]))[0] in u)
            && (forall j :: 0 <= j < |results| && results[j].hash.None? ==> results[j].index !in u)
  {
    GroupsOrdered(results);
    var gs := Groups(results);
    var u := Unique(gs);
    UniqueMembers(gs);
    UniqueIncreasing(gs);
    forall j | 0 <= j < |results| && results[j].hash.Some? && !StartsWith(results[j].hash.value, NoFramePrefix)
      ensures IndicesWithKey(results, Key(results[j]))[0] in u
    {
      var p := KeyPos(gs, Key(results[j])).value;
      assert !StartsWith(gs[p].key, NoFramePrefix);
    }
    forall j | 0 <= j < |results| && results[j].hash.None?
      ensures results[j].index !in u
    {
      NoFrameNotUnique(results, j);
    }
  }

  /** What `probe_indices` reports for one backend. */
  datatype Report = Report(results: seq<ProbeResult>, dups: seq<Option<seq<nat>>>, unique: seq<nat>)

  /** The grouping loop: `groups.setdefault(key, []).append(i)` for every result. */
  method GroupByHash(results: seq<ProbeResult>) returns (groups: seq<Group>)
    ensures groups == Groups(results)
    ensures Faithful(groups, results)
  {
    groups := [];
    var k := 0;
    while k < |results|
      invariant 0 <= k <= |results|
      invariant groups == Groups(results[..k])
    {
      assert results[..k + 1][..k] == results[..k];
      var r := results[k];
      groups := SetDefaultAppend(groups, Key(r), r.index);
      k := k + 1;
    }
    assert results[..k] == results;
    GroupsFaithful(results);
  }

  /** The listing loop: the DUP marker of every result, in result order. */
  method DupMarkers(results: seq<ProbeResult>, groups: seq<Group>) returns (dups: seq<Option<seq<nat>>>)
    ensures |dups| == |results|
    ensures forall k :: 0 <= k < |results| ==> dups[k] == DupWith(groups, results[k])
  {
    dups := [];
    var k := 0;
    while k < |results|
      invariant 0 <= k <= |results|
      invariant |dups| == k
      invariant forall m :: 0 <= m < k ==> dups[m] == DupWith(groups, results[m])
    {
      dups := dups + [DupWith(groups, results[k])];
      k := k + 1;
    }
  }

  /**
   * One backend's pass of `probe_indices`: None stands for "No indices
   * opened."; otherwise the opened results, each one's DUP marker, and the
   * unique-video indices.
   */
  method ProbeBackend(outcomes: seq<(bool, Option<Frame>)>) returns (report: Option<Report>)
    ensures report.None? <==> forall i :: 0 <= i < |outcomes| ==> !outcomes[i].0
    ensures report.Some? ==> report.value.results == OpenedResults(outcomes)
    ensures report.Some? ==> |report.value.dups| == |report.value.results|
    ensures report.Some? ==> forall k :: 0 <= k < |report.value.results| ==>
              report.value.dups[k] == DupWith(Groups(report.value.results), report.value.results[k])
    ensures report.Some? ==> report.value.unique == Unique(Groups(report.value.results))
  {
    var results := ProbeIndices(outcomes);
    OpenedResultsEmpty(outcomes);
    if results == [] {
      return None;
    }
    var groups := GroupByHash(results);
    var dups := DupMarkers(results, groups);
    report := Some(Report(results, dups, Unique(groups)));
  }
}
