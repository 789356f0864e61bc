/**
 * experiments/scripts/camera-related/cross-reboot-index.py: recognising a
 * camera across reboots by the USB container id behind its DirectShow path.
 * The registry query is an input (`lookup`).
 */
module CrossRebootIndex {
  import opened Wrappers
  import opened Text

  // --------------------------------------------------- dshow_path_to_instance_id

  /** Whether "usb#" (ignoring ASCII case) starts at position `p`. */
  predicate UsbAt(s: string, p: nat) {
    p + 4 <= |s| && Lower(s[p..p + 4]) == "usb#"
  }

  /** The prefix `\\?\` that may introduce a device path. */
  const DevicePrefix: string := "\\\\?\\"

  /** Whether a match may start its "usb#" at `p`: at the very start, or right after `\\?\`. */
  predicate Anchored(s: string, p: nat) {
    p == 0 || (4 <= p <= |s| && s[p - 4..p] == DevicePrefix)
  }

  /**
   * The two groups `usb#([^#]+)#([^#]+)#` captures when "usb#" starts at `p`:
   * two non-empty runs of characters other than '#', each closed by '#'.
   */
  function TokensAt(s: string, p: nat): (r: Option<(string, string)>)
    requires UsbAt(s, p)
    ensures r.Some? ==> r.value.0 != [] && r.value.1 != []
                        && '#' !in r.value.0 && '#' !in r.value.1
                        && p + 4 + |r.value.0| + 1 + |r.value.1| + 1 <= |s|
                        && s[p + 4..p + 4 + |r.value.0|] == r.value.0
                        && s[p + 4 + |r.value.0|] == '#'
                        && s[p + 5 + |r.value.0|..p + 5 + |r.value.0| + |r.value.1|] == r.value.1
                        && s[p + 5 + |r.value.0| + |r.value.1|] == '#'
  {
    var a0 := p + 4;
    match FindFrom(s, "#", a0)
    case None => None
    case Some(e1) =>
      if e1 == a0 then None
      else
        match FindFrom(s, "#", e1 + 1)
        case None => None
        case Some(e2) =>
          if e2 == e1 + 1 then None
          else
            NoHashBefore(s, a0, e1);
            NoHashBefore(s, e1 + 1, e2);
            TokenSlices(s, a0, e1, e2);
            Some((s[a0..e1], s[e1 + 1..e2]))
  }

  /** The two runs between `a0` and the '#'s at `e1` and `e2` are the tokens, each closed by its '#'. */
  lemma TokenSlices(s: string, a0: nat, e1: nat, e2: nat)
    requires a0 < e1 && e1 + 1 < e2 && OccursAt(s, "#", e1) && OccursAt(s, "#", e2)
    requires '#' !in s[a0..e1] && '#' !in s[e1 + 1..e2]
    ensures var t0, t1 := s[a0..e1], s[e1 + 1..e2];
            t0 != [] && t1 != [] && a0 + |t0| + 1 + |t1| + 1 <= |s|
            && s[a0..a0 + |t0|] == t0 && s[a0 + |t0|] == '#'
            && s[a0 + 1 + |t0|..a0 + 1 + |t0| + |t1|] == t1 && s[a0 + 1 + |t0| + |t1|] == '#'
  {
    assert s[e1..e1 + 1][0] == s[e1];
    assert s[e2..e2 + 1][0] == s[e2];
  }

  /** No '#' lies strictly between `k` and the first '#' at or after `k`. */
  lemma NoHashBefore(s: string, k: nat, e: nat)
    requires k <= e <= |s| && FindFrom(s, "#", k) == Some(e)
    ensures '#' !in s[k..e]
  {
    if '#' in s[k..e] {
      var j :| k <= j < e && s[j] == '#';
      assert s[j..j + 1] == "#";
      assert OccursAt(s, "#", j);
    }
  }

  /** Whether the pattern (anchored or not, as `anchoredOnly` says) matches with "usb#" at `p`. */
  predicate MatchesAt(s: string, p: nat, anchoredOnly: bool) {
    UsbAt(s, p) && TokensAt(s, p).Some? && (anchoredOnly ==> Anchored(s, p))
  }

  /** `re.search`: the leftmost position at or after `k` where the pattern matches, with its groups. */
  function Search(s: string, k: nat, anchoredOnly: bool): (r: Option<(nat, (string, string))>)
    ensures r.Some? ==> k <= r.value.0 && MatchesAt(s, r.value.0, anchoredOnly)
                        && TokensAt(s, r.value.0) == Some(r.value.1)
    ensures forall p :: k <= p && (r.None? || p < r.value.0) ==> !MatchesAt(s, p, anchoredOnly)
    decreases |s| - k
  {
    if |s| < k + 4 then None
    else if MatchesAt(s, k, anchoredOnly) then Some((k, TokensAt(s, k).value))
    else Search(s, k + 1, anchoredOnly)
  }

  /**
   * The match `dshow_path_to_instance_id` uses: the leftmost anchored one
   * when there is any, otherwise the leftmost one anywhere.
   */
  ghost predicate Chosen(s: string, p: nat) {
    MatchesAt(s, p, false)
    && if exists q: nat :: MatchesAt(s, q, true)
       then MatchesAt(s, p, true) && forall q: nat :: q < p ==> !MatchesAt(s, q, true)
       else forall q: nat :: q < p ==> !MatchesAt(s, q, false)
  }

  /** Searching anchored matches first, then any, finds the chosen match. */
  lemma SearchChosen(s: string)
    ensures Search(s, 0, true).Some? ==> Chosen(s, Search(s, 0, true).value.0)
    ensures Search(s, 0, true).None? && Search(s, 0, false).Some? ==> Chosen(s, Search(s, 0, false).value.0)
  {
    var a := Search(s, 0, true);
    if a.Some? {
      assert MatchesAt(s, a.value.0, false);
    } else {
      assert !exists q: nat :: MatchesAt(s, q, true);
    }
  }

  /** At most one position is chosen, so the chosen match determines the instance id. */
  lemma ChosenUnique(s: string, p: nat, q: nat)
    requires Chosen(s, p) && Chosen(s, q)
    ensures p == q
  {
  }

  /** Why a DirectShow path gives no instance id (both raise ValueError). */
  datatype PathError = EmptyPath | NoUsbTokens

  /** The instance id for tokens A and B: "USB\A\B" upper-cased. */
  function InstanceId(a: string, b: string): string {
    Upper("USB\\" + a + "\\" + b)
  }

  /**
   * `dshow_path_to_instance_id`: an empty path is refused; otherwise the
   * stripped path is searched first for an anchored "usb#A#B#", then for one
   * anywhere; the leftmost match gives "USB\A\B" upper-cased.
   */
  function DshowPathToInstanceId(path: string): (r: Result<string, PathError>)
    ensures path == [] <==> r == Err(EmptyPath)
    ensures r == Err(NoUsbTokens) <==>
              path != [] && forall p :: !MatchesAt(Strip(path), p, false)
    ensures r.Ok? ==> exists p :: Chosen(Strip(path), p)
                                  && r.value == InstanceId(TokensAt(Strip(path), p).value.0,
                                                           TokensAt(Strip(path), p).value.1)
  {
    if path == [] then Err(EmptyPath)
    else
      var s := Strip(path);
      SearchChosen(s);
      var m := Search(s, 0, true);
      var m := if m.Some? then m else Search(s, 0, false);
      if m.None? then
        assert forall p :: !MatchesAt(s, p, false);
        Err(NoUsbTokens)
      else
        assert MatchesAt(s, m.value.0, false);
        Ok(InstanceId(m.value.1.0, m.value.1.1))
  }

  /** The first '#' at or after `k` is at `e` when `s[k..e]` holds none and `s[e]` is one. */
  lemma FindHash(s: string, k: nat, e: nat)
    requires k <= e < |s| && s[e] == '#' && '#' !in s[k..e]
    ensures FindFrom(s, "#", k) == Some(e)
  {
    assert s[e..e + 1] == "#";
    assert OccursAt(s, "#", e);
    forall j | k <= j < e
      ensures s[j] != '#'
    {
      assert s[j] == s[k..e][j - k];
    }
    var r := FindFrom(s, "#", k);
    if r.Some? {
      OccursHash(s, r.value);
    }
  }

  /** An occurrence of "#" is the character '#'. */
  lemma OccursHash(s: string, j: nat)
    ensures OccursAt(s, "#", j) ==> s[j] == '#'
  {
    if OccursAt(s, "#", j) {
      assert s[j..j + 1][0] == s[j];
    }
  }

  /** In `\\?\usb#A#B#rest` the match starting at position 4 captures A and B. */
  lemma DevicePathTokens(a: string, b: string, rest: string)
    requires a != [] && b != [] && '#' !in a && '#' !in b
    ensures var s := DevicePrefix + "usb#" + a + "#" + b + "#" + rest;
            UsbAt(s, 4) && Anchored(s, 4) && TokensAt(s, 4) == Some((a, b))
  {
    var s := DevicePrefix + "usb#" + a + "#" + b + "#" + rest;
    assert s[0..4] == DevicePrefix;
    assert s[4..8] == "usb#";
    assert Lower("usb#") == "usb#";
    var e1 := 8 + |a|;
    var e2 := e1 + 1 + |b|;
    assert s[8..e1] == a && s[e1] == '#';
    assert s[e1 + 1..e2] == b && s[e2] == '#';
    FindHash(s, 8, e1);
    FindHash(s, e1 + 1, e2);
  }

  /** Inside the prefix `\\?\` and the "usb#" after it, no other "usb#" starts. */
  lemma NoUsbInPrefix(s: string)
    requires |s| >= 8 && s[..8] == DevicePrefix + "usb#"
    ensures !UsbAt(s, 0) && !UsbAt(s, 1) && !UsbAt(s, 2) && !UsbAt(s, 3)
  {
    assert s[3] == '\\' && s[4] == 'u' && s[5] == 's' && s[6] == 'b';
    assert Lower(s[0..4])[3] == LowerChar(s[3]);
    assert Lower(s[1..5])[3] == LowerChar(s[4]);
    assert Lower(s[2..6])[3] == LowerChar(s[5]);
    assert Lower(s[3..7])[3] == LowerChar(s[6]);
  }

  /**
   * A device path as DirectShow writes it, `\\?\usb#A#B#rest`, yields
   * "USB\A\B" upper-cased, whatever follows the second token.
   */
  lemma InstanceIdOfDevicePath(a: string, b: string, rest: string)
    requires a != [] && b != [] && '#' !in a && '#' !in b
    requires rest == [] || !IsSpace(rest[|rest| - 1])
    ensures DshowPathToInstanceId(DevicePrefix + "usb#" + a + "#" + b + "#" + rest) == Ok(InstanceId(a, b))
  {
    var s := DevicePrefix + "usb#" + a + "#" + b + "#" + rest;
    assert s[0] == '\\' && !IsSpace(s[|s| - 1]);
    StripOfStripped(s);
    assert s[..8] == DevicePrefix + "usb#";
    NoUsbInPrefix(s);
    DevicePathTokens(a, b, rest);
    assert Search(s, 4, true) == Some((4, (a, b)));
    assert Search(s, 0, true) == Some((4, (a, b)));
  }

  // --------------------------------------------------------------------- GUID_RE

  predicate IsHexDigit(c: char) {
    ('0' <= c <= '9') || ('a' <= c <= 'f') || ('A' <= c <= 'F')
  }

  /** The five hex groups of lengths 8-4-4-4-12 joined by '-', with no braces. */
  predicate GuidBody(s: string) {
    |s| == 36
    && (forall i :: 0 <= i < 36 && i != 8 && i != 13 && i != 18 && i != 23 ==> IsHexDigit(s[i]))
    && s[8] == '-' && s[13] == '-' && s[18] == '-' && s[23] == '-'
  }

  /** The whole text matches the GUID pattern: the body, with an optional '{' before and '}' after. */
  predicate GuidExact(s: string) {
    GuidBody(s)
    || (|s| == 37 && s[0] == '{' && GuidBody(s[1..]))
    || (|s| == 37 && s[36] == '}' && GuidBody(s[..36]))
    || (|s| == 38 && s[0] == '{' && s[37] == '}' && GuidBody(s[1..37]))
  }

  /** `GUID_RE.match`: `$` also accepts a single trailing newline. */
  predicate IsGuid(s: string) {
    GuidExact(s) || (s != [] && s[|s| - 1] == '\n' && GuidExact(s[..|s| - 1]))
  }

  /** The braces are independently optional. */
  lemma GuidBraces(g: string)
    requires GuidBody(g)
    ensures IsGuid(g) && IsGuid("{" + g) && IsGuid(g + "}") && IsGuid("{" + g + "}")
  {
    assert ("{" + g)[1..] == g;
    assert (g + "}")[..36] == g;
    assert ("{" + g + "}")[1..37] == g;
  }

  /** A GUID without a trailing newline is 36 to 38 characters long and has no whitespace at its ends. */
  lemma GuidShape(s: string)
    requires GuidExact(s)
    ensures 36 <= |s| <= 38 && !IsSpace(s[0]) && !IsSpace(s[|s| - 1])
  {
    if GuidBody(s) {
      assert IsHexDigit(s[0]) && IsHexDigit(s[35]);
    } else if |s| == 37 && s[0] == '{' && GuidBody(s[1..]) {
      assert IsHexDigit(s[1..][35]);
    } else if |s| == 37 {
      assert IsHexDigit(s[..36][0]);
    }
  }

  // ------------------------------------------------- container_id_from_instance_id

  /** Why no container id is returned. */
  datatype ContainerError = InvalidInstanceId | LookupFailed | NoContainerId | NotAGuid

  /**
   * `container_id_from_instance_id`: an empty instance id or "none" in any
   * case is refused before the registry is asked; the stripped answer must
   * be non-empty and a GUID. `lookup` is the PowerShell query (None when it
   * fails).
   */
  function ContainerIdFromInstanceId(instanceId: string, lookup: string -> Option<string>): (r: Result<string, ContainerError>)
    ensures instanceId == [] || Lower(instanceId) == "none" <==> r == Err(InvalidInstanceId)
    ensures r.Ok? <==> instanceId != [] && Lower(instanceId) != "none" && lookup(instanceId).Some?
                       && IsGuid(Strip(lookup(instanceId).value))
    ensures r.Ok? ==> r.value == Strip(lookup(instanceId).value) && GuidExact(r.value)
  {
    if instanceId == [] || Lower(instanceId) == "none" then Err(InvalidInstanceId)
    else match lookup(instanceId)
      case None => Err(LookupFailed)
      case Some(raw) =>
        var out := Strip(raw);
        if out == [] then Err(NoContainerId)
        else if !IsGuid(out) then Err(NotAGuid)
        else
          StrippedGuid(out);
          Ok(out)
  }

  /** Stripped text that matches the pattern matches it without the newline allowance. */
  lemma StrippedGuid(s: string)
    requires IsGuid(s) && s != [] && !IsSpace(s[|s| - 1])
    ensures GuidExact(s)
  {
  }

  // ---------------------------------------------------------------------- enrich

  /** One camera from `cameras()`; an absent path is "". */
  datatype Cam = Cam(index: int, name: string, vid: Option<int>, pid: Option<int>, path: string)

  /** A camera with the two keys `enrich` adds. */
  datatype EnrichedCam = EnrichedCam(cam: Cam, instanceId: Option<string>, containerId: Option<string>)

  /**
   * `enrich`: the camera's own fields are kept and both keys are present;
   * they are set together, only when the path parses and the container id
   * lookup succeeds, and are None otherwise.
   */
  function Enrich(cam: Cam, lookup: string -> Option<string>): (e: EnrichedCam)
    ensures e.cam == cam
    ensures e.instanceId.Some? <==> e.containerId.Some?
    ensures e.instanceId.Some? <==>
              cam.path != [] && DshowPathToInstanceId(cam.path).Ok?
              && ContainerIdFromInstanceId(DshowPathToInstanceId(cam.path).value, lookup).Ok?
    ensures e.instanceId.Some? ==>
              e.instanceId.value == DshowPathToInstanceId(cam.path).value
              && e.containerId.value == ContainerIdFromInstanceId(e.instanceId.value, lookup).value
  {
    if cam.path == [] then EnrichedCam(cam, None, None)
    else match DshowPathToInstanceId(cam.path)
      case Err(_) => EnrichedCam(cam, None, None)
      case Ok(iid) =>
        match ContainerIdFromInstanceId(iid, lookup)
        case Err(_) => EnrichedCam(cam, None, None)
        case Ok(cid) => EnrichedCam(cam, Some(iid), Some(cid))
  }

  // --------------------------------------------------------------- resolve_index

  /** The normal form containers are compared in: stripped and lower-cased. */
  function Normal(s: string): string {
    Lower(Strip(s))
  }

  /** Whether an enriched camera carries the saved container id (normalised as `saved`). */
  predicate HasContainer(e: EnrichedCam, saved: string) {
    e.containerId.Some? && e.containerId.value != [] && Normal(e.containerId.value) == saved
  }

  /** The position of the first camera carrying the container `saved`. */
  function FirstWithContainer(cams: seq<EnrichedCam>, saved: string): (r: Option<nat>)
    ensures r.Some? ==> r.value < |cams| && HasContainer(cams[r.value], saved)
    ensures forall j :: 0 <= j < |cams| && (r.None? || j < r.value) ==> !HasContainer(cams[j], saved)
  {
    if cams == [] then None
    else if HasContainer(cams[0], saved) then Some(0)
    else match FirstWithContainer(cams[1..], saved)
      case None => None
      case Some(i) => Some(i + 1)
  }

  /**
   * `resolve_index`: the index of the first camera whose non-empty container
   * id equals the saved one once both are stripped and lower-cased.
   */
  function ResolveIndex(cams: seq<EnrichedCam>, savedContainer: string): (r: Option<int>)
    ensures r.None? <==> forall i :: 0 <= i < |cams| ==> !HasContainer(cams[i], Normal(savedContainer))
  {
    match FirstWithContainer(cams, Normal(savedContainer))
    case None => None
    case Some(i) => Some(cams[i].cam.index)
  }

  /**
   * A saved container id resolves back to the camera it was read from, in
   * any letter case, provided no earlier camera carries the same container.
   */
  lemma ResolveSaved(cams: seq<EnrichedCam>, i: nat, saved: string)
    requires i < |cams| && cams[i].containerId.Some? && cams[i].containerId.value != []
    requires Normal(saved) == Normal(cams[i].containerId.value)
    requires forall j :: 0 <= j < i ==> !HasContainer(cams[j], Normal(saved))
    ensures ResolveIndex(cams, saved) == Some(cams[i].cam.index)
  {
    assert HasContainer(cams[i], Normal(saved));
    var r := FirstWithContainer(cams, Normal(saved));
    assert r == Some(i);
  }
}
