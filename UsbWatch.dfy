/**
 * The USB watcher (experiments/scripts/camera-related/usb-devices/usb_watch.py):
 * each poll lists the present USB devices as a map from instance id to
 * friendly name, and reports the ids that appeared since the previous poll
 * and those that disappeared, each group in Python's string order. The
 * PowerShell query is an input: its exit code, its error text and its
 * output as JSON.
 */
module UsbWatch {
  import opened Wrappers
  import opened Text

  /** The name given to a device without a friendly name. */
  const UnknownDevice := "(unknown USB device)"

  /** The error raised when PowerShell fails without saying why. */
  const PowerShellFailed := "PowerShell command failed"

  /** The error raised when the query's output is not JSON. */
  const NotJson := "invalid JSON"

  /**
   * One JSON object of the query's output. A field is None when it is
   * missing or null; it is only ever a string otherwise.
   */
  datatype Record = Record(instanceId: Option<string>, friendlyName: Option<string>)

  /** The query's output: blank, not JSON, a JSON array of objects, or one object. */
  datatype Output = Blank | Unparsable | Array(items: seq<Record>) | Single(item: Record)

  /** Python's truth value of an optional string: present and non-empty. */
  predicate Truthy(s: Option<string>) {
    s.Some? && s.value != []
  }

  /** `item.get("FriendlyName") or "(unknown USB device)"`. */
  function FriendlyName(r: Record): (name: string)
    ensures name != []
    ensures Truthy(r.friendlyName) ==> name == r.friendlyName.value
  {
    if Truthy(r.friendlyName) then r.friendlyName.value else UnknownDevice
  }

  /** The devices the records describe, later records overwriting earlier ones with the same id. */
  function DevicesOf(items: seq<Record>): (d: map<string, string>)
    ensures forall k :: k in d ==> k != [] && d[k] != []
  {
    if items == [] then map[]
    else
      var d := DevicesOf(items[..|items| - 1]);
      var r := items[|items| - 1];
      if Truthy(r.instanceId) then d[r.instanceId.value := FriendlyName(r)] else d
  }

  /** A record carries the instance id `k`. */
  predicate HasId(r: Record, k: string) {
    r.instanceId == Some(k)
  }

  /** Exactly the non-empty instance ids of the records are listed. */
  lemma {:induction false} DevicesKeys(items: seq<Record>, k: string)
    ensures k in DevicesOf(items) <==> k != [] && exists i :: 0 <= i < |items| && HasId(items[i], k)
  {
    if items != [] {
      var init := items[..|items| - 1];
      DevicesKeys(init, k);
      if k in DevicesOf(items) && !HasId(items[|items| - 1], k) {
        var i :| 0 <= i < |init| && HasId(init[i], k);
        assert HasId(items[i], k);
      }
      if k != [] && (exists i :: 0 <= i < |items| && HasId(items[i], k)) && !HasId(items[|items| - 1], k) {
        var i :| 0 <= i < |items| && HasId(items[i], k);
        assert HasId(init[i], k);
      }
    }
  }

  /** A device's name is the friendly name of the last record with its id. */
  lemma {:induction false} DevicesLastWins(items: seq<Record>, j: nat, k: string)
    requires j < |items| && HasId(items[j], k) && k != []
    requires forall i :: j < i < |items| ==> !HasId(items[i], k)
    ensures k in DevicesOf(items) && DevicesOf(items)[k] == FriendlyName(items[j])
  {
    if j < |items| - 1 {
      var init := items[..|items| - 1];
      assert HasId(init[j], k);
      forall i | j < i < |init|
        ensures !HasId(init[i], k)
      {
        assert init[i] == items[i];
      }
      DevicesLastWins(init, j, k);
    }
  }

  /**
   * The loop of `fetch_usb_devices` over the records: records without a
   * usable instance id are skipped.
   */
  method BuildDevices(items: seq<Record>) returns (devices: map<string, string>)
    ensures devices == DevicesOf(items)
    ensures forall k :: k in devices ==> k != [] && devices[k] != []
  {
    devices := map[];
    var i := 0;
    while i < |items|
      invariant 0 <= i <= |items|
      invariant devices == DevicesOf(items[..i])
    {
      PrefixStep(items, i);
      var item := items[i];
      if Truthy(item.instanceId) {
        devices := devices[item.instanceId.value := FriendlyName(item)];
      }
      i := i + 1;
    }
    assert items[..i] == items;
  }

  /** The records of the output: a blank output is an empty array, a single object a one-element array. */
  function Records(output: Output): (items: seq<Record>)
    requires !output.Unparsable?
    ensures output.Blank? ==> items == []
    ensures output.Single? ==> items == [output.item]
    ensures output.Array? ==> items == output.items
  {
    match output
    case Blank => []
    case Array(items) => items
    case Single(item) => [item]
  }

  /**
   * `fetch_usb_devices`: a non-zero exit code raises the stripped error text,
   * or a default message when there is none; otherwise the output's records
   * are turned into the device map.
   */
  method Fetch(returnCode: int, stderr: string, output: Output) returns (r: Result<map<string, string>, string>)
    ensures returnCode != 0 ==> r.Err? && r.error != []
    ensures returnCode != 0 && Strip(stderr) != [] ==> r == Err(Strip(stderr))
    ensures returnCode != 0 && Strip(stderr) == [] ==> r == Err(PowerShellFailed)
    ensures returnCode == 0 && output.Unparsable? ==> r == Err(NotJson)
    ensures returnCode == 0 && !output.Unparsable? ==> r == Ok(DevicesOf(Records(output)))
  {
    if returnCode != 0 {
      var text := Strip(stderr);
      return Err(if text != [] then text else PowerShellFailed);
    }
    if output.Unparsable? {
      return Err(NotJson);
    }
    var devices := BuildDevices(Records(output));
    return Ok(devices);
  }

  /** Python's `<` on strings: code-point lexicographic order. */
  predicate Below(a: string, b: string)
    decreases |a|
  {
    b != [] && (a == [] || a[0] < b[0] || (a[0] == b[0] && Below(a[1..], b[1..])))
  }

  lemma {:induction false} BelowIrreflexive(a: string)
    ensures !Below(a, a)
    decreases |a|
  {
    if a != [] {
      BelowIrreflexive(a[1..]);
    }
  }

  lemma {:induction false} BelowTransitive(a: string, b: string, c: string)
    requires Below(a, b) && Below(b, c)
    ensures Below(a, c)
    decreases |a|
  {
    if a != [] && a[0] == b[0] && b[0] == c[0] {
      BelowTransitive(a[1..], b[1..], c[1..]);
    }
  }

  lemma {:induction false} BelowTotal(a: string, b: string)
    requires a != b
    ensures Below(a, b) || Below(b, a)
    decreases |a|
  {
    if a != [] && b != [] && a[0] == b[0] {
      assert a == [a[0]] + a[1..] && b == [b[0]] + b[1..];
      BelowTotal(a[1..], b[1..]);
    }
  }

  /** `m` comes before every other element of `s`. */
  predicate Least(m: string, s: set<string>) {
    forall x :: x in s && x != m ==> Below(m, x)
  }

  lemma {:induction false} HasLeast(s: set<string>)
    requires s != {}
    ensures exists m :: m in s && Least(m, s)
    decreases |s|
  {
    var y :| y in s;
    if s == {y} {
      assert Least(y, s);
    } else {
      var t := s - {y};
      HasLeast(t);
      var m :| m in t && Least(m, t);
      if Below(y, m) {
        forall x | x in s && x != y
          ensures Below(y, x)
        {
          if x != m {
            BelowTransitive(y, m, x);
          }
        }
        assert Least(y, s);
      } else {
        BelowTotal(y, m);
        assert Least(m, s);
      }
    }
  }

  /** Strictly ascending in Python's string order. */
  predicate Increasing(ids: seq<string>) {
    forall i, j :: 0 <= i < j < |ids| ==> Below(ids[i], ids[j])
  }

  /** `sorted(s)` for a set of strings: its elements, each once, in ascending order. */
  method SortedIds(s: set<string>) returns (r: seq<string>)
    ensures Increasing(r)
    ensures forall x :: x in r <==> x in s
    ensures |r| == |s|
  {
    r := [];
    var rest := s;
    while rest != {}
      invariant rest <= s
      invariant forall x :: x in s <==> x in r || x in rest
      invariant forall x :: x in r ==> x !in rest
      invariant Increasing(r)
      invariant forall i, y :: 0 <= i < |r| && y in rest ==> Below(r[i], y)
      invariant |r| + |rest| == |s|
      decreases |rest|
    {
      HasLeast(rest);
      var m :| m in rest && Least(m, rest);
      forall i, y | 0 <= i < |r| + 1 && y in rest - {m}
        ensures Below((r + [m])[i], y)
      {
        if i == |r| {
          assert y != m;
        }
      }
      r := r + [m];
      rest := rest - {m};
    }
  }

  /** Two ascending lists of the same strings are the same list: sorting leaves no choice. */
  lemma {:induction false} IncreasingUnique(a: seq<string>, b: seq<string>)
    requires Increasing(a) && Increasing(b)
    requires forall x :: x in a <==> x in b
    ensures a == b
    decreases |a|
  {
    assert a != [] ==> a[0] in b;
    assert b != [] ==> b[0] in a;
    if a != [] && b != [] {
      if a[0] != b[0] {
        assert a[0] in b && b[0] in a;
        var i :| 0 <= i < |b| && b[i] == a[0];
        var j :| 0 <= j < |a| && a[j] == b[0];
        BelowTransitive(a[0], b[0], a[0]);
        BelowIrreflexive(a[0]);
      }
      forall x
        ensures x in a[1..] <==> x in b[1..]
      {
        BelowIrreflexive(x);
        if x in a[1..] {
          var i :| 0 <= i < |a[1..]| && a[1..][i] == x;
          assert a[i + 1] == x && x in b;
          var j :| 0 <= j < |b| && b[j] == x;
          assert j != 0;
          assert b[1..][j - 1] == x;
        }
        if x in b[1..] {
          var i :| 0 <= i < |b[1..]| && b[1..][i] == x;
          assert b[i + 1] == x && x in a;
          var j :| 0 <= j < |a| && a[j] == x;
          assert j != 0;
          assert a[1..][j - 1] == x;
        }
      }
      IncreasingUnique(a[1..], b[1..]);
      assert a == [a[0]] + a[1..] && b == [b[0]] + b[1..];
    }
  }

  /** One line of the report: a device's name and its instance id. */
  datatype Event = Event(name: string, instanceId: string)

  /** The result of one poll: the error that made it fail, or the connected and disconnected devices. */
  datatype Tick = Failed(error: string) | Changes(connected: seq<Event>, disconnected: seq<Event>)

  /**
   * `events` names, in ascending id order, exactly the ids of `names` outside
   * `other`, each with its name in `names`.
   */
  predicate Reports(events: seq<Event>, names: map<string, string>, other: set<string>) {
    (forall i, j :: 0 <= i < j < |events| ==> Below(events[i].instanceId, events[j].instanceId)) &&
    (forall i :: 0 <= i < |events| ==> events[i].instanceId in names && events[i].instanceId !in other &&
                                        events[i].name == names[events[i].instanceId]) &&
    (forall k :: k in names && k !in other ==> exists i :: 0 <= i < |events| && events[i].instanceId == k)
  }

  /** `previous.get(iid, "(unknown USB device)")`. */
  function NameOr(names: map<string, string>, k: string): (name: string)
    ensures k in names ==> name == names[k]
    ensures k !in names ==> name == UnknownDevice
  {
    if k in names then names[k] else UnknownDevice
  }

  /** The watcher's loop state: the devices seen at the previous poll. */
  class Watcher {
    var previous: map<string, string>

    /** The baseline poll: the devices present at start-up are never reported. */
    constructor (baseline: map<string, string>)
      ensures previous == baseline
    {
      previous := baseline;
    }

    /**
     * One iteration of the loop in `main`, given what `fetch_usb_devices`
     * returned: a failed fetch reports its error and keeps the previous
     * devices; otherwise the ids that appeared are reported with their new
     * names, those that disappeared with their previous names, and the
     * fetched devices become the previous ones.
     */
    method Poll(fetched: Result<map<string, string>, string>) returns (tick: Tick)
      modifies this
      ensures fetched.Err? ==> previous == old(previous) && tick == Failed(fetched.error)
      ensures fetched.Ok? ==> previous == fetched.value && tick.Changes?
      ensures fetched.Ok? ==> Reports(tick.connected, fetched.value, old(previous).Keys)
      ensures fetched.Ok? ==> Reports(tick.disconnected, old(previous), fetched.value.Keys)
      ensures fetched.Ok? ==> |tick.connected| == |fetched.value.Keys - old(previous).Keys|
      ensures fetched.Ok? ==> |tick.disconnected| == |old(previous).Keys - fetched.value.Keys|
    {
      if fetched.Err? {
        return Failed(fetched.error);
      }
      var current := fetched.value;
      var connected := Report(current, previous.Keys);
      var disconnected := Report(previous, current.Keys);
      previous := current;
      return Changes(connected, disconnected);
    }
  }

  /**
   * The ids of `names` outside `other`, sorted, each with its name: for the
   * connected devices the name in the new map, for the disconnected ones
   * `previous.get(iid, "(unknown USB device)")`, which always finds the id.
   */
  method Report(names: map<string, string>, other: set<string>) returns (events: seq<Event>)
    ensures Reports(events, names, other)
    ensures |events| == |names.Keys - other|
  {
    var ids := SortedIds(names.Keys - other);
    events := seq(|ids|, i requires 0 <= i < |ids| => Event(NameOr(names, ids[i]), ids[i]));
    ReportsOf(events, ids, names, other);
  }

  /** Events built from the ascending ids of `names` outside `other` report them. */
  lemma ReportsOf(events: seq<Event>, ids: seq<string>, names: map<string, string>, other: set<string>)
    requires Increasing(ids) && forall x :: x in ids <==> x in names.Keys - other
    requires |events| == |ids|
    requires forall i :: 0 <= i < |ids| ==> events[i] == Event(NameOr(names, ids[i]), ids[i])
    ensures Reports(events, names, other)
  {
    forall i, j | 0 <= i < j < |events|
      ensures Below(events[i].instanceId, events[j].instanceId)
    {
      assert events[i].instanceId == ids[i] && events[j].instanceId == ids[j];
    }
    forall i | 0 <= i < |events|
      ensures events[i].instanceId in names && events[i].instanceId !in other
      ensures events[i].name == names[events[i].instanceId]
    {
      assert events[i].instanceId == ids[i] && ids[i] in ids;
    }
    forall k | k in names && k !in other
      ensures exists i :: 0 <= i < |events| && events[i].instanceId == k
    {
      assert k in names.Keys - other;
      var i :| 0 <= i < |ids| && ids[i] == k;
      assert events[i].instanceId == k;
    }
  }

  /** The ids of a list of events, in order. */
  function Ids(events: seq<Event>): (ids: seq<string>)
    ensures |ids| == |events| && forall i :: 0 <= i < |events| ==> ids[i] == events[i].instanceId
  {
    seq(|events|, i requires 0 <= i < |events| => events[i].instanceId)
  }

  /** The report of a poll is fully determined: two lists that both report the same change are equal. */
  lemma ReportsUnique(e1: seq<Event>, e2: seq<Event>, names: map<string, string>, other: set<string>)
    requires Reports(e1, names, other) && Reports(e2, names, other)
    ensures e1 == e2
  {
    var a, b := Ids(e1), Ids(e2);
    forall x
      ensures x in a <==> x in b
    {
      if x in a {
        var i :| 0 <= i < |a| && a[i] == x;
        assert x in names && x !in other;
      }
      if x in b {
        var i :| 0 <= i < |b| && b[i] == x;
        assert x in names && x !in other;
      }
    }
    IncreasingUnique(a, b);
    forall i | 0 <= i < |e1|
      ensures e1[i] == e2[i]
    {
      assert a[i] == b[i];
    }
  }
}
