/**
 * backend/device_monitor.py: a poller that keeps the map from serial port
 * device names to their descriptions, replaced wholesale on every poll.
 */
module DeviceMonitor {
  import opened Wrappers

  /** One entry of `list_ports.comports()`; an absent description is "". */
  datatype PortInfo = PortInfo(device: string, description: string)

  /** `info.description or info.device`. */
  function Describe(info: PortInfo): (d: string)
    ensures info.description != "" ==> d == info.description
    ensures info.description == "" ==> d == info.device
  {
    if info.description != "" then info.description else info.device
  }

  /**
   * The map `_detect_ports` builds from the enumerated ports: entries with an
   * empty device are skipped, and a later entry for the same device wins.
   */
  function PortMap(infos: seq<PortInfo>): (ports: map<string, string>)
    ensures forall k :: k in ports ==> k != ""
    ensures forall i :: 0 <= i < |infos| && infos[i].device != "" ==> infos[i].device in ports
    ensures infos != [] && infos[|infos| - 1].device != "" ==>
              ports[infos[|infos| - 1].device] == Describe(infos[|infos| - 1])
  {
    if infos == [] then map[]
    else
      var init := infos[..|infos| - 1];
      var last := infos[|infos| - 1];
      var m := PortMap(init);
      assert forall i :: 0 <= i < |init| ==> init[i] == infos[i];
      if last.device == "" then m else m[last.device := Describe(last)]
  }

  /** Enumerating two batches one after the other: the second batch's entries override the first's. */
  lemma {:induction false} PortMapAppend(a: seq<PortInfo>, b: seq<PortInfo>)
    ensures PortMap(a + b) == PortMap(a) + PortMap(b)
    decreases |b|
  {
    if b == [] {
      assert a + b == a;
    } else {
      var b' := b[..|b| - 1];
      assert (a + b)[..|a + b| - 1] == a + b';
      PortMapAppend(a, b');
      var last := b[|b| - 1];
      assert (a + b)[|a + b| - 1] == last;
      if last.device != "" {
        UpdateOfUnion(PortMap(a), PortMap(b'), last.device, Describe(last));
      }
    }
  }

  /** Every key of the map is the device of some enumerated port. */
  lemma {:induction false} PortMapKeys(infos: seq<PortInfo>, k: string)
    requires k in PortMap(infos)
    ensures exists i :: 0 <= i < |infos| && infos[i].device == k
  {
    var init := infos[..|infos| - 1];
    if k != infos[|infos| - 1].device {
      PortMapKeys(init, k);
      var i :| 0 <= i < |init| && init[i].device == k;
      assert infos[i] == init[i];
    }
  }

  /** The value stored for a device is the description of its last entry. */
  lemma {:induction false} PortMapLastWins(infos: seq<PortInfo>, i: nat)
    requires i < |infos| && infos[i].device != ""
    requires forall j :: i < j < |infos| ==> infos[j].device != infos[i].device
    ensures PortMap(infos)[infos[i].device] == Describe(infos[i])
  {
    if i < |infos| - 1 {
      var init := infos[..|infos| - 1];
      PortMapLastWins(init, i);
    }
  }

  /**
   * `_detect_ports`: the port map of the enumeration `comports`, which is
   * None when pyserial cannot be imported (the map is then empty).
   */
  method DetectPorts(comports: Option<seq<PortInfo>>) returns (ports: map<string, string>)
    ensures comports.None? ==> ports == map[]
    ensures comports.Some? ==> ports == PortMap(comports.value)
  {
    if comports.None? {
      return map[];
    }
    var infos := comports.value;
    ports := map[];
    var i := 0;
    while i < |infos|
      invariant 0 <= i <= |infos|
      invariant ports == PortMap(infos[..i])
    {
      assert infos[..i + 1][..i] == infos[..i];
      var info := infos[i];
      if info.device != "" {
        ports := ports[info.device := Describe(info)];
      }
      i := i + 1;
    }
    assert infos[..|infos|] == infos;
  }

  /** DeviceMonitor: the latest port map. */
  class Monitor {
    var ports: map<string, string>

    constructor ()
      ensures ports == map[]
    {
      ports := map[];
    }

    /** `snapshot`: the current port map, handed out as a value the caller cannot change. */
    function Snapshot(): (snapshot: map<string, string>)
      reads this
      ensures snapshot == ports
    {
      ports
    }

    /**
     * `_run`: one poll per enumeration in `polls`; each replaces the whole
     * map, so afterwards it is the map of the last poll alone.
     */
    method Run(polls: seq<Option<seq<PortInfo>>>)
      modifies this
      ensures polls == [] ==> ports == old(ports)
      ensures polls != [] && polls[|polls| - 1].None? ==> ports == map[]
      ensures polls != [] && polls[|polls| - 1].Some? ==> ports == PortMap(polls[|polls| - 1].value)
    {
      var i := 0;
      while i < |polls|
        invariant 0 <= i <= |polls|
        invariant i == 0 ==> ports == old(ports)
        invariant i > 0 && polls[i - 1].None? ==> ports == map[]
        invariant i > 0 && polls[i - 1].Some? ==> ports == PortMap(polls[i - 1].value)
      {
        var detected := DetectPorts(polls[i]);
        ports := detected;
        i := i + 1;
      }
    }
  }
}
