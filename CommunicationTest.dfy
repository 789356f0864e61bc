/**
 * experiments/scripts/robot-communication/communication-test.py: the
 * interactive helper that asks for a device type, a COM port and a name and
 * runs the calibration command. Console input is the sequence of lines typed.
 */
module CommunicationTest {
  import opened Wrappers
  import opened Text
  import opened Commands
  import DeviceMonitor

  /** SUPPORTED_TYPES: the flag prefix of each supported device type. */
  const SupportedTypes: map<string, string> := map["so101_follower" := "robot", "so101_leader" := "teleop"]

  // --------------------------------------------------------------------- prompt

  /** Whether `prompt` accepts a typed line: a stripped value the validator allows, or a blank line with a default. */
  predicate PromptAccepts(line: string, default: Option<string>, valid: string -> bool) {
    var value := Strip(line);
    if value == [] then default.Some? else valid(value)
  }

  /** What `prompt` returns for an accepted line: the default for a blank line, else the stripped value. */
  function PromptValue(line: string, default: Option<string>): string {
    var value := Strip(line);
    if value == [] && default.Some? then default.value else value
  }

  /**
   * `prompt`: reads lines until one is accepted and returns its value with
   * the position of that line; None when the input ends first. A blank line
   * without a default, or a value the validator refuses, asks again. A
   * prompt without a validator passes `valid` accepting everything.
   */
  method Prompt(lines: seq<string>, default: Option<string>, valid: string -> bool)
    returns (value: Option<string>, at: nat)
    ensures value.Some? ==> at < |lines| && PromptAccepts(lines[at], default, valid)
                            && value.value == PromptValue(lines[at], default)
    ensures forall j :: 0 <= j < |lines| && (value.None? || j < at) ==> !PromptAccepts(lines[j], default, valid)
  {
    at := 0;
    while at < |lines|
      invariant at <= |lines|
      invariant forall j :: 0 <= j < at ==> !PromptAccepts(lines[j], default, valid)
    {
      var v := Strip(lines[at]);
      if v == [] {
        if default.Some? {
          return default, at;
        }
      } else if valid(v) {
        return Some(v), at;
      }
      at := at + 1;
    }
    return None, at;
  }

  /** A blank line is accepted at once when there is a default, and the default is the answer. */
  lemma PromptBlankDefault(d: string, valid: string -> bool)
    ensures PromptAccepts("", Some(d), valid) && PromptValue("", Some(d)) == d
  {
    StripOfStripped("");
  }

  // ----------------------------------------------------------- choose_from_menu

  /**
   * One typed line in `choose_from_menu`: blank picks the default option; a
   * number from 1 to the number of options picks that option; anything else
   * is taken as typed when manual values are allowed, and otherwise asks
   * again (None).
   */
  function MenuChoice(line: string, options: seq<string>, defaultIndex: nat, allowManual: bool): (r: Option<string>)
    requires defaultIndex < |options|
    ensures Strip(line) == [] ==> r == Some(options[defaultIndex])
    ensures r.None? <==> Strip(line) != [] && !allowManual
                         && !(AllDigits(Strip(line)) && 1 <= DigitsValue(Strip(line)) <= |options|)
  {
    var choice := Strip(line);
    if choice == [] then Some(options[defaultIndex])
    else if AllDigits(choice) && 1 <= DigitsValue(choice) <= |options| then Some(options[DigitsValue(choice) - 1])
    else if allowManual then Some(choice)
    else None
  }

  /** Typing the number `k + 1` picks option `k`. */
  lemma MenuNumber(options: seq<string>, defaultIndex: nat, allowManual: bool, k: nat)
    requires defaultIndex < |options| && k < |options|
    ensures MenuChoice(NatToString(k + 1), options, defaultIndex, allowManual) == Some(options[k])
  {
    var s := NatToString(k + 1);
    assert !IsSpace(s[0]) && !IsSpace(s[|s| - 1]);
    StripOfStripped(s);
  }

  /** With manual values allowed, text that is not a valid number comes back as typed (stripped). */
  lemma MenuManual(line: string, options: seq<string>, defaultIndex: nat)
    requires defaultIndex < |options| && Strip(line) != []
    requires !(AllDigits(Strip(line)) && 1 <= DigitsValue(Strip(line)) <= |options|)
    ensures MenuChoice(line, options, defaultIndex, true) == Some(Strip(line))
  {
  }

  /**
   * `choose_from_menu`: reads lines until one gives a choice and returns it;
   * None when the input ends first.
   */
  method ChooseFromMenu(options: seq<string>, defaultIndex: nat, allowManual: bool, lines: seq<string>)
    returns (choice: Option<string>, at: nat)
    requires defaultIndex < |options|
    ensures choice.Some? ==> at < |lines| && choice == MenuChoice(lines[at], options, defaultIndex, allowManual)
    ensures forall j :: 0 <= j < |lines| && (choice.None? || j < at) ==>
              MenuChoice(lines[j], options, defaultIndex, allowManual).None?
    ensures allowManual ==> (choice.Some? <==> lines != []) && at == 0
  {
    at := 0;
    while at < |lines|
      invariant at <= |lines|
      invariant forall j :: 0 <= j < at ==> MenuChoice(lines[j], options, defaultIndex, allowManual).None?
      invariant allowManual ==> at == 0
    {
      var c := Strip(lines[at]);
      if c == [] {
        return Some(options[defaultIndex]), at;
      }
      if AllDigits(c) {
        var idx := DigitsValue(c) - 1;
        if 0 <= idx < |options| {
          return Some(options[idx]), at;
        }
      }
      if allowManual {
        return Some(c), at;
      }
      at := at + 1;
    }
    return None, at;
  }

  // ------------------------------------------------------------ detect_com_ports

  /** The (device, description) pairs `detect_com_ports` lists: ports with a device, in order. */
  function PortList(infos: seq<DeviceMonitor.PortInfo>): (ports: seq<(string, string)>)
    ensures |ports| <= |infos|
    ensures forall i :: 0 <= i < |ports| ==> ports[i].0 != []
  {
    if infos == [] then []
    else
      var info := infos[|infos| - 1];
      PortList(infos[..|infos| - 1]) + (if info.device != [] then [(info.device, DeviceMonitor.Describe(info))] else [])
  }

  /**
   * `detect_com_ports`: the pairs of the enumeration `comports` (None when
   * pyserial cannot be imported, which gives no ports).
   */
  method DetectComPorts(comports: Option<seq<DeviceMonitor.PortInfo>>) returns (ports: seq<(string, string)>)
    ensures comports.None? ==> ports == []
    ensures comports.Some? ==> ports == PortList(comports.value)
  {
    if comports.None? {
      return [];
    }
    var infos := comports.value;
    ports := [];
    var i := 0;
    while i < |infos|
      invariant i <= |infos|
      invariant ports == PortList(infos[..i])
    {
      assert infos[..i + 1][..i] == infos[..i];
      var device := infos[i].device;
      var desc := DeviceMonitor.Describe(infos[i]);
      if device != [] {
        ports := ports + [(device, desc)];
      }
      i := i + 1;
    }
    assert infos[..|infos|] == infos;
  }

  /**
   * The script and the backend's port monitor agree: every listed device is
   * a key of the monitor's port map, and each key is listed.
   */
  lemma {:induction false} PortListMatchesPortMap(infos: seq<DeviceMonitor.PortInfo>)
    ensures forall i :: 0 <= i < |PortList(infos)| ==> PortList(infos)[i].0 in DeviceMonitor.PortMap(infos)
    ensures forall k :: k in DeviceMonitor.PortMap(infos) ==> exists i :: 0 <= i < |PortList(infos)| && PortList(infos)[i].0 == k
  {
    if infos != [] {
      var init := infos[..|infos| - 1];
      var info := infos[|infos| - 1];
      PortListMatchesPortMap(init);
      var ps := PortList(infos);
      var pi := PortList(init);
      assert forall i :: 0 <= i < |pi| ==> ps[i] == pi[i];
      forall k | k in DeviceMonitor.PortMap(infos)
        ensures exists i :: 0 <= i < |ps| && ps[i].0 == k
      {
        if k == info.device {
          assert ps[|ps| - 1].0 == k;
        } else {
          var i :| 0 <= i < |pi| && pi[i].0 == k;
          assert ps[i].0 == k;
        }
      }
    }
  }

  // ----------------------------------------------------------------- choose_port

  /** The menu text of a port: "dev (desc)" unless the description is empty or the device itself. */
  function MenuEntry(port: (string, string)): string {
    if port.1 != [] && port.1 != port.0 then port.0 + " (" + port.1 + ")" else port.0
  }

  /** Whether a selected text names a port: its "dev (desc)" form or its bare device. */
  predicate Names(selected: string, port: (string, string)) {
    selected == port.0 + " (" + port.1 + ")" || selected == port.0
  }

  /** A port's own menu entry names it. */
  lemma EntryNamesPort(port: (string, string))
    ensures Names(MenuEntry(port), port)
  {
  }

  /** The device of the first port the selection names, or the selection itself. */
  function MapBack(ports: seq<(string, string)>, selected: string): (r: string)
    ensures (forall i :: 0 <= i < |ports| ==> !Names(selected, ports[i])) ==> r == selected
  {
    if ports == [] then selected
    else if Names(selected, ports[0]) then ports[0].0
    else MapBack(ports[1..], selected)
  }

  /** Selecting the entry of port `i` gives back its device when no earlier port has the same name. */
  lemma {:induction false} MapBackEntry(ports: seq<(string, string)>, i: nat)
    requires i < |ports|
    requires forall j :: 0 <= j < i ==> !Names(MenuEntry(ports[i]), ports[j])
    ensures MapBack(ports, MenuEntry(ports[i])) == ports[i].0
  {
    if i == 0 {
      EntryNamesPort(ports[0]);
    } else {
      var rest := ports[1..];
      assert rest[i - 1] == ports[i];
      forall j | 0 <= j < i - 1
        ensures !Names(MenuEntry(rest[i - 1]), rest[j])
      {
        assert rest[j] == ports[j + 1];
      }
      MapBackEntry(rest, i - 1);
    }
  }

  /**
   * `choose_port`: with detected ports, a menu of their entries that also
   * takes typed text, mapped back to a device; without ports, a plain prompt
   * for a value. None when the input ends first.
   */
  method ChoosePort(ports: seq<(string, string)>, lines: seq<string>) returns (port: Option<string>)
    ensures ports != [] ==>
              (lines == [] <==> port.None?)
              && (lines != [] ==> port == Some(MapBack(ports, MenuChoice(lines[0], seq(|ports|, i requires 0 <= i < |ports| => MenuEntry(ports[i])), 0, true).value)))
    ensures ports == [] ==> (port.Some? <==> exists j :: 0 <= j < |lines| && Strip(lines[j]) != [])
    ensures ports == [] && port.Some? ==>
              exists j :: 0 <= j < |lines| && Strip(lines[j]) != [] && port.value == Strip(lines[j])
                          && forall i :: 0 <= i < j ==> Strip(lines[i]) == []
  {
    if ports != [] {
      var entries := seq(|ports|, i requires 0 <= i < |ports| => MenuEntry(ports[i]));
      var selected, at := ChooseFromMenu(entries, 0, true, lines);
      if selected.None? {
        return None;
      }
      var i := 0;
      while i < |ports|
        invariant i <= |ports|
        invariant MapBack(ports, selected.value) == MapBack(ports[i..], selected.value)
      {
        assert ports[i..][1..] == ports[i + 1..];
        if Names(selected.value, ports[i]) {
          return Some(ports[i].0);
        }
        i := i + 1;
      }
      return selected;
    }
    var value, at := Prompt(lines, None, _ => true);
    if value.Some? {
      return value;
    }
    return None;
  }

  // -------------------------------------------------------------- build_command

  /**
   * `build_command`: the calibrate module run by `python` with the type, port
   * and name under the device type's flag prefix; an unsupported type is the
   * KeyError of the lookup (None).
   */
  function BuildCommand(deviceType: string, port: string, name: string, python: string): (cmd: Option<seq<string>>)
    ensures cmd.Some? <==> deviceType in SupportedTypes
    ensures cmd.Some? ==> |cmd.value| == 6 && cmd.value[..3] == [python, "-m", CalibrateModule]
  {
    if deviceType !in SupportedTypes then None
    else
      var role := SupportedTypes[deviceType];
      Some([python, "-m", CalibrateModule,
            Flag(role + ".type", deviceType), Flag(role + ".port", port), Flag(role + ".id", name)])
  }

  /**
   * The calibration process reads the follower under "robot" and the leader
   * under "teleop", with the device type, port and name given.
   */
  lemma BuildCommandFlags(deviceType: string, port: string, name: string, python: string)
    requires deviceType in SupportedTypes
    ensures var flags := ParseArgs(BuildCommand(deviceType, port, name, python).value[3..]);
            var role := if deviceType == "so101_follower" then "robot" else "teleop";
            role + ".type" in flags && flags[role + ".type"] == deviceType
            && role + ".port" in flags && flags[role + ".port"] == port
            && role + ".id" in flags && flags[role + ".id"] == name
  {
    var role := SupportedTypes[deviceType];
    assert role == "robot" || role == "teleop";
    var cmd := BuildCommand(deviceType, port, name, python).value;
    assert cmd[3..] == [Flag(role + ".type", deviceType), Flag(role + ".port", port), Flag(role + ".id", name)];
    assert NoEquals(role + ".type") && NoEquals(role + ".port") && NoEquals(role + ".id");
    ParseArgs3(role + ".type", deviceType, role + ".port", port, role + ".id", name);
    assert (role + ".type")[|role| + 1] == 't' && (role + ".port")[|role| + 1] == 'p';
  }

  // ------------------------------------------------------------ add_repo_to_env

  /**
   * `add_repo_to_env`: when the checkout's `src` directory exists (`repoSrc`
   * is Some), a copy of the environment whose PYTHONPATH starts with it,
   * together with the checkout's root; otherwise the environment itself and None.
   */
  function AddRepoToEnv(env: map<string, string>, repoSrc: Option<string>, repoRoot: string, pathsep: string)
    : (r: (map<string, string>, Option<string>))
    ensures repoSrc.None? ==> r == (env, None)
    ensures repoSrc.Some? ==> r.1 == Some(repoRoot)
  {
    if repoSrc.None? then (env, None)
    else
      var existing := if PythonPath in env then env[PythonPath] else "";
      (env[PythonPath := if existing != [] then repoSrc.value + pathsep + existing else repoSrc.value], Some(repoRoot))
  }

  /** The script sets PYTHONPATH by the same rule as the backend's `_build_env`. */
  lemma AddRepoToEnvMatchesBuildEnv(env: map<string, string>, repoSrc: Option<string>, repoRoot: string, pathsep: string)
    ensures AddRepoToEnv(env, repoSrc, repoRoot, pathsep).0 == BuildEnv(env, repoSrc, pathsep)
  {
    if repoSrc.Some? {
      var existing := if PythonPath in env then env[PythonPath] else "";
      var v := if existing != [] then repoSrc.value + pathsep + existing else repoSrc.value;
      assert AddRepoToEnv(env, repoSrc, repoRoot, pathsep).0 == env[PythonPath := v];
      assert BuildEnv(env, repoSrc, pathsep) == env[PythonPath := v];
    }
  }
}
