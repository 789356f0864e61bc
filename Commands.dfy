/**
 * backend/commands.py: the environment given to child processes and the
 * argument vectors of the calibration and teleoperation commands.
 */
module Commands {
  import opened Wrappers
  import opened Text
  import opened Models

  const PythonPath := "PYTHONPATH"
  const CalibrateModule := "lerobot.scripts.lerobot_calibrate"
  const TeleoperateModule := "lerobot.scripts.lerobot_teleoperate"

  /**
   * `_build_env`: a copy of the environment where, when the checked-out
   * sources exist (`srcDir` is the text of `<repo root>/src`), PYTHONPATH
   * starts with that directory and keeps any previous value after `pathsep`.
   */
  function BuildEnv(environ: map<string, string>, srcDir: Option<string>, pathsep: string): (env: map<string, string>)
    ensures srcDir.None? ==> env == environ
    ensures srcDir.Some? ==> PythonPath in env && StartsWith(env[PythonPath], srcDir.value)
    ensures srcDir.Some? && PythonPath in environ && environ[PythonPath] != "" ==>
              env[PythonPath] == srcDir.value + pathsep + environ[PythonPath]
    ensures srcDir.Some? && (PythonPath !in environ || environ[PythonPath] == "") ==>
              env[PythonPath] == srcDir.value
    ensures forall k :: k != PythonPath ==> (k in env <==> k in environ)
    ensures forall k :: k in environ && k != PythonPath ==> env[k] == environ[k]
  {
    match srcDir
    case None => environ
    case Some(src) =>
      var existing := if PythonPath in environ then environ[PythonPath] else "";
      environ[PythonPath := if existing != "" then src + pathsep + existing else src]
  }

  /** The command-line flag `--<key>=<value>`. */
  function Flag(key: string, value: string): string {
    "--" + key + "=" + value
  }

  /**
   * How the child process reads one flag: after "--", the key runs up to
   * the first "=" and the value is everything after it.
   */
  function ParseFlag(arg: string): Option<(string, string)> {
    if !StartsWith(arg, "--") then None
    else
      var body := arg[2..];
      match Find(body, "=")
      case None => None
      case Some(i) => Some((body[..i], body[i + 1..]))
  }

  /** The flags of an argument vector as a key-value map; a later flag overrides an earlier one. */
  function ParseArgs(args: seq<string>): map<string, string> {
    if args == [] then map[]
    else
      var m := ParseArgs(args[..|args| - 1]);
      match ParseFlag(args[|args| - 1])
      case None => m
      case Some(kv) => m[kv.0 := kv.1]
  }

  predicate NoEquals(key: string) {
    '=' !in key
  }

  /** A flag whose key has no "=" is read back as exactly that key and value. */
  lemma ParseFlagOfFlag(key: string, value: string)
    requires NoEquals(key)
    ensures ParseFlag(Flag(key, value)) == Some((key, value))
  {
    var arg := Flag(key, value);
    var body := arg[2..];
    assert body == key + "=" + value;
    assert StartsWith(arg, "--");
    assert OccursAt(body, "=", |key|);
    var r := Find(body, "=");
    assert r.Some? && r.value <= |key|;
    forall j | 0 <= j < |key|
      ensures !OccursAt(body, "=", j)
    {
      assert body[j..j + 1] == [key[j]] && key[j] in key;
    }
    assert body[..|key|] == key;
    assert body[|key| + 1..] == value;
  }

  lemma ParseArgs3(k1: string, v1: string, k2: string, v2: string, k3: string, v3: string)
    requires NoEquals(k1) && NoEquals(k2) && NoEquals(k3)
    ensures ParseArgs([Flag(k1, v1), Flag(k2, v2), Flag(k3, v3)]) == map[k1 := v1][k2 := v2][k3 := v3]
  {
    var args := [Flag(k1, v1), Flag(k2, v2), Flag(k3, v3)];
    ParseFlagOfFlag(k1, v1);
    ParseFlagOfFlag(k2, v2);
    ParseFlagOfFlag(k3, v3);
    assert args[..1][..0] == [];
    assert ParseArgs(args[..1]) == map[k1 := v1];
    assert args[..2][..1] == args[..1];
    assert ParseArgs(args[..2]) == map[k1 := v1][k2 := v2];
    assert args[..3] == args;
  }

  /** `ParseArgs` of a concatenation: the second part's flags override the first's. */
  lemma {:induction false} ParseArgsAppend(a: seq<string>, b: seq<string>)
    ensures ParseArgs(a + b) == ParseArgs(a) + ParseArgs(b)
    decreases |b|
  {
    if b == [] {
      assert a + b == a;
    } else {
      var b' := b[..|b| - 1];
      assert (a + b)[..|a + b| - 1] == a + b';
      ParseArgsAppend(a, b');
      assert b[|b| - 1] == (a + b)[|a + b| - 1];
    }
  }

  /** The flag prefix of a calibration: "teleop" for a leader arm, "robot" for anything else. */
  function CalibrationRoleKey(role: string): (key: string)
    ensures key == "teleop" <==> role == "leader"
    ensures key == "robot" <==> role != "leader"
  {
    if role == "leader" then "teleop" else "robot"
  }

  /** `build_calibration_cmd`: run the calibrate module unbuffered with the arm's type, port and name. */
  function BuildCalibrationCmd(robot: Robot, python: string): (cmd: seq<string>)
    ensures |cmd| == 7
    ensures cmd[..4] == [python, "-u", "-m", CalibrateModule]
  {
    var k := CalibrationRoleKey(robot.role);
    [python, "-u", "-m", CalibrateModule,
     Flag(k + ".type", DeviceType(robot.model, robot.role)),
     Flag(k + ".port", robot.comPort),
     Flag(k + ".id", robot.name)]
  }

  /**
   * The calibration process reads exactly three settings: the arm's device
   * type, port and name, under the role prefix.
   */
  lemma CalibrationCmdFlags(robot: Robot, python: string)
    ensures var k := CalibrationRoleKey(robot.role);
            ParseArgs(BuildCalibrationCmd(robot, python)[4..]) ==
              map[k + ".type" := DeviceType(robot.model, robot.role),
                  k + ".port" := robot.comPort,
                  k + ".id" := robot.name]
  {
    var k := CalibrationRoleKey(robot.role);
    ParseArgs3(k + ".type", DeviceType(robot.model, robot.role), k + ".port", robot.comPort, k + ".id", robot.name);
  }

  /** The six teleoperation flags: the follower under "robot", then the leader under "teleop". */
  function TeleopArgs(leader: Robot, follower: Robot): seq<string> {
    [Flag("robot.type", DeviceType(follower.model, follower.role)),
     Flag("robot.port", follower.comPort),
     Flag("robot.id", follower.name),
     Flag("teleop.type", DeviceType(leader.model, leader.role)),
     Flag("teleop.port", leader.comPort),
     Flag("teleop.id", leader.name)]
  }

  /**
   * `build_teleop_cmd`: the console script when one resolves, else the
   * interpreter running the teleoperate module; the flags are the same either way.
   */
  function BuildTeleopCmd(leader: Robot, follower: Robot, python: string, entrypoint: Option<string>): (cmd: seq<string>)
    ensures |cmd| >= 6 && cmd[|cmd| - 6..] == TeleopArgs(leader, follower)
    ensures entrypoint.Some? ==> cmd[..|cmd| - 6] == [entrypoint.value]
    ensures entrypoint.None? ==> cmd[..|cmd| - 6] == [python, "-u", "-m", TeleoperateModule]
  {
    var args := TeleopArgs(leader, follower);
    match entrypoint
    case Some(e) => [e] + args
    case None => [python, "-u", "-m", TeleoperateModule] + args
  }

  /** The teleoperation process reads the follower's settings under "robot" and the leader's under "teleop". */
  lemma TeleopArgsFlags(leader: Robot, follower: Robot)
    ensures ParseArgs(TeleopArgs(leader, follower)) ==
              map["robot.type" := DeviceType(follower.model, follower.role),
                  "robot.port" := follower.comPort,
                  "robot.id" := follower.name] +
              map["teleop.type" := DeviceType(leader.model, leader.role),
                  "teleop.port" := leader.comPort,
                  "teleop.id" := leader.name]
  {
    var args := TeleopArgs(leader, follower);
    var fs := [Flag("robot.type", DeviceType(follower.model, follower.role)), Flag("robot.port", follower.comPort),
               Flag("robot.id", follower.name)];
    var ls := [Flag("teleop.type", DeviceType(leader.model, leader.role)), Flag("teleop.port", leader.comPort),
               Flag("teleop.id", leader.name)];
    assert args == fs + ls;
    ParseArgs3("robot.type", DeviceType(follower.model, follower.role), "robot.port", follower.comPort,
               "robot.id", follower.name);
    ParseArgs3("teleop.type", DeviceType(leader.model, leader.role), "teleop.port", leader.comPort,
               "teleop.id", leader.name);
    ParseArgsAppend(fs, ls);
  }

  /** A command as the log shows it: its words joined by single spaces. */
  function Readable(cmd: seq<string>): string {
    Join(cmd, " ")
  }

  /** What happened when `subprocess.run` was attempted. */
  datatype RunOutcome = SpawnFailed(error: string) | Completed(returnCode: int)

  /**
   * `run_calibration`: a dry run succeeds without running anything; otherwise
   * success means the interpreter was found and the command exited with 0.
   */
  function RunCalibration(robot: Robot, python: string, dryRun: bool, interpreterFound: bool, run: RunOutcome): (r: (bool, string))
    ensures r.0 <==> dryRun || (interpreterFound && run == Completed(0))
    ensures dryRun ==> r.1 == "[dry-run] " + Readable(BuildCalibrationCmd(robot, python))
    ensures !dryRun && !interpreterFound ==> r.1 == "Python interpreter not found."
    ensures !dryRun && interpreterFound && run.Completed? && run.returnCode != 0 ==>
              r.1 == "Calibration command failed with code " + IntToString(run.returnCode) + "."
    ensures !dryRun && interpreterFound && run.SpawnFailed? ==> r.1 == "Failed to start calibration: " + run.error
    ensures !dryRun && interpreterFound && run == Completed(0) ==>
              r.1 == "Executed: " + Readable(BuildCalibrationCmd(robot, python))
  {
    var readable := Readable(BuildCalibrationCmd(robot, python));
    if dryRun then (true, "[dry-run] " + readable)
    else if !interpreterFound then (false, "Python interpreter not found.")
    else match run
      case SpawnFailed(e) => (false, "Failed to start calibration: " + e)
      case Completed(code) =>
        if code == 0 then (true, "Executed: " + readable)
        else (false, "Calibration command failed with code " + IntToString(code) + ".")
  }
}
