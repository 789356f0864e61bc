/**
 * The request rules of backend/main.py: the dry-run switch, a robot's
 * online status, registration checks, the calibration-start error rule,
 * the teleoperation preconditions and the fleet stream's "send only when
 * changed" decision.
 */
module App {
  import opened Wrappers
  import opened Text
  import opened Models
  import opened Commands
  import opened Storage

  /** An `HTTPException`: status code and detail text. */
  datatype HttpError = HttpError(status: int, detail: string)

  /** The values of LEROBOT_DRY_RUN that, lower-cased, allow real commands. */
  const RealCommandFlags: set<string> := {"0", "false", "no"}

  /**
   * `_allow_real_commands`: when LEROBOT_DRY_RUN is set (`envFlag`), its
   * lower-cased value decides; otherwise whether `lerobot` can be imported
   * (`findSpec`: None when the lookup raised, else whether a spec was found).
   */
  function AllowRealCommands(envFlag: Option<string>, findSpec: Option<bool>): (allowed: bool)
    ensures envFlag.Some? ==> (allowed <==> Lower(envFlag.value) in RealCommandFlags)
    ensures envFlag.None? ==> (allowed <==> findSpec == Some(true))
  {
    if envFlag.Some? then Lower(envFlag.value) in RealCommandFlags
    else findSpec == Some(true)
  }

  /**
   * Setting the flag at all overrides the import check, and any value other
   * than a spelling of "0", "false" or "no" means dry-run, the empty value included.
   */
  lemma DryRunFlagCases(findSpec: Option<bool>)
    ensures !AllowRealCommands(Some(""), findSpec)
    ensures !AllowRealCommands(Some("1"), findSpec)
    ensures AllowRealCommands(Some("FALSE"), findSpec) && AllowRealCommands(Some("No"), findSpec)
    ensures !AllowRealCommands(None, None)
  {
    assert Lower("FALSE") == "false";
    assert Lower("No") == "no";
    assert Lower("1") == "1";
  }

  /** A robot is "online" exactly when its port is a key of the port snapshot. */
  function Status(comPort: string, ports: map<string, string>): (s: string)
    ensures s == "online" <==> comPort in ports
    ensures s == "offline" <==> comPort !in ports
  {
    if comPort in ports then "online" else "offline"
  }

  /** The robot `_with_status` answers with: its status set, and seen `now` when online. */
  function StatusShown(robot: Robot, ports: map<string, string>, now: string): Robot {
    robot.(status := Status(robot.comPort, ports), lastSeen := if robot.comPort in ports then Some(now) else robot.lastSeen)
  }

  /** The records after `_with_status` on the robot `id`: when it is online its first record is seen `now`. */
  function SeenIfOnline(robots: seq<Record>, id: string, online: bool, now: string): (rs: seq<Record>)
    ensures |rs| == |robots|
    ensures forall j :: 0 <= j < |rs| ==> rs[j].id == robots[j].id && rs[j].comPort == robots[j].comPort
    ensures forall j :: 0 <= j < |rs| && rs[j] != robots[j] ==>
              online && FirstIndex(robots, id) == Some(j) && rs[j] == robots[j].(lastSeen := Some(now))
  {
    match FirstIndex(robots, id)
    case Some(i) => if online then robots[i := robots[i].(lastSeen := Some(now))] else robots
    case None => robots
  }

  /** Records with the same ids, in the same order, have the same first index for every id. */
  lemma {:induction false} FirstIndexSameIds(a: seq<Record>, b: seq<Record>, id: string)
    requires |a| == |b| && forall j :: 0 <= j < |a| ==> a[j].id == b[j].id
    ensures FirstIndex(a, id) == FirstIndex(b, id)
    decreases |a|
  {
    if a != [] && a[0].id != id {
      FirstIndexSameIds(a[1..], b[1..], id);
    }
  }

  /**
   * `_with_status`: the robot with its status from the port snapshot. An
   * online robot is seen now (`now` is the ISO text of the current time) and
   * the store records it; an offline one keeps its stored `last_seen`.
   */
  method WithStatus(store: RobotStore, ports: map<string, string>, robot: Robot, now: string) returns (r: Robot)
    modifies store`robots, store`persisted
    ensures r == StatusShown(robot, ports, now)
    ensures r.status == Status(robot.comPort, ports)
    ensures r.lastSeen == if robot.comPort in ports then Some(now) else robot.lastSeen
    ensures store.robots == SeenIfOnline(old(store.robots), robot.id, robot.comPort in ports, now)
    ensures robot.comPort !in ports ==> store.robots == old(store.robots) && store.persisted == old(store.persisted)
    ensures robot.comPort in ports && FirstIndex(old(store.robots), robot.id).None? ==>
              store.robots == old(store.robots) && store.persisted == old(store.persisted)
    ensures robot.comPort in ports && FirstIndex(old(store.robots), robot.id).Some? ==>
              var i := FirstIndex(old(store.robots), robot.id).value;
              store.robots == old(store.robots)[i := old(store.robots)[i].(lastSeen := Some(now))]
              && store.persisted == Some(store.robots)
  {
    var status := Status(robot.comPort, ports);
    var lastSeen := robot.lastSeen;
    if status == "online" {
      lastSeen := Some(now);
      store.MarkSeen(robot.id, now);
    }
    r := robot.(status := status, lastSeen := lastSeen);
  }

  /** `_validate_model_role`: an unknown model, then an unlisted role, is a 400. */
  function ValidateModelRole(payload: RobotCreate): (r: Result<(), HttpError>)
    ensures r.Ok? <==> RoleSupported(payload.model, payload.role)
    ensures payload.model !in SupportedModels ==> r == Err(HttpError(400, "Unsupported model: " + payload.model))
    ensures payload.model in SupportedModels && !RoleSupported(payload.model, payload.role) ==>
              r == Err(HttpError(400, "Unsupported role: " + payload.role))
  {
    if payload.model !in SupportedModels then Err(HttpError(400, "Unsupported model: " + payload.model))
    else if payload.role !in SupportedModels[payload.model].roles then Err(HttpError(400, "Unsupported role: " + payload.role))
    else Ok(())
  }

  /** The lower-cased names of the stored robots. */
  function ExistingNames(robots: seq<Record>): set<string> {
    set i | 0 <= i < |robots| :: Lower(robots[i].name)
  }

  /** Whether `name` clashes with a stored name, ignoring case. */
  predicate NameTaken(robots: seq<Record>, name: string) {
    Lower(name) in ExistingNames(robots)
  }

  /** The clash check is exactly "some stored name equals `name` ignoring case". */
  lemma NameTakenIff(robots: seq<Record>, name: string)
    ensures NameTaken(robots, name) <==> exists i :: 0 <= i < |robots| && Lower(robots[i].name) == Lower(name)
  {
  }

  /** Lower-casing undoes upper-casing, character by character. */
  lemma LowerOfUpper(s: string)
    ensures Lower(Upper(s)) == Lower(s)
  {
    assert forall i :: 0 <= i < |s| ==> LowerChar(UpperChar(s[i])) == LowerChar(s[i]);
  }

  /** The clash check does not depend on the case the name is written in. */
  lemma NameTakenIgnoresCase(robots: seq<Record>, name: string)
    ensures NameTaken(robots, Upper(name)) == NameTaken(robots, name)
    ensures NameTaken(robots, Lower(name)) == NameTaken(robots, name)
  {
    LowerOfUpper(name);
    LowerIdempotent(name);
  }

  /** A record just appended makes its name taken, in any case. */
  lemma AddedNameTaken(robots: seq<Record>, rec: Record)
    ensures NameTaken(robots + [rec], rec.name)
    ensures NameTaken(robots + [rec], Upper(rec.name))
  {
    var rs := robots + [rec];
    assert Lower(rs[|robots|].name) in ExistingNames(rs);
    NameTakenIgnoresCase(rs, rec.name);
  }

  /** Recording when a robot was last seen changes no name. */
  lemma SeenKeepsNames(robots: seq<Record>, i: nat, now: string)
    requires i < |robots|
    ensures ExistingNames(robots[i := robots[i].(lastSeen := Some(now))]) == ExistingNames(robots)
  {
    var seen := robots[i := robots[i].(lastSeen := Some(now))];
    assert forall j :: 0 <= j < |robots| ==> seen[j].name == robots[j].name;
  }

  /** The record a new robot is stored as: `add`'s record, seen now when its port is online. */
  function Registered(payload: RobotCreate, newId: string, ports: map<string, string>, now: string): Record {
    NewRecord(payload, newId).(lastSeen := if payload.comPort in ports then Some(now) else None)
  }

  /** The robot `create_robot` answers with: the new record shown with its status. */
  function Shown(isIso: string -> bool, payload: RobotCreate, newId: string, ports: map<string, string>, now: string): Robot {
    ToRobot(NewRecord(payload, newId), isIso).(status := Status(payload.comPort, ports),
                                               lastSeen := if payload.comPort in ports then Some(now) else None)
  }

  /**
   * `create_robot`: validate model and role, refuse a name already taken
   * (ignoring case), then store the robot under `newId` and return it with
   * its status. A refused request leaves the store as it was. `newId` stands
   * for the `uuid4` the store draws, which no stored record carries.
   */
  method CreateRobot(store: RobotStore, payload: RobotCreate, newId: string, ports: map<string, string>, now: string)
    returns (r: Result<Robot, HttpError>)
    requires FirstIndex(store.robots, newId).None?
    modifies store`robots, store`persisted
    ensures ValidateModelRole(payload).Err? ==>
              r == Err(ValidateModelRole(payload).error)
              && store.robots == old(store.robots) && store.persisted == old(store.persisted)
    ensures ValidateModelRole(payload).Ok? && NameTaken(old(store.robots), payload.name) ==>
              r == Err(HttpError(400, "A robot with that name already exists."))
              && store.robots == old(store.robots) && store.persisted == old(store.persisted)
    ensures ValidateModelRole(payload).Ok? && !NameTaken(old(store.robots), payload.name) ==>
              r.Ok? && r.value.id == newId && r.value.name == payload.name
              && r.value.status == Status(payload.comPort, ports)
              && |store.robots| == |old(store.robots)| + 1
              && store.robots[..|old(store.robots)|] == old(store.robots)
              && NameTaken(store.robots, payload.name)
    ensures ValidateModelRole(payload).Ok? && !NameTaken(old(store.robots), payload.name) ==>
              store.robots == old(store.robots) + [Registered(payload, newId, ports, now)]
              && store.persisted == Some(store.robots)
              && r.value == Shown(store.isIso, payload, newId, ports, now)
  {
    var valid := ValidateModelRole(payload);
    if valid.Err? {
      return Err(valid.error);
    }
    var existing := set i | 0 <= i < |store.robots| :: Lower(store.robots[i].name);
    if Lower(payload.name) in existing {
      return Err(HttpError(400, "A robot with that name already exists."));
    }
    var shown := Register(store, payload, newId, ports, now);
    return Ok(shown);
  }

  /** The accepting end of `create_robot`: store the new record, then show it with its status. */
  method Register(store: RobotStore, payload: RobotCreate, newId: string, ports: map<string, string>, now: string)
    returns (shown: Robot)
    requires FirstIndex(store.robots, newId).None?
    modifies store`robots, store`persisted
    ensures shown.id == newId && shown.name == payload.name && shown.status == Status(payload.comPort, ports)
    ensures |store.robots| == |old(store.robots)| + 1 && store.robots[..|old(store.robots)|] == old(store.robots)
    ensures NameTaken(store.robots, payload.name)
    ensures store.robots == old(store.robots) + [Registered(payload, newId, ports, now)]
    ensures store.persisted == Some(store.robots)
    ensures shown == Shown(store.isIso, payload, newId, ports, now)
  {
    var robot := store.Add(payload, newId);
    AddedNameTaken(old(store.robots), NewRecord(payload, newId));
    ghost var added := store.robots;
    assert added[..|old(store.robots)|] == old(store.robots);
    assert added[|old(store.robots)|].id == newId;
    assert FirstIndex(added, newId) == Some(|old(store.robots)|);
    shown := WithStatus(store, ports, robot, now);
    SeenKeepsNames(added, |old(store.robots)|, now);
  }

  /**
   * The `start_calibration` error rule: a 500 only for a real start that is
   * not running and has a return code other than 0 or None; its detail is the
   * last log line, or a default when there is none.
   */
  function StartCalibrationError(dryRun: bool, running: bool, returnCode: Option<int>, logs: seq<string>)
    : (r: Option<HttpError>)
    ensures r.Some? <==> !dryRun && !running && returnCode.Some? && returnCode.value != 0
    ensures r.Some? && logs != [] ==> r.value == HttpError(500, logs[|logs| - 1])
    ensures r.Some? && logs == [] ==> r.value == HttpError(500, "Failed to start calibration.")
  {
    if !dryRun && !running && returnCode.Some? && returnCode.value != 0 then
      Some(HttpError(500, if logs != [] then logs[|logs| - 1] else "Failed to start calibration."))
    else None
  }

  /**
   * Against the sessions the calibration manager starts: a dry run and a
   * running process are answered normally, and a failed spawn is a 500 whose
   * detail is the logged spawn error.
   */
  lemma StartCalibrationOutcomes(readable: string, spawnError: string)
    ensures StartCalibrationError(true, false, Some(0), ["[dry-run] " + readable]).None?
    ensures StartCalibrationError(false, true, None, []).None?
    ensures StartCalibrationError(false, false, Some(-1), ["Failed to start calibration: " + spawnError])
            == Some(HttpError(500, "Failed to start calibration: " + spawnError))
  {
  }

  /** `_require_robot`: a missing robot is a 404. */
  function RequireRobot(robot: Option<Robot>): (r: Result<Robot, HttpError>)
    ensures r.Ok? <==> robot.Some?
    ensures robot.Some? ==> r.value == robot.value
    ensures robot.None? ==> r.error == HttpError(404, "Robot not found")
  {
    if robot.Some? then Ok(robot.value) else Err(HttpError(404, "Robot not found"))
  }

  /**
   * The checks `start_teleop` makes, in order, before it launches anything:
   * both robots exist (leader first), share a model, the follower and then
   * the leader are calibrated, and the arms have the follower and leader roles.
   */
  function TeleopPrecheck(leader: Option<Robot>, follower: Option<Robot>): (r: Result<(Robot, Robot), HttpError>)
    ensures r.Ok? <==> leader.Some? && follower.Some?
                       && leader.value.model == follower.value.model
                       && follower.value.hasCalibration && leader.value.hasCalibration
                       && follower.value.role == "follower" && leader.value.role == "leader"
    ensures r.Ok? ==> r.value == (leader.value, follower.value)
    ensures leader.None? || follower.None? ==> r == Err(HttpError(404, "Robot not found"))
    ensures leader.Some? && follower.Some? && leader.value.model != follower.value.model ==>
              r == Err(HttpError(400, "Leader and follower must be the same model."))
    ensures leader.Some? && follower.Some? && leader.value.model == follower.value.model
            && !follower.value.hasCalibration ==>
              r == Err(HttpError(400, "Follower needs calibration first."))
    ensures leader.Some? && follower.Some? && leader.value.model == follower.value.model
            && follower.value.hasCalibration && !leader.value.hasCalibration ==>
              r == Err(HttpError(400, "Leader needs calibration first."))
    ensures leader.Some? && follower.Some? && leader.value.model == follower.value.model
            && follower.value.hasCalibration && leader.value.hasCalibration && follower.value.role != "follower" ==>
              r == Err(HttpError(400, "Select a follower arm to control."))
    ensures leader.Some? && follower.Some? && leader.value.model == follower.value.model
            && follower.value.hasCalibration && leader.value.hasCalibration && follower.value.role == "follower"
            && leader.value.role != "leader" ==>
              r == Err(HttpError(400, "Teleop must start from a leader arm."))
  {
    match RequireRobot(leader)
    case Err(e) => Err(e)
    case Ok(l) =>
      match RequireRobot(follower)
      case Err(e) => Err(e)
      case Ok(f) =>
        if l.model != f.model then Err(HttpError(400, "Leader and follower must be the same model."))
        else if !f.hasCalibration then Err(HttpError(400, "Follower needs calibration first."))
        else if !l.hasCalibration then Err(HttpError(400, "Leader needs calibration first."))
        else if f.role != "follower" then Err(HttpError(400, "Select a follower arm to control."))
        else if l.role != "leader" then Err(HttpError(400, "Teleop must start from a leader arm."))
        else Ok((l, f))
  }

  /**
   * `start_teleop` up to the launch: the leader, then the follower, is looked
   * up (a 404 when missing) and shown with its status, which marks an online
   * robot seen in the store before any check can refuse the request; the
   * checks of `TeleopPrecheck` then run on the shown copies.
   */
  method StartTeleop(store: RobotStore, ports: map<string, string>, leaderId: string, followerId: string, now: string)
    returns (r: Result<(Robot, Robot), HttpError>)
    modifies store`robots, store`persisted
    ensures FirstIndex(old(store.robots), leaderId).None? ==>
              r == Err(HttpError(404, "Robot not found"))
              && store.robots == old(store.robots) && store.persisted == old(store.persisted)
    ensures FirstIndex(old(store.robots), leaderId).Some? && FirstIndex(old(store.robots), followerId).None? ==>
              var leader := ToRobot(old(store.robots)[FirstIndex(old(store.robots), leaderId).value], store.isIso);
              r == Err(HttpError(404, "Robot not found"))
              && store.robots == SeenIfOnline(old(store.robots), leaderId, leader.comPort in ports, now)
              && store.persisted == if leader.comPort in ports then Some(store.robots) else old(store.persisted)
    ensures FirstIndex(old(store.robots), leaderId).Some? && FirstIndex(old(store.robots), followerId).Some? ==>
              var leader := ToRobot(old(store.robots)[FirstIndex(old(store.robots), leaderId).value], store.isIso);
              var follower := ToRobot(old(store.robots)[FirstIndex(old(store.robots), followerId).value], store.isIso);
              r == TeleopPrecheck(Some(StatusShown(leader, ports, now)), Some(StatusShown(follower, ports, now)))
              && store.robots == SeenIfOnline(SeenIfOnline(old(store.robots), leaderId, leader.comPort in ports, now),
                                              followerId, follower.comPort in ports, now)
              && store.persisted == if leader.comPort in ports || follower.comPort in ports then Some(store.robots)
                                    else old(store.persisted)
  {
    var l := store.Get(leaderId);
    if l.None? {
      return Err(HttpError(404, "Robot not found"));
    }
    var leader := WithStatus(store, ports, l.value, now);
    ghost var marked := store.robots;
    FirstIndexSameIds(marked, old(store.robots), followerId);
    var f := store.Get(followerId);
    if f.None? {
      return Err(HttpError(404, "Robot not found"));
    }
    ghost var fi := FirstIndex(old(store.robots), followerId).value;
    assert f.value == ToRobot(marked[fi], store.isIso);
    assert marked[fi] != old(store.robots)[fi] ==> marked[fi].comPort in ports;
    var follower := WithStatus(store, ports, f.value, now);
    assert follower == StatusShown(ToRobot(old(store.robots)[fi], store.isIso), ports, now);
    r := TeleopPrecheck(Some(leader), Some(follower));
  }

  /**
   * A pair that passes the checks is launched with the follower driven as
   * "<model>_follower" under "robot" and the leader read as "<model>_leader"
   * under "teleop", both of the same model.
   */
  lemma PrecheckedTeleopTypes(leader: Robot, follower: Robot)
    requires TeleopPrecheck(Some(leader), Some(follower)).Ok?
    ensures var flags := ParseArgs(TeleopArgs(leader, follower));
            "robot.type" in flags && flags["robot.type"] == follower.model + "_" + "follower"
            && "teleop.type" in flags && flags["teleop.type"] == follower.model + "_" + "leader"
  {
    TeleopArgsFlags(leader, follower);
    DeviceTypeIsModelRole(follower.model, "follower");
    DeviceTypeIsModelRole(follower.model, "leader");
  }

  /**
   * What the fleet stream sends for the successive serialized payloads it
   * computes: a payload is sent when it differs from the previous one, which
   * is always the last one sent.
   */
  function Collapse(frames: seq<string>): (sent: seq<string>)
    ensures |sent| <= |frames|
    ensures frames != [] ==> sent != [] && sent[0] == frames[0] && sent[|sent| - 1] == frames[|frames| - 1]
    ensures forall i :: 0 <= i < |sent| - 1 ==> sent[i] != sent[i + 1]
    ensures forall x :: x in sent ==> x in frames
  {
    if frames == [] then []
    else
      var prev := frames[..|frames| - 1];
      var rest := Collapse(prev);
      assert forall x :: x in prev ==> x in frames;
      if |frames| >= 2 && frames[|frames| - 1] == frames[|frames| - 2] then rest
      else rest + [frames[|frames| - 1]]
  }

  /** A stream whose payload never changes sends it once. */
  lemma {:induction false} CollapseConstant(frames: seq<string>, x: string)
    requires frames != [] && forall i :: 0 <= i < |frames| ==> frames[i] == x
    ensures Collapse(frames) == [x]
  {
    if |frames| >= 2 {
      CollapseConstant(frames[..|frames| - 1], x);
    }
  }

  /** Every change between two successive payloads is sent. */
  lemma {:induction false} CollapseSendsChanges(frames: seq<string>)
    ensures |Collapse(frames)| == (if frames == [] then 0 else 1 + Changes(frames))
  {
    if |frames| >= 2 {
      CollapseSendsChanges(frames[..|frames| - 1]);
    }
  }

  /** The number of positions where a payload differs from the one before it. */
  function Changes(frames: seq<string>): nat {
    if |frames| < 2 then 0
    else Changes(frames[..|frames| - 1]) + (if frames[|frames| - 1] != frames[|frames| - 2] then 1 else 0)
  }

  /**
   * `robots_stream`: one tick per serialized payload; a payload is sent only
   * when it differs from `last_payload`, which then becomes it.
   */
  method FleetStream(frames: seq<string>) returns (sent: seq<string>)
    ensures sent == Collapse(frames)
  {
    var last: Option<string> := None;
    sent := [];
    var i := 0;
    while i < |frames|
      invariant 0 <= i <= |frames|
      invariant sent == Collapse(frames[..i])
      invariant i == 0 <==> last.None?
      invariant i > 0 ==> last == Some(frames[i - 1])
    {
      var serialized := frames[i];
      assert frames[..i + 1][..i] == frames[..i];
      if last != Some(serialized) {
        sent := sent + [serialized];
        last := Some(serialized);
      }
      i := i + 1;
    }
    assert frames[..|frames|] == frames;
  }
}
