/**
 * backend/teleop_manager.py: teleoperation sessions, at most one of them
 * active. A session owns at most one child process and a log of at most
 * 600 lines; stopping escalates from an interrupt to terminate to kill.
 *
 * As for calibration, the reader and watcher threads appear as steps
 * (`ReadLine`/`ConsumeOutput`, `Watch`) and the operating system ending the
 * child as `ProcessEnds`.
 */
module TeleopManager {
  import opened Wrappers
  import opened Text
  import opened Models
  import opened Commands
  import opened Process
  import BoundedLog

  /** The bound of a teleoperation session's log deque. */
  const MaxLogLines: nat := 600

  /** The characters the reader removes from the end of each line. */
  const LineEnd: set<char> := {'\r', '\n'}

  /** What `subprocess.Popen` did: raised `error`, or started a process with id `pid`. */
  datatype Spawn = SpawnFails(error: string) | Spawned(pid: int)

  /**
   * How a live process ends once `stop` has asked it to: within the wait after
   * the interrupt, within the wait after terminate, or not at all, so that it
   * is killed and never waited for.
   */
  datatype StopOutcome = ExitsAfterInterrupt(code: int) | ExitsAfterTerminate(code: int) | Killed(code: int)

  /** The process once `stop` is done with it. */
  function AfterStop(outcome: StopOutcome): (p: Proc)
    ensures !p.Alive?
    ensures p.code == outcome.code
  {
    match outcome
    case ExitsAfterInterrupt(c) => Reaped(c)
    case ExitsAfterTerminate(c) => Reaped(c)
    case Killed(c) => Ended(c)
  }

  /** The "[panel] …" lines `stop` logs while escalating. */
  function StopLog(interruptDelivered: bool, outcome: StopOutcome): seq<string> {
    ["[panel] stop requested"]
    + (if interruptDelivered then ["[panel] interrupt signal sent"] else [])
    + (if outcome.ExitsAfterInterrupt? then [] else ["[panel] terminate sent"])
    + (if outcome.Killed? then ["[panel] kill sent"] else [])
  }

  /** How Python formats an optional return code in a message. */
  function CodeText(code: Option<int>): (t: string)
    ensures code.None? <==> t == "None"
  {
    match code
    case None => "None"
    case Some(c) => IntToString(c)
  }

  /**
   * The escalation is logged step by step: terminate is logged exactly when
   * the process outlived the first wait, kill exactly when it outlived the
   * second, and the reported code is "None" exactly when it had to be killed.
   */
  lemma StopEscalation(interruptDelivered: bool, outcome: StopOutcome)
    ensures StopLog(interruptDelivered, outcome)[0] == "[panel] stop requested"
    ensures "[panel] terminate sent" in StopLog(interruptDelivered, outcome) <==> !outcome.ExitsAfterInterrupt?
    ensures "[panel] kill sent" in StopLog(interruptDelivered, outcome) <==> outcome.Killed?
    ensures "[panel] interrupt signal sent" in StopLog(interruptDelivered, outcome) <==> interruptDelivered
    ensures CodeText(ReturnCode(AfterStop(outcome))) == "None" <==> outcome.Killed?
    ensures !outcome.Killed? ==> ReturnCode(AfterStop(outcome)) == Some(outcome.code)
  {
    var log := StopLog(interruptDelivered, outcome);
    assert "[panel] stop requested" != "[panel] terminate sent";
    assert "[panel] stop requested" != "[panel] kill sent";
    assert "[panel] interrupt signal sent" != "[panel] terminate sent";
    assert "[panel] interrupt signal sent" != "[panel] kill sent";
    assert "[panel] terminate sent" != "[panel] kill sent";
    assert "[panel] stop requested" != "[panel] interrupt signal sent";
    var c := ReturnCode(AfterStop(outcome));
    if c.Some? {
      assert IntToString(c.value) != "None" by {
        var t := IntToString(c.value);
        assert t[0] == '-' || IsDigit(t[0]);
      }
    }
  }

  /** TeleopSessionState: one teleoperation run. */
  class TeleopSession {
    const id: string
    const leaderId: string
    const followerId: string
    const dryRun: bool
    const cmd: seq<string>
    const readableCmd: string
    var logs: seq<string>
    var process: Option<Proc>
    var running: bool
    var returnCode: Option<int>
    /** Whether the watcher thread has seen the process end. */
    var watcherDone: bool

    /**
     * The log respects its bound, a session reported running owns a process
     * nobody has reaped yet, and a dry-run session never has a process.
     */
    ghost predicate Valid()
      reads this
    {
      |logs| <= MaxLogLines
      && (running ==> process.Some? && !process.value.Reaped?)
      && (dryRun ==> process.None? && !running)
    }

    constructor (id: string, leaderId: string, followerId: string, dryRun: bool, cmd: seq<string>, readableCmd: string)
      ensures Valid()
      ensures this.id == id && this.leaderId == leaderId && this.followerId == followerId && this.dryRun == dryRun
      ensures this.cmd == cmd && this.readableCmd == readableCmd
      ensures logs == [] && process.None? && !running && returnCode.None? && !watcherDone
    {
      this.id := id;
      this.leaderId := leaderId;
      this.followerId := followerId;
      this.dryRun := dryRun;
      this.cmd := cmd;
      this.readableCmd := readableCmd;
      logs := [];
      process := None;
      running := false;
      returnCode := None;
      watcherDone := false;
    }

    /** `logs.append(line)`: the deque drops its oldest line when it is full. */
    method Log(line: string)
      requires Valid()
      modifies this`logs
      ensures Valid()
      ensures logs == BoundedLog.Append(old(logs), line, MaxLogLines)
    {
      logs := BoundedLog.Append(logs, line, MaxLogLines);
    }

    /** The reader thread receives one line: it is logged without trailing CR/LF, unless that leaves it empty. */
    method ReadLine(line: string)
      requires Valid()
      modifies this`logs
      ensures Valid()
      ensures var clean := RStripChars(line, LineEnd);
              logs == if process.Some? && clean != "" then BoundedLog.Append(old(logs), clean, MaxLogLines)
                      else old(logs)
    {
      if process.None? {
        return;
      }
      var clean := RStripChars(line, LineEnd);
      if clean != "" {
        Log(clean);
      }
    }

    /** The reader thread over lines that arrive one after another. */
    method ReadLines(lines: seq<string>)
      requires Valid()
      modifies this`logs
      ensures Valid()
      ensures process.None? ==> logs == old(logs)
      ensures process.Some? ==> logs == BoundedLog.Last(old(logs) + BoundedLog.Cleaned(lines, LineEnd), MaxLogLines)
    {
      if process.None? {
        return;
      }
      var i := 0;
      assert lines[..0] == [] && old(logs) + [] == old(logs);
      while i < |lines|
        invariant 0 <= i <= |lines|
        invariant Valid()
        invariant logs == BoundedLog.Last(old(logs) + BoundedLog.Cleaned(lines[..i], LineEnd), MaxLogLines)
      {
        ghost var before := logs;
        ReadLine(lines[i]);
        BoundedLog.ReadStep(old(logs), lines, i, LineEnd, MaxLogLines, before, logs);
        i := i + 1;
      }
      assert lines[..|lines|] == lines;
    }

    /**
     * `_consume_output`: the reader thread over a stream of lines that ends
     * normally or, when `error` is given, by raising; the error is then logged.
     */
    method ConsumeOutput(lines: seq<string>, error: Option<string>)
      requires Valid()
      modifies this`logs
      ensures Valid()
      ensures process.None? ==> logs == old(logs)
      ensures process.Some? ==>
                logs == BoundedLog.Last(old(logs) + BoundedLog.Cleaned(lines, LineEnd)
                                        + (if error.Some? then [ReaderStoppedLine(error.value)] else []),
                                        MaxLogLines)
    {
      if process.None? {
        return;
      }
      ReadLines(lines);
      var read := old(logs) + BoundedLog.Cleaned(lines, LineEnd);
      if error.Some? {
        var m := ReaderStoppedLine(error.value);
        BoundedLog.LastOfLast(read, [m], MaxLogLines);
        Log(m);
      } else {
        assert read + [] == read;
      }
    }

    /**
     * What the watcher records once the process has ended: it is reaped, its
     * code is kept, the session stops running and the exit is logged.
     */
    method RecordExit()
      requires Valid() && process.Some? && !process.value.Alive?
      modifies this`process, this`returnCode, this`running, this`logs, this`watcherDone
      ensures Valid()
      ensures var code := old(process).value.code;
              process == Some(Reaped(code)) && returnCode == Some(code) && !running && watcherDone
              && logs == BoundedLog.Append(old(logs), ExitLine(code), MaxLogLines)
    {
      var code := process.value.code;
      process := Some(Reaped(code));
      returnCode := Some(code);
      running := false;
      watcherDone := true;
      Log(ExitLine(code));
    }

    /**
     * The session side of `stop`: a dry run only stops running; a session
     * whose process is missing or has exited keeps its log and records the
     * code; a live process is asked to stop, escalating as `outcome` says,
     * and each step is logged.
     */
    method Halt(interruptDelivered: bool, outcome: StopOutcome)
      requires Valid()
      modifies this`running, this`process, this`returnCode, this`logs
      ensures Valid() && !running
      ensures dryRun ==> logs == old(logs) && process == old(process) && returnCode == old(returnCode)
      ensures !dryRun && (old(process).None? || !old(process).value.Alive?) ==>
                logs == old(logs)
                && process == (if old(process).Some? then Some(Poll(old(process).value)) else None)
                && returnCode == (if old(process).Some? then Some(old(process).value.code) else old(returnCode))
      ensures !dryRun && old(process).Some? && old(process).value.Alive? ==>
                process == Some(AfterStop(outcome)) && returnCode == ReturnCode(AfterStop(outcome))
                && logs == BoundedLog.Last(old(logs) + StopLog(interruptDelivered, outcome), MaxLogLines)
    {
      if dryRun {
        running := false;
        return;
      }
      if process.None? || HasExited(process.value) {
        running := false;
        if process.Some? {
          var p := Poll(process.value);
          process := Some(p);
          returnCode := ReturnCode(p);
        }
        return;
      }
      var p := AfterStop(outcome);
      logs := BoundedLog.Last(logs + StopLog(interruptDelivered, outcome), MaxLogLines);
      process := Some(p);
      running := false;
      returnCode := ReturnCode(p);
    }

    /** The operating system ends the child process with `code` (it is not reaped yet). */
    method ProcessEnds(code: int)
      requires Valid()
      modifies this`process
      ensures Valid()
      ensures process == if old(process).Some? then Some(Exit(old(process).value, code)) else None
    {
      if process.Some? {
        process := Some(Exit(process.value, code));
      }
    }
  }

  // What the manager answers and logs.

  const DryRunAccepted := "Dry-run teleop accepted."
  const DryRunLogged := "[dry-run] Teleop request accepted (no process started)."
  const AlreadyRunning := "Teleop already running."
  const OtherRunning := "Another teleop session is already running. Stop it first."
  const NoActive := "No active teleop session."
  const Mismatch := "Active teleop session does not match the requested leader/follower."
  const DryRunStopped := "Dry-run teleop stopped."
  const AlreadyStopped := "Teleop already stopped."

  function StartingLine(readable: string): string { "Starting: " + readable }
  function SpawnFailedLine(error: string): string { "Failed to start teleop: " + error }
  function StartedLine(pid: int): string { "Teleop process started (pid=" + IntToString(pid) + ")." }
  function StartedMsg(pid: int): string { "Teleop started (pid=" + IntToString(pid) + ")." }
  function StoppedMsg(code: Option<int>): string { "Stopped teleop (code=" + CodeText(code) + ")." }
  function ReaderStoppedLine(error: string): string { "[panel] output reader stopped: " + error }
  function ExitLine(code: int): string { "Teleop exited (code=" + IntToString(code) + ")." }

  /** What `start` leaves in a session it creates for command `cmd`, and what it answers. */
  ghost predicate Launched(s: TeleopSession, ok: bool, msg: string, cmd: seq<string>, leaderId: string, followerId: string,
                           dryRun: bool, sessionId: string, spawn: Spawn)
    reads s
  {
    s.id == sessionId && s.leaderId == leaderId && s.followerId == followerId && s.dryRun == dryRun
    && s.cmd == cmd && s.readableCmd == Readable(cmd)
    && |s.logs| == 2 && s.logs[0] == StartingLine(Readable(cmd)) && !s.watcherDone
    && (dryRun ==>
          ok && msg == DryRunAccepted
          && s.logs[1] == DryRunLogged
          && s.returnCode == Some(0) && !s.running && s.process.None?)
    && (!dryRun && spawn.SpawnFails? ==>
          !ok && msg == spawn.error && s.logs[1] == SpawnFailedLine(spawn.error)
          && s.returnCode == Some(-1) && !s.running && s.process.None?)
    && (!dryRun && spawn.Spawned? ==>
          ok && msg == StartedMsg(spawn.pid)
          && s.logs[1] == StartedLine(spawn.pid)
          && s.running && s.process == Some(Alive) && s.returnCode.None?)
  }

  /**
   * The part of `start` after the guard and after `cmd` is built: a fresh
   * session logging "Starting: <cmd>", then the dry run or the spawn and its
   * outcome.
   */
  method Launch(cmd: seq<string>, leaderId: string, followerId: string, dryRun: bool, sessionId: string, spawn: Spawn)
    returns (ok: bool, msg: string, s: TeleopSession)
    ensures fresh(s) && s.Valid()
    ensures Launched(s, ok, msg, cmd, leaderId, followerId, dryRun, sessionId, spawn)
  {
    var readable := Readable(cmd);
    s := new TeleopSession(sessionId, leaderId, followerId, dryRun, cmd, readable);
    s.Log(StartingLine(readable));
    if dryRun {
      s.Log(DryRunLogged);
      s.returnCode := Some(0);
      s.running := false;
      return true, DryRunAccepted, s;
    }
    match spawn
    case SpawnFails(e) =>
      s.Log(SpawnFailedLine(e));
      s.returnCode := Some(-1);
      s.running := false;
      return false, e, s;
    case Spawned(pid) =>
      s.process := Some(Alive);
      s.running := true;
      s.Log(StartedLine(pid));
      return true, StartedMsg(pid), s;
  }

  /** TeleopManager: the registry of sessions by id and the id of the active one. */
  class TeleopManager {
    var sessions: map<string, TeleopSession>
    var activeId: Option<string>

    /** Every session is filed under its own id, and the active id names a registered session. */
    ghost predicate Valid()
      reads this, sessions.Values
    {
      (forall k :: k in sessions ==> sessions[k].id == k && sessions[k].Valid())
      && (activeId.Some? ==> activeId.value in sessions)
    }

    constructor ()
      ensures Valid() && sessions == map[] && activeId.None?
    {
      sessions := map[];
      activeId := None;
    }

    /** `active`: the session the active id names; an empty id counts as none, as it is falsy. */
    function Active(): (r: Option<TeleopSession>)
      reads this, sessions.Values
      requires Valid()
      ensures r.Some? <==> activeId.Some? && activeId.value != ""
      ensures r.Some? ==> r.value == sessions[activeId.value] && r.value.id == activeId.value
    {
      if activeId.None? || activeId.value == "" then None else Some(sessions[activeId.value])
    }

    /** Whether a new start is refused or answered by the running active session. */
    predicate Busy()
      reads this, sessions.Values
      requires Valid()
    {
      Active().Some? && Active().value.running
    }

    /** `_store` followed by making the stored session the active one. */
    method Store(s: TeleopSession)
      requires Valid() && s.Valid()
      modifies this
      ensures Valid()
      ensures sessions == old(sessions)[s.id := s] && activeId == Some(s.id)
    {
      sessions := sessions[s.id := s];
      activeId := Some(s.id);
    }

    /**
     * `start`: while the active session runs, the same leader/follower pair
     * gets that session back and any other pair is refused, with nothing
     * changed. Otherwise a fresh session `sessionId` logging "Starting: <cmd>"
     * is stored and made active before the dry run or the spawn.
     */
    method Start(leader: Robot, follower: Robot, dryRun: bool, sessionId: string, python: string,
                 entrypoint: Option<string>, spawn: Spawn)
      returns (ok: bool, msg: string, s: TeleopSession)
      requires Valid()
      modifies this
      ensures Valid()
      ensures old(Busy()) ==>
                s == old(Active()).value && sessions == old(sessions) && activeId == old(activeId)
                && (ok <==> s.leaderId == leader.id && s.followerId == follower.id)
                && msg == (if ok then AlreadyRunning else OtherRunning)
      ensures !old(Busy()) ==>
                fresh(s) && sessions == old(sessions)[sessionId := s] && activeId == Some(sessionId)
                && Launched(s, ok, msg, BuildTeleopCmd(leader, follower, python, entrypoint), leader.id, follower.id,
                            dryRun, sessionId, spawn)
    {
      var current := Active();
      if current.Some? && current.value.running {
        s := current.value;
        if s.leaderId == leader.id && s.followerId == follower.id {
          return true, AlreadyRunning, s;
        }
        return false, OtherRunning, s;
      }
      var cmd := BuildTeleopCmd(leader, follower, python, entrypoint);
      ok, msg, s := Launch(cmd, leader.id, follower.id, dryRun, sessionId, spawn);
      Store(s);
    }

    /**
     * `_watch_process`: once the process of `s` has ended, the watcher reaps
     * it, records its code, marks the session stopped, logs the exit, and
     * clears the active id only if it still names `s`.
     */
    method Watch(s: TeleopSession)
      requires Valid() && s.Valid()
      modifies this`activeId, s
      ensures Valid() && s.Valid()
      ensures old(s.process).None? || old(s.process).value.Alive? || old(s.watcherDone) ==>
                unchanged(s) && activeId == old(activeId)
      ensures old(s.process).Some? && !old(s.process).value.Alive? && !old(s.watcherDone) ==>
                var code := old(s.process).value.code;
                s.process == Some(Reaped(code)) && s.returnCode == Some(code) && !s.running && s.watcherDone
                && s.logs == BoundedLog.Append(old(s.logs), ExitLine(code), MaxLogLines)
                && activeId == (if old(activeId) == Some(s.id) then None else old(activeId))
    {
      if s.process.None? || s.process.value.Alive? || s.watcherDone {
        return;
      }
      s.RecordExit();
      if activeId == Some(s.id) {
        activeId := None;
      }
      forall k | k in sessions
        ensures sessions[k].Valid()
      {
        if sessions[k] != s {
          assert unchanged(sessions[k]);
        }
      }
    }

    /**
     * `stop`: refuses when there is no active session or it belongs to another
     * leader/follower pair, changing nothing. Otherwise the session ends up
     * not running and is no longer active: a dry run at once, a session whose
     * process is missing or has exited with its code recorded, and a live
     * process after the escalation `interruptDelivered`/`outcome` describe.
     */
    method Stop(leaderId: string, followerId: string, interruptDelivered: bool, outcome: StopOutcome)
      returns (ok: bool, msg: string, s: Option<TeleopSession>)
      requires Valid()
      modifies this`activeId, if activeId.Some? && activeId.value in sessions then {sessions[activeId.value]} else {}
      ensures Valid()
      ensures s == old(Active())
      ensures s.None? ==> !ok && msg == NoActive && activeId == old(activeId)
      ensures s.Some? && (s.value.leaderId != leaderId || s.value.followerId != followerId) ==>
                !ok && msg == Mismatch
                && unchanged(s.value) && activeId == old(activeId)
      ensures s.Some? && s.value.leaderId == leaderId && s.value.followerId == followerId ==>
                var t := s.value;
                ok && !t.running && activeId.None? && t.watcherDone == old(t.watcherDone)
                && (t.dryRun ==>
                      msg == DryRunStopped && t.logs == old(t.logs)
                      && t.process == old(t.process) && t.returnCode == old(t.returnCode))
                && (!t.dryRun && (old(t.process).None? || !old(t.process).value.Alive?) ==>
                      msg == AlreadyStopped && t.logs == old(t.logs)
                      && t.process == (if old(t.process).Some? then Some(Poll(old(t.process).value)) else None)
                      && t.returnCode == (if old(t.process).Some? then Some(old(t.process).value.code) else old(t.returnCode)))
                && (!t.dryRun && old(t.process).Some? && old(t.process).value.Alive? ==>
                      t.process == Some(AfterStop(outcome))
                      && t.returnCode == ReturnCode(AfterStop(outcome))
                      && t.logs == BoundedLog.Last(old(t.logs) + StopLog(interruptDelivered, outcome), MaxLogLines)
                      && msg == StoppedMsg(t.returnCode))
    {
      s := Active();
      if s.None? {
        return false, NoActive, s;
      }
      var t := s.value;
      if t.leaderId != leaderId || t.followerId != followerId {
        return false, Mismatch, s;
      }
      var live := !t.dryRun && t.process.Some? && !HasExited(t.process.value);
      t.Halt(interruptDelivered, outcome);
      if activeId == Some(t.id) {
        activeId := None;
      }
      forall k | k in sessions
        ensures sessions[k].Valid()
      {
        if sessions[k] != t {
          assert unchanged(sessions[k]);
        }
      }
      ok := true;
      msg := if t.dryRun then DryRunStopped else if !live then AlreadyStopped else StoppedMsg(t.returnCode);
    }
  }

  /**
   * After a stop that matched the active session, a new start passes the
   * guard: it creates and activates a fresh session, whatever pair it names.
   */
  method StopThenStart(m: TeleopManager, leader: Robot, follower: Robot, interruptDelivered: bool,
                       outcome: StopOutcome, sessionId: string, python: string, spawn: Spawn)
    returns (stopped: bool, started: TeleopSession)
    requires m.Valid() && m.Active().Some?
    requires m.Active().value.leaderId == leader.id && m.Active().value.followerId == follower.id
    modifies m, m.sessions.Values
    ensures stopped
    ensures fresh(started) && m.activeId == Some(sessionId) && sessionId in m.sessions && m.sessions[sessionId] == started
  {
    var msg, s;
    stopped, msg, s := m.Stop(leader.id, follower.id, interruptDelivered, outcome);
    var ok;
    ok, msg, started := m.Start(leader, follower, false, sessionId, python, None, spawn);
  }
}
