/**
 * backend/calibration_manager.py: calibration sessions, each owning at most
 * one child process, a log fed by a reader thread, and an enter-flag file
 * that asks the calibration script to stop recording.
 *
 * The two threads a start launches (the output reader and the exit watcher)
 * appear here as steps a scheduler may take at any time: `ReadLine` for one
 * line of output, `ProcessEnds` for the operating system ending the child,
 * and `Watch` for the watcher observing that end.
 */
module CalibrationManager {
  import opened Wrappers
  import opened Models
  import opened Commands
  import opened Process
  import BoundedLog
  import Text

  /** The bound of a calibration session's log deque. */
  const MaxLogLines: nat := 400

  /** The characters the reader removes from the end of each line. */
  const LineEnd: set<char> := {'\n'}

  const NotFound := "Session not found."
  const DryRunRefusal := "Dry-run session does not accept input."
  const NotRunning := "Calibration process is not running."

  /**
   * Why `send_enter` and `send_stop` refuse a session they found, checked in
   * the source's order; None when its process is live and may be written to.
   */
  function InputRefusal(dryRun: bool, process: Option<Proc>): (r: Option<string>)
    ensures r.None? <==> !dryRun && process.Some? && process.value.Alive?
    ensures dryRun ==> r == Some(DryRunRefusal)
    ensures !dryRun && r.Some? ==> r == Some(NotRunning)
  {
    if dryRun then Some(DryRunRefusal)
    else if process.None? || HasExited(process.value) then Some(NotRunning)
    else None
  }

  /** How a live process ends once `cancel` terminates it. */
  datatype CancelOutcome =
    | ExitsInTime(code: int)  // it exits within the one-second wait and is reaped
    | Killed(code: int)       // the wait times out; it is killed and never waited for

  /**
   * The process after `cancel`: a live one is terminated as `outcome` says;
   * one that had already ended is reaped by the `poll()`.
   */
  function AfterCancel(p: Proc, outcome: CancelOutcome): (q: Proc)
    ensures !q.Alive?
    ensures !p.Alive? ==> q == Reaped(p.code)
  {
    if !p.Alive? then Reaped(p.code)
    else match outcome
      case ExitsInTime(c) => Reaped(c)
      case Killed(c) => Ended(c)
  }

  /**
   * The return code `cancel` records is missing exactly when it had to kill
   * a live process: `kill()` is not followed by a wait, so `returncode` stays None.
   */
  lemma CancelReturnCode(p: Proc, outcome: CancelOutcome)
    ensures ReturnCode(AfterCancel(p, outcome)).None? <==> p.Alive? && outcome.Killed?
    ensures !p.Alive? ==> ReturnCode(AfterCancel(p, outcome)) == Some(p.code)
  {
  }

  /** CalibrationSessionState: one calibration run and what is known about it. */
  class CalibrationSession {
    const id: string
    const robotId: string
    const dryRun: bool
    var logs: seq<string>
    var process: Option<Proc>
    var running: bool
    var returnCode: Option<int>
    /** Whether the enter-flag file exists on disk. */
    var flagExists: bool
    /** Everything written to the process's standard input so far. */
    var stdin: string
    /** Whether the watcher thread has seen the process end. */
    var watcherDone: bool

    /**
     * The log respects its bound, a session reported running owns a process
     * nobody has reaped yet, and a dry-run session never has a process.
     */
    ghost predicate Valid()
      reads this
    {
      |logs| <= MaxLogLines
      && (running ==> process.Some? && !process.value.Reaped?)
      && (dryRun ==> process.None? && !running)
    }

    /** A session as the dataclass defaults create it: no process, not running, empty log. */
    constructor (id: string, robotId: string, dryRun: bool)
      ensures Valid()
      ensures this.id == id && this.robotId == robotId && this.dryRun == dryRun
      ensures logs == [] && process.None? && !running && returnCode.None?
      ensures !flagExists && stdin == "" && !watcherDone
    {
      this.id := id;
      this.robotId := robotId;
      this.dryRun := dryRun;
      logs := [];
      process := None;
      running := false;
      returnCode := None;
      flagExists := false;
      stdin := "";
      watcherDone := false;
    }

    /** The reader thread receives one line: it is logged without its "\n", unless that leaves it empty. */
    method ReadLine(line: string)
      requires Valid()
      modifies this`logs
      ensures Valid()
      ensures var clean := Text.RStripChars(line, LineEnd);
              logs == if process.Some? && clean != "" then BoundedLog.Append(old(logs), clean, MaxLogLines)
                      else old(logs)
    {
      if process.None? {
        return;
      }
      var clean := Text.RStripChars(line, LineEnd);
      if clean != "" {
        logs := BoundedLog.Append(logs, clean, MaxLogLines);
      }
    }

    /**
     * `_consume_output`: the reader thread over a whole stream of lines. The
     * log ends as the last 400 of its old lines followed by the cleaned new ones.
     */
    method ConsumeOutput(lines: seq<string>)
      requires Valid()
      modifies this`logs
      ensures Valid()
      ensures process.None? ==> logs == old(logs)
      ensures process.Some? ==>
                logs == BoundedLog.Last(old(logs) + BoundedLog.Cleaned(lines, LineEnd), MaxLogLines)
    {
      if process.None? {
        return;
      }
      var i := 0;
      assert lines[..0] == [] && old(logs) + [] == old(logs);
      while i < |lines|
        invariant 0 <= i <= |lines|
        invariant Valid()
        invariant logs == BoundedLog.Last(old(logs) + BoundedLog.Cleaned(lines[..i], LineEnd), MaxLogLines)
      {
        ghost var before := logs;
        ReadLine(lines[i]);
        BoundedLog.ReadStep(old(logs), lines, i, LineEnd, MaxLogLines, before, logs);
        i := i + 1;
      }
      assert lines[..|lines|] == lines;
    }

    /** The operating system ends the child process with `code` (it is not reaped yet). */
    method ProcessEnds(code: int)
      requires Valid()
      modifies this`process
      ensures Valid()
      ensures process == if old(process).Some? then Some(Exit(old(process).value, code)) else None
    {
      if process.Some? {
        process := Some(Exit(process.value, code));
      }
    }

    /**
     * `_watch_process`: once the process has ended, the watcher reaps it,
     * records its exit code, marks the session stopped and removes the
     * enter flag. Before that (or without a process) nothing changes.
     */
    method Watch()
      requires Valid()
      modifies this`process, this`returnCode, this`running, this`flagExists, this`watcherDone
      ensures Valid()
      ensures old(process).None? || old(process).value.Alive? || old(watcherDone) ==> unchanged(this)
      ensures old(process).Some? && !old(process).value.Alive? && !old(watcherDone) ==>
                process == Some(Reaped(old(process).value.code))
                && returnCode == Some(old(process).value.code)
                && !running && !flagExists && watcherDone
    {
      if process.None? || process.value.Alive? || watcherDone {
        return;
      }
      var code := process.value.code;
      process := Some(Reaped(code));
      returnCode := Some(code);
      running := false;
      flagExists := false;
      watcherDone := true;
    }
  }

  /** CalibrationManager: the registry of sessions by id; nothing ever removes an entry. */
  class CalibrationManager {
    var sessions: map<string, CalibrationSession>

    ghost predicate Valid()
      reads this, sessions.Values
    {
      forall k :: k in sessions ==> sessions[k].id == k && sessions[k].Valid()
    }

    constructor ()
      ensures Valid() && sessions == map[]
    {
      sessions := map[];
    }

    /** `get`: the session stored under `id`, if any. */
    function Get(id: string): (r: Option<CalibrationSession>)
      reads this
      ensures r.Some? <==> id in sessions
      ensures r.Some? ==> r.value == sessions[id]
    {
      if id in sessions then Some(sessions[id]) else None
    }

    /**
     * `start`: builds a session under the fresh id `sessionId` and stores it
     * whatever happens next. A dry run logs the command and reports code 0; a
     * spawn that raises `spawnError` logs it and reports code -1; otherwise
     * the session owns a live process and is running.
     */
    method Start(robot: Robot, dryRun: bool, sessionId: string, python: string, spawnError: Option<string>)
      returns (s: CalibrationSession)
      requires Valid()
      modifies this
      ensures Valid() && fresh(s)
      ensures sessions == old(sessions)[sessionId := s]
      ensures Get(sessionId) == Some(s)
      ensures s.id == sessionId && s.robotId == robot.id && s.dryRun == dryRun
      ensures s.stdin == "" && !s.flagExists && !s.watcherDone
      ensures dryRun ==>
                s.logs == ["[dry-run] " + Readable(BuildCalibrationCmd(robot, python))]
                && s.returnCode == Some(0) && s.process.None? && !s.running
      ensures !dryRun && spawnError.Some? ==>
                s.logs == ["Failed to start calibration: " + spawnError.value]
                && s.returnCode == Some(-1) && s.process.None? && !s.running
      ensures !dryRun && spawnError.None? ==>
                s.logs == [] && s.process == Some(Alive) && s.running && s.returnCode.None?
    {
      var cmd := BuildCalibrationCmd(robot, python);
      s := new CalibrationSession(sessionId, robot.id, dryRun);
      if dryRun {
        s.logs := ["[dry-run] " + Readable(cmd)];
        s.returnCode := Some(0);
      } else if spawnError.Some? {
        s.logs := ["Failed to start calibration: " + spawnError.value];
        s.returnCode := Some(-1);
      } else {
        s.process := Some(Alive);
        s.running := true;
      }
      sessions := sessions[sessionId := s];
    }

    /**
     * The common guard of `send_enter` and `send_stop`. It refuses a dry-run
     * session, then one whose process is missing or has exited; in the second
     * case the `poll()` reaps the process and the session is marked stopped.
     */
    method CheckAccepting(s: CalibrationSession) returns (refusal: Option<string>)
      requires s.Valid()
      modifies s`running, s`process
      ensures s.Valid()
      ensures refusal == InputRefusal(s.dryRun, old(s.process))
      ensures refusal == Some(NotRunning) ==>
                !s.running && s.process == (if old(s.process).Some? then Some(Poll(old(s.process).value)) else None)
      ensures refusal != Some(NotRunning) ==> s.running == old(s.running) && s.process == old(s.process)
    {
      if s.dryRun {
        return Some(DryRunRefusal);
      }
      if s.process.None? {
        s.running := false;
        return Some(NotRunning);
      }
      var polled := Poll(s.process.value);
      s.process := Some(polled);
      if HasExited(polled) {
        s.running := false;
        return Some(NotRunning);
      }
      return None;
    }

    /**
     * `send_enter`: writes one "\n" to a live calibration process; `writeError`
     * is the exception the write raises, if any.
     */
    method SendEnter(id: string, writeError: Option<string>) returns (ok: bool, msg: string)
      requires Valid()
      modifies if id in sessions then {sessions[id]} else {}
      ensures Valid()
      ensures id !in sessions ==> !ok && msg == NotFound
      ensures id in sessions ==>
                var s := sessions[id];
                var refusal := InputRefusal(s.dryRun, old(s.process));
                (refusal.Some? ==> !ok && msg == refusal.value && s.stdin == old(s.stdin))
                && (refusal == Some(NotRunning) ==> !s.running)
                && (refusal.None? && writeError.Some? ==>
                      !ok && msg == "Failed to send input: " + writeError.value && s.stdin == old(s.stdin))
                && (refusal.None? && writeError.None? ==> ok && msg == "ENTER sent." && s.stdin == old(s.stdin) + "\n")
                && (refusal != Some(NotRunning) ==> s.running == old(s.running) && s.process == old(s.process))
                && s.logs == old(s.logs) && s.returnCode == old(s.returnCode)
                && s.flagExists == old(s.flagExists) && s.watcherDone == old(s.watcherDone)
    {
      if id !in sessions {
        return false, NotFound;
      }
      var s := sessions[id];
      var refusal := CheckAccepting(s);
      if refusal.Some? {
        return false, refusal.value;
      }
      if writeError.Some? {
        return false, "Failed to send input: " + writeError.value;
      }
      s.stdin := s.stdin + "\n";
      return true, "ENTER sent.";
    }

    /**
     * `send_stop`: like `send_enter`, but first creates the enter-flag file.
     * `touchError` is the exception creating the file raises (nothing is then
     * written), `writeError` the one the write raises.
     */
    method SendStop(id: string, touchError: Option<string>, writeError: Option<string>) returns (ok: bool, msg: string)
      requires Valid()
      modifies if id in sessions then {sessions[id]} else {}
      ensures Valid()
      ensures id !in sessions ==> !ok && msg == NotFound
      ensures id in sessions ==>
                var s := sessions[id];
                var refusal := InputRefusal(s.dryRun, old(s.process));
                (refusal.Some? ==> !ok && msg == refusal.value && s.stdin == old(s.stdin)
                                   && s.flagExists == old(s.flagExists))
                && (refusal == Some(NotRunning) ==> !s.running)
                && (refusal.None? && touchError.Some? ==>
                      !ok && msg == "Failed to send input: " + touchError.value
                      && s.stdin == old(s.stdin) && s.flagExists == old(s.flagExists))
                && (refusal.None? && touchError.None? ==> s.flagExists)
                && (refusal.None? && touchError.None? && writeError.Some? ==>
                      !ok && msg == "Failed to send input: " + writeError.value && s.stdin == old(s.stdin))
                && (refusal.None? && touchError.None? && writeError.None? ==>
                      ok && msg == "Stop ENTER sent." && s.stdin == old(s.stdin) + "\n")
                && (refusal != Some(NotRunning) ==> s.running == old(s.running) && s.process == old(s.process))
                && s.logs == old(s.logs) && s.returnCode == old(s.returnCode) && s.watcherDone == old(s.watcherDone)
    {
      if id !in sessions {
        return false, NotFound;
      }
      var s := sessions[id];
      var refusal := CheckAccepting(s);
      if refusal.Some? {
        return false, refusal.value;
      }
      if touchError.Some? {
        return false, "Failed to send input: " + touchError.value;
      }
      s.flagExists := true;
      if writeError.Some? {
        return false, "Failed to send input: " + writeError.value;
      }
      s.stdin := s.stdin + "\n";
      return true, "Stop ENTER sent.";
    }

    /**
     * `cancel`: a dry-run session is reported closed untouched; a session
     * without a process cannot be cancelled; otherwise a still-live process
     * is terminated (ending as `outcome` says), the session is marked stopped
     * with the process's return code, and the enter flag is removed. The
     * session stays registered.
     */
    method Cancel(id: string, outcome: CancelOutcome) returns (ok: bool, msg: string)
      requires Valid()
      modifies if id in sessions then {sessions[id]} else {}
      ensures Valid()
      ensures id !in sessions ==> !ok && msg == NotFound
      ensures id in sessions ==>
                var s := sessions[id];
                if s.dryRun then ok && msg == "Dry-run session closed." && unchanged(s)
                else if old(s.process).None? then !ok && msg == "No process to cancel." && unchanged(s)
                else
                  ok && msg == "Calibration cancelled."
                  && s.process == Some(AfterCancel(old(s.process).value, outcome))
                  && s.returnCode == ReturnCode(s.process.value)
                  && !s.running && !s.flagExists
                  && s.logs == old(s.logs) && s.stdin == old(s.stdin) && s.watcherDone == old(s.watcherDone)
    {
      if id !in sessions {
        return false, NotFound;
      }
      var s := sessions[id];
      if s.dryRun {
        return true, "Dry-run session closed.";
      }
      if s.process.None? {
        return false, "No process to cancel.";
      }
      var p := AfterCancel(s.process.value, outcome);
      s.process := Some(p);
      s.running := false;
      s.returnCode := ReturnCode(p);
      s.flagExists := false;
      return true, "Calibration cancelled.";
    }
  }

  /**
   * Cancelling a session that was cancelled before succeeds again: the entry
   * is still registered and its process has ended, so nothing is terminated.
   * The second `poll()` reaps a process the first cancel had to kill, so the
   * return code is known afterwards.
   */
  method CancelTwice(m: CalibrationManager, id: string, first: CancelOutcome, second: CancelOutcome)
    returns (ok1: bool, ok2: bool)
    requires m.Valid()
    requires id in m.sessions && m.sessions[id].process.Some?
    modifies m.sessions[id]
    ensures ok1 && ok2
    ensures !m.sessions[id].running && m.sessions[id].returnCode.Some?
  {
    var msg;
    ok1, msg := m.Cancel(id, first);
    assert m.sessions[id].process.Some? && !m.sessions[id].process.value.Alive?;
    ok2, msg := m.Cancel(id, second);
  }
}
