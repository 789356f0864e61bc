/**
 * The child process a session owns, as far as the managers can observe it
 * through `subprocess.Popen`: still running, ended but not yet reaped
 * (`returncode` is still None), or reaped with its exit code.
 */
module Process {
  import opened Wrappers

  datatype Proc = Alive | Ended(code: int) | Reaped(code: int)

  /** `Popen.returncode`: known only once the process has been reaped. */
  function ReturnCode(p: Proc): (r: Option<int>)
    ensures r.Some? <==> p.Reaped?
  {
    if p.Reaped? then Some(p.code) else None
  }

  /** The process after `poll()`: an ended process is reaped, a live one is left alone. */
  function Poll(p: Proc): (q: Proc)
    ensures p.Alive? <==> q.Alive?
    ensures !p.Alive? ==> q == Reaped(p.code)
  {
    if p.Alive? then p else Reaped(p.code)
  }

  /** `poll() is not None`: the process has exited (it is reaped on the way). */
  predicate HasExited(p: Proc) {
    !p.Alive?
  }

  /** The operating system ends a live process with `code`; an ended process stays as it is. */
  function Exit(p: Proc, code: int): (q: Proc)
    ensures p.Alive? ==> q == Ended(code)
    ensures !p.Alive? ==> q == p
  {
    if p.Alive? then Ended(code) else p
  }
}
