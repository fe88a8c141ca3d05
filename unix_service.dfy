/**
 * Stopping a service process on Unix: send TERM to the process (or to its
 * whole process group when it leads one), wait up to eight seconds for it
 * to go away, then send KILL.
 *
 * The process-group lookup, the results of sending signals, the
 * liveness probes and the clock are inputs: `alive(k)` and `nowAt(k)` are
 * what the k-th pass of the polling loop observes.
 */
module UnixService {
  /** How a process ended up stopped; the Windows side uses it too. */
  datatype ShutdownMethod = AlreadyExited | GracefulTermination | Killed

  datatype Signal = TERM | KILL

  /** The grace period, in milliseconds. */
  const GraceMillis: int := 8000

  datatype Process = Process(pid: int)

  /** A process-group leader is signalled through its negated pid, which reaches the whole group. */
  function Target(pid: int, pgid: int): (t: int)
    ensures pid == pgid ==> t == -pid
    ensures pid != pgid ==> t == pid
  {
    if pid == pgid then -pid else pid
  }

  /**
   * The polling loop from pass `i` on: the outcome, and whether KILL was
   * sent. The loop ends at the latest on pass `bound`, where the deadline
   * has passed.
   */
  function Poll(alive: nat -> bool, nowAt: nat -> int, stop: int, killOk: bool, i: nat, bound: nat): (ShutdownMethod, bool)
    requires i <= bound && nowAt(bound) >= stop
    decreases bound - i
  {
    if !alive(i) then (GracefulTermination, false)
    else if nowAt(i) < stop then Poll(alive, nowAt, stop, killOk, i + 1, bound)
    else (if killOk then Killed else GracefulTermination, true)
  }

  /** The whole of `kill`: its outcome and the signals it sent, in order. */
  function KillOutcome(pid: int, pgid: int, termOk: bool, alive: nat -> bool, nowAt: nat -> int, start: int,
                       killOk: bool, bound: nat): (ShutdownMethod, seq<(int, Signal)>)
    requires nowAt(bound) >= start + GraceMillis
  {
    var t := Target(pid, pgid);
    if !termOk then (AlreadyExited, [(t, TERM)])
    else
      var (m, killSent) := Poll(alive, nowAt, start + GraceMillis, killOk, 0, bound);
      (m, [(t, TERM)] + if killSent then [(t, KILL)] else [])
  }

  /**
   * KILL is sent only on a pass that still sees the process alive and
   * finds the deadline reached, after every earlier pass saw it alive
   * before the deadline; a pass that sees the process gone ends the loop
   * gracefully.
   */
  lemma {:induction false} PollRule(alive: nat -> bool, nowAt: nat -> int, stop: int, killOk: bool, i: nat, bound: nat)
    requires i <= bound && nowAt(bound) >= stop
    ensures !alive(i) ==> Poll(alive, nowAt, stop, killOk, i, bound) == (GracefulTermination, false)
    ensures Poll(alive, nowAt, stop, killOk, i, bound).1 ==>
      exists n: nat :: i <= n <= bound && alive(n) && nowAt(n) >= stop && forall j: nat :: i <= j < n ==> alive(j) && nowAt(j) < stop
    ensures Poll(alive, nowAt, stop, killOk, i, bound).0 == Killed <==> Poll(alive, nowAt, stop, killOk, i, bound).1 && killOk
    ensures Poll(alive, nowAt, stop, killOk, i, bound).0 != AlreadyExited
    decreases bound - i
  {
    if alive(i) && nowAt(i) < stop {
      PollRule(alive, nowAt, stop, killOk, i + 1, bound);
      if Poll(alive, nowAt, stop, killOk, i, bound).1 {
        var n: nat :| i + 1 <= n <= bound && alive(n) && nowAt(n) >= stop && forall j: nat :: i + 1 <= j < n ==> alive(j) && nowAt(j) < stop;
        assert forall j: nat :: i <= j < n ==> alive(j) && nowAt(j) < stop;
      }
    } else if alive(i) {
      assert forall j: nat :: i <= j < i ==> alive(j) && nowAt(j) < stop;
    }
  }

  /**
   * The outcome rules of `kill`: a TERM that cannot be sent means the
   * process is taken to have exited, and nothing else is sent; otherwise
   * KILL follows TERM only past the deadline, and the result is Killed
   * exactly when that KILL went through.
   */
  lemma KillRule(pid: int, pgid: int, termOk: bool, alive: nat -> bool, nowAt: nat -> int, start: int, killOk: bool, bound: nat)
    requires nowAt(bound) >= start + GraceMillis
    ensures var sent := KillOutcome(pid, pgid, termOk, alive, nowAt, start, killOk, bound).1;
      |sent| >= 1 && sent[0] == (Target(pid, pgid), TERM)
    ensures !termOk ==> KillOutcome(pid, pgid, termOk, alive, nowAt, start, killOk, bound) == (AlreadyExited, [(Target(pid, pgid), TERM)])
    ensures termOk ==> KillOutcome(pid, pgid, termOk, alive, nowAt, start, killOk, bound).0 != AlreadyExited
    ensures termOk && !alive(0) ==> KillOutcome(pid, pgid, termOk, alive, nowAt, start, killOk, bound) == (GracefulTermination, [(Target(pid, pgid), TERM)])
    ensures KillOutcome(pid, pgid, termOk, alive, nowAt, start, killOk, bound).0 == Killed <==>
      termOk && killOk && |KillOutcome(pid, pgid, termOk, alive, nowAt, start, killOk, bound).1| == 2
    ensures var sent := KillOutcome(pid, pgid, termOk, alive, nowAt, start, killOk, bound).1;
      |sent| == 2 ==> (sent[1] == (Target(pid, pgid), KILL) &&
        exists n: nat :: n <= bound && alive(n) && nowAt(n) >= start + GraceMillis &&
          forall j: nat :: j < n ==> alive(j) && nowAt(j) < start + GraceMillis)
  {
    var stop := start + GraceMillis;
    PollRule(alive, nowAt, stop, killOk, 0, bound);
    var t := Target(pid, pgid);
    if termOk {
      var (m, killSent) := Poll(alive, nowAt, stop, killOk, 0, bound);
      if killSent {
        assert KillOutcome(pid, pgid, termOk, alive, nowAt, start, killOk, bound).1 == [(t, TERM), (t, KILL)];
      } else {
        assert KillOutcome(pid, pgid, termOk, alive, nowAt, start, killOk, bound).1 == [(t, TERM)];
      }
    }
  }

  /**
   * `Process::kill`, with its loop: `pgid` is what `getpgid` answers,
   * `termOk` and `killOk` whether the two signals could be sent.
   */
  method Kill(p: Process, pgid: int, termOk: bool, alive: nat -> bool, nowAt: nat -> int, start: int, killOk: bool, bound: nat)
    returns (r: ShutdownMethod, sent: seq<(int, Signal)>)
    requires nowAt(bound) >= start + GraceMillis
    ensures (r, sent) == KillOutcome(p.pid, pgid, termOk, alive, nowAt, start, killOk, bound)
  {
    var pidToKill := p.pid;
    if p.pid == pgid {
      pidToKill := -p.pid;
    }
    sent := [(pidToKill, TERM)];
    if !termOk {
      return AlreadyExited, sent;
    }
    var stopTime := start + GraceMillis;
    var i: nat := 0;
    while true
      invariant i <= bound
      invariant Poll(alive, nowAt, stopTime, killOk, 0, bound) == Poll(alive, nowAt, stopTime, killOk, i, bound)
      decreases bound - i
    {
      if !alive(i) {
        assert sent + [] == sent;
        return GracefulTermination, sent;
      }
      if nowAt(i) < stopTime {
        i := i + 1;
        continue;
      }
      sent := sent + [(pidToKill, KILL)];
      if killOk {
        return Killed, sent;
      } else {
        return GracefulTermination, sent;
      }
    }
  }
}
