/**
 * Stopping a service process on Windows: send a console ctrl-break, wait
 * up to eight seconds for the process to exit, and otherwise terminate it
 * together with every process it started, children first.
 *
 * The process snapshot, the handles `handle_from_pid` can resolve, the
 * exit codes each status query reads, whether ctrl-break could be sent,
 * and the clock are inputs: `firstCode` is the exit code the first
 * status query reads, and `exitAt(k)` and `nowAt(k)` are the exit code and
 * the time on the k-th pass of the waiting loop.
 */
module WindowsService {
  import Wrappers
  import U = UnixService
  type Option<T> = Wrappers.Option<T>

  /** The exit code Windows reports for a process that is still running. */
  const ProcessActive: int := 259

  /** The grace period, in milliseconds. */
  const GraceMillis: int := 8000

  /** One process of a toolhelp snapshot. */
  datatype ProcEntry = ProcEntry(pid: int, parent: int)

  /**
   * A snapshot that could not be taken, or the entries it enumerates in
   * order (none when even the first entry cannot be read).
   */
  datatype Snapshot = InvalidHandle | Taken(entries: seq<ProcEntry>)

  type ProcessTable = map<int, seq<int>>

  /** The table after recording one more entry under its parent. */
  function AddEntry(t: ProcessTable, e: ProcEntry): ProcessTable
  {
    t[e.parent := (if e.parent in t then t[e.parent] else []) + [e.pid]]
  }

  /** The table built from entries recorded in order. */
  function TableOf(es: seq<ProcEntry>): ProcessTable
  {
    if es == [] then map[] else AddEntry(TableOf(es[..|es| - 1]), es[|es| - 1])
  }

  /** The pids of the entries whose parent is `p`, in enumeration order. */
  function ChildrenOf(es: seq<ProcEntry>, p: int): seq<int>
  {
    if es == [] then []
    else ChildrenOf(es[..|es| - 1], p) + (if es[|es| - 1].parent == p then [es[|es| - 1].pid] else [])
  }

  /**
   * The table maps each parent pid to exactly its children, in
   * enumeration order, and has no other keys.
   */
  lemma {:induction false} TableOfRule(es: seq<ProcEntry>, p: int)
    ensures p in TableOf(es) <==> ChildrenOf(es, p) != []
    ensures p in TableOf(es) ==> TableOf(es)[p] == ChildrenOf(es, p)
  {
    if es != [] {
      TableOfRule(es[..|es| - 1], p);
    }
  }

  /** Every enumerated pid is listed as a child of its parent. */
  lemma {:induction false} EntryListed(es: seq<ProcEntry>, i: nat)
    requires i < |es|
    ensures es[i].parent in TableOf(es) && es[i].pid in TableOf(es)[es[i].parent]
  {
    TableOfRule(es, es[i].parent);
    ChildrenContain(es, i);
  }

  lemma {:induction false} ChildrenContain(es: seq<ProcEntry>, i: nat)
    requires i < |es|
    ensures es[i].pid in ChildrenOf(es, es[i].parent)
  {
    if i < |es| - 1 {
      ChildrenContain(es[..|es| - 1], i);
    }
  }

  /** `build_proc_table`: an invalid snapshot gives an empty table. */
  method BuildProcTable(snap: Snapshot) returns (table: ProcessTable)
    ensures snap.InvalidHandle? ==> table == map[]
    ensures snap.Taken? ==> table == TableOf(snap.entries)
  {
    if snap.InvalidHandle? {
      return map[];
    }
    var entries := snap.entries;
    table := map[];
    var i := 0;
    while i < |entries|
      invariant 0 <= i <= |entries|
      invariant table == TableOf(entries[..i])
    {
      assert entries[..i + 1][..i] == entries[..i];
      var children := if entries[i].parent in table then table[entries[i].parent] else [];
      table := table[entries[i].parent := children + [entries[i].pid]];
      i := i + 1;
    }
    assert entries[..i] == entries;
  }

  function TableFromSnapshot(snap: Snapshot): ProcessTable
  {
    if snap.InvalidHandle? then map[] else TableOf(snap.entries)
  }

  /**
   * The pids `terminate_process_descendants` terminates, in order: first
   * each child's whole subtree, child by child, then `pid` itself when a
   * handle to it can be had. `fuel` bounds the depth of the descent.
   */
  function Visit(t: ProcessTable, pid: int, handle: int -> bool, fuel: nat): seq<int>
    decreases fuel, 0
  {
    (if fuel > 0 && pid in t then VisitAll(t, t[pid], handle, fuel - 1) else [])
    + (if handle(pid) then [pid] else [])
  }

  function VisitAll(t: ProcessTable, kids: seq<int>, handle: int -> bool, fuel: nat): seq<int>
    decreases fuel, 1, |kids|
  {
    if kids == [] then []
    else VisitAll(t, kids[..|kids| - 1], handle, fuel) + Visit(t, kids[|kids| - 1], handle, fuel)
  }

  /** `sub` occurs in `whole` as one block starting at `a`. */
  ghost predicate OccursAt(whole: seq<int>, sub: seq<int>, a: nat)
  {
    a + |sub| <= |whole| && whole[a..a + |sub|] == sub
  }

  ghost predicate Occurs(whole: seq<int>, sub: seq<int>)
  {
    exists a: nat :: OccursAt(whole, sub, a)
  }

  /** Each child's subtree occurs, as one block, among its siblings' terminations. */
  lemma {:induction false} VisitAllHasBlock(t: ProcessTable, kids: seq<int>, handle: int -> bool, fuel: nat, k: nat)
    requires k < |kids|
    ensures Occurs(VisitAll(t, kids, handle, fuel), Visit(t, kids[k], handle, fuel))
    decreases |kids|
  {
    var front := kids[..|kids| - 1];
    var left := VisitAll(t, front, handle, fuel);
    var right := Visit(t, kids[|kids| - 1], handle, fuel);
    assert VisitAll(t, kids, handle, fuel) == left + right;
    if k == |kids| - 1 {
      OccursAsSuffix(left, right);
    } else {
      assert front[k] == kids[k];
      VisitAllHasBlock(t, front, handle, fuel, k);
      OccursInPrefix(left, right, Visit(t, kids[k], handle, fuel));
    }
  }

  lemma OccursAsSuffix(left: seq<int>, right: seq<int>)
    ensures Occurs(left + right, right)
  {
    assert (left + right)[|left|..|left| + |right|] == right;
    assert OccursAt(left + right, right, |left|);
  }

  lemma OccursInPrefix(left: seq<int>, right: seq<int>, sub: seq<int>)
    requires Occurs(left, sub)
    ensures Occurs(left + right, sub)
  {
    var a: nat :| OccursAt(left, sub, a);
    assert (left + right)[a..a + |sub|] == left[a..a + |sub|];
    assert OccursAt(left + right, sub, a);
  }

  /**
   * Post-order: every child's whole subtree is terminated before the
   * process itself, which, when it has a handle, is the last one
   * terminated.
   */
  lemma ChildrenBeforeParent(t: ProcessTable, pid: int, handle: int -> bool, fuel: nat, k: nat)
    requires fuel > 0 && pid in t && k < |t[pid]|
    ensures var log := Visit(t, pid, handle, fuel);
      var sub := Visit(t, t[pid][k], handle, fuel - 1);
      var rest := if handle(pid) then |log| - 1 else |log|;
      Occurs(log[..rest], sub)
    ensures handle(pid) ==> Visit(t, pid, handle, fuel)[|Visit(t, pid, handle, fuel)| - 1] == pid
  {
    var log := Visit(t, pid, handle, fuel);
    var kidsLog := VisitAll(t, t[pid], handle, fuel - 1);
    var sub := Visit(t, t[pid][k], handle, fuel - 1);
    assert log == kidsLog + (if handle(pid) then [pid] else []);
    VisitAllHasBlock(t, t[pid], handle, fuel - 1, k);
    var a: nat :| OccursAt(kidsLog, sub, a);
    var rest := if handle(pid) then |log| - 1 else |log|;
    assert log[..rest] == kidsLog;
    assert OccursAt(log[..rest], sub, a);
  }

  /** A process without children, or the depth bound reached, is only terminated itself. */
  lemma LeafVisit(t: ProcessTable, pid: int, handle: int -> bool, fuel: nat)
    requires pid !in t || fuel == 0
    ensures Visit(t, pid, handle, fuel) == (if handle(pid) then [pid] else [])
  {
  }

  /** `terminate_process_descendants`, recursing child by child. */
  method TerminateProcessDescendants(t: ProcessTable, pid: int, handle: int -> bool, fuel: nat) returns (log: seq<int>)
    ensures log == Visit(t, pid, handle, fuel)
    decreases fuel
  {
    log := [];
    if fuel > 0 && pid in t {
      var children := t[pid];
      for i := 0 to |children|
        invariant log == VisitAll(t, children[..i], handle, fuel - 1)
      {
        assert children[..i + 1][..i] == children[..i];
        var sub := TerminateProcessDescendants(t, children[i], handle, fuel - 1);
        log := log + sub;
      }
      assert children[..|children|] == children;
    }
    if handle(pid) {
      log := log + [pid];
    }
  }

  /** The status a read exit code gives: none while the process is active or the code unreadable. */
  function StatusFromCode(code: Option<int>): (r: Option<int>)
    ensures r.Some? <==> code.Some? && code.value != ProcessActive
    ensures r.Some? ==> r.value == code.value
  {
    match code
    case Some(c) => if c == ProcessActive then Wrappers.None else Wrappers.Some(c)
    case None => Wrappers.None
  }

  /** `Process::status`: a cached status wins; otherwise the code read now decides. */
  function CurrentStatus(cached: Option<int>, code: Option<int>): (r: Option<int>)
    ensures cached.Some? ==> r == cached
    ensures cached.None? ==> r == StatusFromCode(code)
  {
    if cached.Some? then cached else StatusFromCode(code)
  }

  /**
   * The waiting loop from pass `i` on: true when it ends by terminating
   * the tree (ctrl-break failed or the deadline passed), false when a
   * status query sees the process exited.
   */
  function Waits(ctrlOk: bool, exitAt: nat -> Option<int>, nowAt: nat -> int, stop: int, i: nat, bound: nat): bool
    requires i <= bound && nowAt(bound) > stop
    decreases bound - i
  {
    if !ctrlOk || nowAt(i) > stop then true
    else if StatusFromCode(exitAt(i)).Some? then false
    else Waits(ctrlOk, exitAt, nowAt, stop, i + 1, bound)
  }

  /** The waiting loop ends gracefully exactly when an exit is seen before the deadline. */
  lemma {:induction false} WaitsRule(ctrlOk: bool, exitAt: nat -> Option<int>, nowAt: nat -> int, stop: int, i: nat, bound: nat)
    requires i <= bound && nowAt(bound) > stop
    ensures !ctrlOk ==> Waits(ctrlOk, exitAt, nowAt, stop, i, bound)
    ensures !Waits(ctrlOk, exitAt, nowAt, stop, i, bound) ==>
      exists n: nat :: i <= n < bound && nowAt(n) <= stop && StatusFromCode(exitAt(n)).Some?
    ensures (forall n: nat :: i <= n < bound ==> StatusFromCode(exitAt(n)).None?) ==> Waits(ctrlOk, exitAt, nowAt, stop, i, bound)
    decreases bound - i
  {
    if ctrlOk && nowAt(i) <= stop {
      assert i < bound;
      if StatusFromCode(exitAt(i)).None? {
        WaitsRule(ctrlOk, exitAt, nowAt, stop, i + 1, bound);
      }
    }
  }

  datatype KillResult = KillResult(method_: U.ShutdownMethod, terminated: seq<int>, status: Option<int>)

  /**
   * The whole of `Process::kill`: the shutdown method, the pids terminated
   * and the status cached afterwards.
   */
  function KillOutcome(cached: Option<int>, firstCode: Option<int>, pid: int, ctrlOk: bool, exitAt: nat -> Option<int>, nowAt: nat -> int,
                       start: int, bound: nat, snap: Snapshot, handle: int -> bool, fuel: nat): KillResult
    requires nowAt(bound) > start + GraceMillis
  {
    var first := CurrentStatus(cached, firstCode);
    if first.Some? then KillResult(U.AlreadyExited, [], first)
    else if Waits(ctrlOk, exitAt, nowAt, start + GraceMillis, 0, bound) then
      KillResult(U.Killed, Visit(TableFromSnapshot(snap), pid, handle, fuel), Wrappers.None)
    else KillResult(U.GracefulTermination, [], ExitSeen(exitAt, nowAt, start + GraceMillis, 0, bound))
  }

  /** The status the waiting loop caches when it sees the exit. */
  function ExitSeen(exitAt: nat -> Option<int>, nowAt: nat -> int, stop: int, i: nat, bound: nat): Option<int>
    requires i <= bound && nowAt(bound) > stop
    decreases bound - i
  {
    if nowAt(i) > stop then Wrappers.None
    else if StatusFromCode(exitAt(i)).Some? then StatusFromCode(exitAt(i))
    else ExitSeen(exitAt, nowAt, stop, i + 1, bound)
  }

  /**
   * A known status means no signal and AlreadyExited; otherwise a failed
   * ctrl-break or a missed deadline terminates the whole tree (Killed),
   * and an exit seen in time is a graceful termination with nothing
   * terminated.
   */
  lemma KillRule(cached: Option<int>, firstCode: Option<int>, pid: int, ctrlOk: bool, exitAt: nat -> Option<int>, nowAt: nat -> int,
                 start: int, bound: nat, snap: Snapshot, handle: int -> bool, fuel: nat)
    requires nowAt(bound) > start + GraceMillis
    ensures var r := KillOutcome(cached, firstCode, pid, ctrlOk, exitAt, nowAt, start, bound, snap, handle, fuel);
      r.method_ == U.AlreadyExited <==> CurrentStatus(cached, firstCode).Some?
    ensures var r := KillOutcome(cached, firstCode, pid, ctrlOk, exitAt, nowAt, start, bound, snap, handle, fuel);
      cached.Some? ==> r.method_ == U.AlreadyExited && r.terminated == [] && r.status == cached
    ensures var r := KillOutcome(cached, firstCode, pid, ctrlOk, exitAt, nowAt, start, bound, snap, handle, fuel);
      CurrentStatus(cached, firstCode).None? && !ctrlOk ==> r.method_ == U.Killed
    ensures var r := KillOutcome(cached, firstCode, pid, ctrlOk, exitAt, nowAt, start, bound, snap, handle, fuel);
      r.method_ == U.Killed ==> r.terminated == Visit(TableFromSnapshot(snap), pid, handle, fuel)
    ensures var r := KillOutcome(cached, firstCode, pid, ctrlOk, exitAt, nowAt, start, bound, snap, handle, fuel);
      r.method_ == U.GracefulTermination ==> (r.terminated == [] && ctrlOk &&
        exists n: nat :: n < bound && nowAt(n) <= start + GraceMillis && StatusFromCode(exitAt(n)).Some?)
  {
    WaitsRule(ctrlOk, exitAt, nowAt, start + GraceMillis, 0, bound);
  }

  /** A process handle with the status it has cached. */
  class Process {
    const pid: int
    var lastStatus: Option<int>

    /** `Process::new`: nothing is cached yet. */
    constructor (pid: int)
      ensures this.pid == pid && lastStatus.None?
    {
      this.pid := pid;
      lastStatus := Wrappers.None;
    }

    /** `status`, reading `code` when nothing is cached, and caching an exit it sees. */
    method Status(code: Option<int>) returns (r: Option<int>)
      modifies this`lastStatus
      ensures r == CurrentStatus(old(lastStatus), code)
      ensures lastStatus == r
    {
      if lastStatus.Some? {
        return lastStatus;
      }
      match code {
        case Some(c) =>
          if c == ProcessActive {
            return Wrappers.None;
          }
          lastStatus := Wrappers.Some(c);
          r := lastStatus;
        case None =>
          r := Wrappers.None;
      }
    }

    /** `Process::kill`, with its waiting loop. */
    method Kill(firstCode: Option<int>, ctrlOk: bool, exitAt: nat -> Option<int>, nowAt: nat -> int, start: int, bound: nat,
                snap: Snapshot, handle: int -> bool, fuel: nat) returns (m: U.ShutdownMethod, terminated: seq<int>)
      requires nowAt(bound) > start + GraceMillis
      modifies this`lastStatus
      ensures var k := KillOutcome(old(lastStatus), firstCode, pid, ctrlOk, exitAt, nowAt, start, bound, snap, handle, fuel);
        m == k.method_ && terminated == k.terminated && lastStatus == k.status
    {
      var s := Status(firstCode);
      if s.Some? {
        return U.AlreadyExited, [];
      }
      var stopTime := start + GraceMillis;
      var i: nat := 0;
      while true
        invariant i <= bound && lastStatus.None?
        invariant Waits(ctrlOk, exitAt, nowAt, stopTime, 0, bound) == Waits(ctrlOk, exitAt, nowAt, stopTime, i, bound)
        invariant ctrlOk ==> ExitSeen(exitAt, nowAt, stopTime, 0, bound) == ExitSeen(exitAt, nowAt, stopTime, i, bound)
        decreases bound - i
      {
        if !ctrlOk || nowAt(i) > stopTime {
          var table := BuildProcTable(snap);
          terminated := TerminateProcessDescendants(table, pid, handle, fuel);
          return U.Killed, terminated;
        }
        var st := Status(exitAt(i));
        if st.Some? {
          return U.GracefulTermination, [];
        }
        i := i + 1;
      }
    }
  }

  /** `kill`: a pid without a resolvable handle is taken to have exited already. */
  method KillPid(pid: int, hasHandle: bool, firstCode: Option<int>, ctrlOk: bool, exitAt: nat -> Option<int>, nowAt: nat -> int, start: int,
                 bound: nat, snap: Snapshot, handle: int -> bool, fuel: nat) returns (m: U.ShutdownMethod, terminated: seq<int>)
    requires nowAt(bound) > start + GraceMillis
    ensures !hasHandle ==> m == U.AlreadyExited && terminated == []
    ensures hasHandle ==> var k := KillOutcome(Wrappers.None, firstCode, pid, ctrlOk, exitAt, nowAt, start, bound, snap, handle, fuel);
      m == k.method_ && terminated == k.terminated
  {
    if !hasHandle {
      return U.AlreadyExited, [];
    }
    var process := new Process(pid);
    m, terminated := process.Kill(firstCode, ctrlOk, exitAt, nowAt, start, bound, snap, handle, fuel);
  }
}
