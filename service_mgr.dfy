/**
 * The Supervisor's per-service manager: the process state machine over
 * `state`, `pid`, `initialized`, `needs_reload`, `needs_reconfiguration`
 * and `last_election_status`, driven by `tick`.
 *
 * The launcher, the hooks, the clock, process liveness and the census are
 * inputs. Each method of `ServiceMgr` is specified by a function of the
 * same name on the value `Mgr` of its fields, and the lemmas below state
 * the lifecycle rules on those functions.
 */
module ServiceManager {
  import opened Wrappers
  import Str = Text
  import PS = ProtocolService
  import M = Manager

  /** What a step did: finished with a value, or panicked (an `unwrap`, `expect` or `unimplemented!`). */
  datatype Outcome<T> = Done(value: T) | Panicked(reason: string)

  const UnwrapPid: string := "read_pid unwrap"
  const MissingGroup: string := "Service update failed; unable to find own service group"
  const NoLeader: string := "No leader with finished election"
  const Unimplemented: string := "not implemented"

  /**
   * The pid file: absent, holding text, present but unopenable, or opened
   * with a first line that cannot be read (not UTF-8, or a read error).
   */
  datatype PidFile = Absent | Present(text: string) | Unopenable | Undecodable

  datatype PidError = PidFileCorrupt | PidFileIO

  /** `read_pid`: the first line parsed as a pid. */
  function ReadPid(f: PidFile): (r: Result<int, PidError>)
    requires !f.Absent?
    ensures r.Ok? ==> M.PidMin <= r.value <= M.PidMax
    ensures r == Err(PidFileIO) <==> f.Unopenable?
    ensures r.Ok? <==>
              f.Present? && Str.FirstLine(f.text).Some? && Str.ParseSigned(Str.FirstLine(f.text).value).Some? &&
              M.PidMin <= Str.ParseSigned(Str.FirstLine(f.text).value).value <= M.PidMax
    ensures r.Ok? ==> Str.ParseSigned(Str.FirstLine(f.text).value) == Some(r.value)
  {
    match f
    case Unopenable => Err(PidFileIO)
    case Undecodable => Err(PidFileCorrupt)
    case Present(t) =>
      match Str.FirstLine(t)
      case None => Err(PidFileCorrupt)
      case Some(line) =>
        match Str.ParseInRange(line, M.PidMin, M.PidMax)
        case Some(p) => Ok(p)
        case None => Err(PidFileCorrupt)
  }

  /** The pid file the manager writes reads back as that pid. */
  lemma ReadPidWritten(p: int)
    requires M.PidMin <= p <= M.PidMax
    ensures ReadPid(Present(Str.IntToString(p))) == Ok(p)
  {
    Str.IntToStringFirstLine(p);
    Str.ParseIntToString(p);
  }

  /** A pid line ended by "\n" or "\r\n" reads as that pid; a lone trailing '\r' makes the file corrupt. */
  lemma ReadPidLineEndings(p: int, ending: string, rest: string)
    requires M.PidMin <= p <= M.PidMax && (ending == "\n" || ending == "\r\n")
    ensures ReadPid(Present(Str.IntToString(p) + ending + rest)) == Ok(p)
    ensures ReadPid(Present(Str.IntToString(p) + "\r")) == Err(PidFileCorrupt)
  {
    Str.IntToStringNoBreaks(p);
    Str.FirstLineTerminated(Str.IntToString(p), ending, rest);
    Str.ParseIntToString(p);
    var t := Str.IntToString(p) + "\r";
    assert '\n' !in t by {
      assert forall k :: 0 <= k < |t| - 1 ==> t[k] == Str.IntToString(p)[k];
    }
    Str.ParseStrayCR(Str.IntToString(p));
  }

  /** The hooks whose answers change the manager's fields. */
  datatype Hooks = Hooks(init: Option<bool>, hasReload: bool)

  /** The launcher's, clock's and kernel's answers during one step. */
  datatype Env = Env(now: int, alive: int -> bool, spawn: Result<int, string>,
                     restart: int -> Result<int, string>, healthCheckDue: bool)

  /** This service's census group as `tick` reads it. */
  datatype CensusGroup = CensusGroup(electionStatus: PS.ElectionStatus, leaderId: Option<string>, cfgUpdated: bool)

  /** The rest of what `tick` reads: what `compile` would change. */
  datatype TickInput = TickInput(topology: PS.Topology, ownGroup: Option<CensusGroup>, ringChanged: bool,
                                 hooksCompiled: bool, configCompiled: bool)

  /** The fields of `ServiceMgr` that its methods change. */
  datatype Mgr = Mgr(state: PS.ProcessState, stateEntered: int, pid: Option<int>, pidFile: PidFile,
                     initialized: bool, needsReload: bool, needsReconfiguration: bool,
                     lastElectionStatus: PS.ElectionStatus, hooks: Hooks)
  {
    function ChangeState(s: PS.ProcessState, now: int): Mgr
    {
      if state == s then this else this.(state := s, stateEntered := now)
    }

    function CleanupPidfile(): Mgr
    {
      this.(pidFile := Absent)
    }

    function CreatePidfile(): Mgr
    {
      match pid
      case Some(p) => this.(pidFile := Present(Str.IntToString(p)))
      case None => this
    }

    function Stop(now: int): Mgr
    {
      if pid.None? then this else CleanupPidfile().ChangeState(PS.Down, now)
    }

    /** The pid `check_process` looks at: the stored one, else the pid file's. */
    function FoundPid(): Outcome<Option<int>>
    {
      match pid
      case Some(p) => Done(Some(p))
      case None =>
        if pidFile.Absent? then Done(None)
        else
          match ReadPid(pidFile)
          case Ok(p) => Done(Some(p))
          case Err(_) => Panicked(UnwrapPid)
    }

    function CheckProcess(now: int, alive: int -> bool): (Mgr, Outcome<bool>)
    {
      match FoundPid()
      case Panicked(why) => (this, Panicked(why))
      case Done(found) =>
        if found.Some? && alive(found.value) then (ChangeState(PS.Up, now).(pid := found), Done(true))
        else (ChangeState(PS.Down, now).CleanupPidfile().(pid := None), Done(false))
    }

    function Initialize(): Mgr
    {
      if initialized then this
      else this.(initialized := match hooks.init case Some(ok) => ok case None => true)
    }

    function Start(now: int, spawn: Result<int, string>): Mgr
    {
      match spawn
      case Err(_) => this
      case Ok(p) =>
        this.(pid := Some(p)).CreatePidfile().ChangeState(PS.Up, now).(needsReload := false, needsReconfiguration := false)
    }

    function Restart(env: Env): (Mgr, Result<(), string>)
    {
      match pid
      case Some(p) =>
        (match env.restart(p)
         case Ok(np) => (this.(pid := Some(np)).CreatePidfile().ChangeState(PS.Up, env.now), Ok(()))
         case Err(e) => (CleanupPidfile().ChangeState(PS.Down, env.now), Err(e)))
      case None => (Start(env.now, env.spawn), Ok(()))
    }

    function Reload(env: Env): Mgr
    {
      var m := this.(needsReload := false);
      if m.state == PS.Down || !m.hooks.hasReload then m.Restart(env).0 else m
    }

    function Reconfigure(): Mgr
    {
      this.(needsReconfiguration := false)
    }

    function ExecuteHooks(env: Env): (Mgr, Outcome<()>)
    {
      var (m1, found) := CheckProcess(env.now, env.alive);
      if found.Panicked? then (m1, Panicked(found.reason))
      else if !initialized then
        if found.value then (m1.(initialized := true), Done(()))
        else
          var m2 := m1.Initialize();
          (if m2.initialized then m2.Start(env.now, env.spawn) else m2, Done(()))
      else if env.healthCheckDue then (m1, Panicked(Unimplemented))
      else if m1.needsReload || m1.state == PS.Down || m1.needsReconfiguration then
        var m2 := m1.Reload(env);
        (if m2.needsReconfiguration then m2.Reconfigure() else m2, Done(()))
      else (m1, Done(()))
    }

    function UpdateTemplates(cfgUpdated: bool, input: TickInput): (Mgr, bool)
    {
      if cfgUpdated || input.ringChanged then
        (this.(needsReload := input.hooksCompiled, needsReconfiguration := input.configCompiled), cfgUpdated)
      else (this, cfgUpdated)
    }

    /** `tick` after its bind guard. */
    function TickBody(env: Env, input: TickInput): (Mgr, Outcome<bool>)
    {
      match input.ownGroup
      case None => (this, Panicked(MissingGroup))
      case Some(g) =>
        var (m1, updated) := UpdateTemplates(g.cfgUpdated, input);
        match input.topology
        case Standalone =>
          var (m2, r) := m1.ExecuteHooks(env);
          (m2, if r.Panicked? then Panicked(r.reason) else Done(updated))
        case Leader =>
          if g.electionStatus == PS.ElectionFinished && g.leaderId.None? then (m1, Panicked(NoLeader))
          else
            var m2 := if m1.lastElectionStatus != g.electionStatus then m1.(lastElectionStatus := g.electionStatus) else m1;
            if m2.lastElectionStatus == PS.ElectionFinished then
              var (m3, r) := m2.ExecuteHooks(env);
              (m3, if r.Panicked? then Panicked(r.reason) else Done(updated))
            else (m2, Done(updated))
    }

    /** `tick` as written: an uninitialized service waits when its binds ARE satisfied. */
    function TickAsWritten(env: Env, bindsSatisfied: bool, input: TickInput): (Mgr, Outcome<bool>)
    {
      if !initialized && bindsSatisfied then (this, Done(false)) else TickBody(env, input)
    }

    /** `tick` as intended: an uninitialized service waits until its binds are satisfied. */
    function Tick(env: Env, bindsSatisfied: bool, input: TickInput): (Mgr, Outcome<bool>)
    {
      if !initialized && !bindsSatisfied then (this, Done(false)) else TickBody(env, input)
    }

    function UpdatePackage(now: int, loaded: Option<Hooks>): Mgr
    {
      match loaded
      case None => this
      case Some(h) => this.(hooks := h).Stop(now).(initialized := false)
    }

    /** `status`: healthy iff up, with "group: state for elapsed". */
    function Status(serviceGroup: string, now: int, formatDuration: int -> string): (bool, string)
    {
      (state == PS.Up, serviceGroup + ": " + state.Text() + " for " + formatDuration(now - stateEntered))
    }
  }

  /** The fields a freshly loaded service starts with. */
  function Loaded(now: int, pidFile: PidFile, hooks: Hooks): Mgr
  {
    Mgr(PS.Down, now, None, pidFile, false, false, false, PS.ElectionStatus.None, hooks)
  }

  lemma ChangeStateRule(m: Mgr, s: PS.ProcessState, now: int)
    ensures m.state == s ==> m.ChangeState(s, now) == m
    ensures m.state != s ==> m.ChangeState(s, now) == m.(state := s, stateEntered := now)
    ensures m.ChangeState(s, now).state == s
  {
  }

  /** `stop` does nothing without a pid; otherwise it drops the pid file and marks the service down. */
  lemma StopRule(m: Mgr, now: int)
    ensures m.pid.None? ==> m.Stop(now) == m
    ensures m.pid.Some? ==> m.Stop(now).state == PS.Down && m.Stop(now).pidFile == Absent && m.Stop(now).pid == m.pid
    ensures m.Stop(now).(state := m.state, stateEntered := m.stateEntered, pidFile := m.pidFile) == m
  {
  }

  /**
   * `check_process` is true exactly when the stored pid, or failing that the
   * pid file's, is alive. An unreadable pid file with no stored pid panics.
   */
  lemma CheckProcessRule(m: Mgr, now: int, alive: int -> bool)
    ensures var (m1, r) := m.CheckProcess(now, alive);
      r.Panicked? <==> m.pid.None? && !m.pidFile.Absent? && ReadPid(m.pidFile).Err?
    ensures var (m1, r) := m.CheckProcess(now, alive);
      (r.Done? && r.value) <==>
        ((m.pid.Some? && alive(m.pid.value)) ||
         (m.pid.None? && !m.pidFile.Absent? && ReadPid(m.pidFile).Ok? && alive(ReadPid(m.pidFile).value)))
  {
  }

  /**
   * A live process marks the service up with its pid; otherwise the
   * service is marked down, the pid forgotten and the pid file dropped.
   * Nothing else changes.
   */
  lemma CheckProcessState(m: Mgr, now: int, alive: int -> bool)
    ensures var (m1, r) := m.CheckProcess(now, alive);
      r.Done? && r.value ==> m1.state == PS.Up && m1.pid.Some? && alive(m1.pid.value) && m1.pidFile == m.pidFile
    ensures var (m1, r) := m.CheckProcess(now, alive);
      r.Done? && !r.value ==> m1.state == PS.Down && m1.pid.None? && m1.pidFile == Absent
    ensures var (m1, r) := m.CheckProcess(now, alive);
      m1.(state := m.state, stateEntered := m.stateEntered, pid := m.pid, pidFile := m.pidFile) == m
  {
  }

  /** `initialize` runs once: the init hook's answer, or true when there is none. */
  lemma InitializeRule(m: Mgr)
    ensures m.initialized ==> m.Initialize() == m
    ensures !m.initialized ==> m.Initialize().initialized == (m.hooks.init.None? || m.hooks.init.value)
    ensures m.Initialize().(initialized := m.initialized) == m
  {
  }

  /** A successful spawn records the pid and marks the service up with nothing pending; a failed one changes nothing. */
  lemma StartRule(m: Mgr, now: int, spawn: Result<int, string>)
    ensures spawn.Err? ==> m.Start(now, spawn) == m
    ensures spawn.Ok? ==> var s := m.Start(now, spawn);
      s.pid == Some(spawn.value) && s.state == PS.Up && !s.needsReload && !s.needsReconfiguration &&
      s.pidFile == Present(Str.IntToString(spawn.value)) && s.initialized == m.initialized
  {
  }

  /**
   * `reload` always clears `needs_reload`; it restarts when the service is
   * down or has no reload hook, and otherwise only runs the hook.
   */
  lemma ReloadRule(m: Mgr, env: Env)
    ensures !m.Reload(env).needsReload
    ensures m.state != PS.Down && m.hooks.hasReload ==> m.Reload(env) == m.(needsReload := false)
    ensures m.state == PS.Down || !m.hooks.hasReload ==> m.Reload(env) == m.(needsReload := false).Restart(env).0
    ensures m.Reload(env).initialized == m.initialized && m.Reload(env).hooks == m.hooks
  {
  }

  lemma ReconfigureRule(m: Mgr)
    ensures !m.Reconfigure().needsReconfiguration && m.Reconfigure().(needsReconfiguration := m.needsReconfiguration) == m
  {
  }

  /** After an update that loaded, the service is stopped and waits to be initialized again. */
  lemma UpdatePackageRule(m: Mgr, now: int, loaded: Option<Hooks>)
    ensures loaded.None? ==> m.UpdatePackage(now, loaded) == m
    ensures loaded.Some? ==> !m.UpdatePackage(now, loaded).initialized && m.UpdatePackage(now, loaded).hooks == loaded.value
    ensures loaded.Some? && m.pid.Some? ==> m.UpdatePackage(now, loaded).state == PS.Down
  {
  }

  /** Under the leader topology hooks run only once the census reports a finished election. */
  lemma LeaderRunsHooksOnlyWhenFinished(m: Mgr, env: Env, input: TickInput)
    requires input.topology == PS.Leader && input.ownGroup.Some?
    ensures var g := input.ownGroup.value;
      g.electionStatus == PS.ElectionFinished && g.leaderId.None? ==> m.TickBody(env, input).1 == Panicked(NoLeader)
    ensures var g := input.ownGroup.value;
      g.electionStatus != PS.ElectionFinished ==>
        m.TickBody(env, input) ==
          (m.UpdateTemplates(g.cfgUpdated, input).0.(lastElectionStatus := g.electionStatus), Done(g.cfgUpdated))
    ensures var g := input.ownGroup.value;
      g.electionStatus == PS.ElectionFinished && g.leaderId.Some? ==>
        var m1 := m.UpdateTemplates(g.cfgUpdated, input).0.(lastElectionStatus := g.electionStatus);
        m.TickBody(env, input).0 == m1.ExecuteHooks(env).0
  {
    var g := input.ownGroup.value;
    var m1 := m.UpdateTemplates(g.cfgUpdated, input).0;
    if m1.lastElectionStatus == g.electionStatus {
      assert m1.(lastElectionStatus := g.electionStatus) == m1;
    }
  }

  /** `tick`'s result is whether the gossiped configuration changed. */
  lemma TickReportsConfigUpdate(m: Mgr, env: Env, satisfied: bool, input: TickInput)
    requires input.ownGroup.Some? && (m.initialized || satisfied)
    ensures m.Tick(env, satisfied, input).1.Done? ==> m.Tick(env, satisfied, input).1.value == input.ownGroup.value.cfgUpdated
  {
  }

  /**
   * As written, an uninitialized service whose binds are all satisfied
   * (in particular one with no binds at all) never moves: every tick
   * leaves it exactly as it was, so it is never started.
   */
  lemma TickAsWrittenNeverStarts(m: Mgr, env: Env, input: TickInput, n: nat)
    requires !m.initialized
    ensures m.TickAsWritten(env, true, input) == (m, Done(false))
    ensures AsWrittenTicks(m, env, input, n) == m
  {
    if n > 0 {
      TickAsWrittenNeverStarts(m, env, input, n - 1);
    }
  }

  function AsWrittenTicks(m: Mgr, env: Env, input: TickInput, n: nat): Mgr
  {
    if n == 0 then m else AsWrittenTicks(m, env, input, n - 1).TickAsWritten(env, true, input).0
  }

  /** A freshly loaded standalone service with no binds is never started by the written `tick`. */
  lemma NoBindsServiceStaysDown(now: int, hooks: Hooks, env: Env, input: TickInput, satisfied: bool)
    requires satisfied == BindsSatisfied([], map[])
    ensures Loaded(now, Absent, hooks).TickAsWritten(env, satisfied, input) == (Loaded(now, Absent, hooks), Done(false))
    ensures !Loaded(now, Absent, hooks).TickAsWritten(env, satisfied, input).0.initialized
  {
  }

  /**
   * As intended, the same service is started on its first tick: a
   * standalone service with no init hook and a successful spawn comes up.
   */
  lemma TickStartsReadyService(now: int, hooks: Hooks, env: Env, input: TickInput)
    requires hooks.init.None? && env.spawn.Ok?
    requires input.topology == PS.Standalone && input.ownGroup.Some?
    ensures var (m, r) := Loaded(now, Absent, hooks).Tick(env, BindsSatisfied([], map[]), input);
      r.Done? && m.initialized && m.state == PS.Up && m.pid == Some(env.spawn.value)
  {
    var m0 := Loaded(now, Absent, hooks);
    var m1 := m0.UpdateTemplates(input.ownGroup.value.cfgUpdated, input).0;
    assert m1.pid.None? && m1.pidFile.Absent? && !m1.initialized && m1.hooks == hooks;
  }

  /** The intended `tick` leaves an uninitialized service with unmet binds alone. */
  lemma TickWaitsForBinds(m: Mgr, env: Env, input: TickInput)
    requires !m.initialized
    ensures m.Tick(env, false, input) == (m, Done(false))
    ensures m.Tick(env, true, input) == m.TickBody(env, input)
  {
  }

  /** `config_root`/`hooks_root`: "config" or "hooks" under `config_from`, else under the package. */
  function ConfigRoot(pkgPath: M.Path, configFrom: Option<M.Path>): M.Path
  {
    M.Join(match configFrom case Some(p) => p case None => pkgPath, "config")
  }

  function HooksRoot(pkgPath: M.Path, configFrom: Option<M.Path>): M.Path
  {
    M.Join(match configFrom case Some(p) => p case None => pkgPath, "hooks")
  }

  lemma RootsRule(pkgPath: M.Path, configFrom: Option<M.Path>)
    ensures var base := if configFrom.Some? then configFrom.value else pkgPath;
      ConfigRoot(pkgPath, configFrom) == base + ["config"] && HooksRoot(pkgPath, configFrom) == base + ["hooks"]
    ensures ConfigRoot(pkgPath, configFrom) != HooksRoot(pkgPath, configFrom)
  {
    var base := if configFrom.Some? then configFrom.value else pkgPath;
    M.JoinName(base, "config");
    M.JoinName(base, "hooks");
    assert ConfigRoot(pkgPath, configFrom)[|base|] != HooksRoot(pkgPath, configFrom)[|base|];
  }

  /** A bind is satisfied when its group is in the census with a live member. */
  predicate BindSatisfied(b: PS.ServiceBind, census: map<string, seq<bool>>)
  {
    b.serviceGroup in census && true in census[b.serviceGroup]
  }

  predicate BindsSatisfied(binds: seq<PS.ServiceBind>, census: map<string, seq<bool>>)
  {
    forall i :: 0 <= i < |binds| ==> BindSatisfied(binds[i], census)
  }

  /** `all_binds_satisfied`, over the census's member liveness per group. */
  method AllBindsSatisfied(binds: seq<PS.ServiceBind>, census: map<string, seq<bool>>) returns (ret: bool)
    ensures ret <==> BindsSatisfied(binds, census)
  {
    ret := true;
    var i := 0;
    while i < |binds|
      invariant 0 <= i <= |binds|
      invariant ret <==> forall j :: 0 <= j < i ==> BindSatisfied(binds[j], census)
    {
      var b := binds[i];
      if b.serviceGroup in census {
        var members := census[b.serviceGroup];
        var k := 0;
        var allDead := true;
        while k < |members|
          invariant 0 <= k <= |members|
          invariant allDead <==> true !in members[..k]
        {
          assert members[..k + 1] == members[..k] + [members[k]];
          if members[k] {
            allDead := false;
          }
          k := k + 1;
        }
        assert members[..k] == members;
        if allDead {
          ret := false;
        }
      } else {
        ret := false;
      }
      i := i + 1;
    }
  }

  class ServiceMgr {
    var state: PS.ProcessState
    var stateEntered: int
    var pid: Option<int>
    var pidFile: PidFile
    var initialized: bool
    var needsReload: bool
    var needsReconfiguration: bool
    var lastElectionStatus: PS.ElectionStatus
    var hooks: Hooks

    function Snapshot(): Mgr
      reads this
    {
      Mgr(state, stateEntered, pid, pidFile, initialized, needsReload, needsReconfiguration, lastElectionStatus, hooks)
    }

    /** `ServiceMgr::load`'s initial fields. */
    constructor (now: int, pidFile: PidFile, hooks: Hooks)
      ensures Snapshot() == Loaded(now, pidFile, hooks)
    {
      state := PS.Down;
      stateEntered := now;
      pid := None;
      this.pidFile := pidFile;
      initialized := false;
      needsReload := false;
      needsReconfiguration := false;
      lastElectionStatus := PS.ElectionStatus.None;
      this.hooks := hooks;
    }

    method ChangeState(s: PS.ProcessState, now: int)
      modifies this
      ensures Snapshot() == old(Snapshot()).ChangeState(s, now)
    {
      if state == s {
        return;
      }
      state := s;
      stateEntered := now;
    }

    /** `cleanup_pidfile`: the pid file is recorded as removed; a removal that fails is not modelled. */
    method CleanupPidfile()
      modifies this
      ensures Snapshot() == old(Snapshot()).CleanupPidfile()
    {
      pidFile := Absent;
    }

    method CreatePidfile()
      modifies this
      ensures Snapshot() == old(Snapshot()).CreatePidfile()
    {
      if pid.Some? {
        pidFile := Present(Str.IntToString(pid.value));
      }
    }

    /** `stop`: the launcher's terminate answer is only logged. */
    method Stop(now: int)
      modifies this
      ensures Snapshot() == old(Snapshot()).Stop(now)
    {
      if pid.None? {
        return;
      }
      CleanupPidfile();
      ChangeState(PS.Down, now);
    }

    method CheckProcess(now: int, alive: int -> bool) returns (r: Outcome<bool>)
      modifies this
      ensures (Snapshot(), r) == old(Snapshot()).CheckProcess(now, alive)
    {
      var found: Option<int>;
      if pid.Some? {
        found := pid;
      } else if pidFile.Absent? {
        found := None;
      } else {
        var read := ReadPid(pidFile);
        if read.Err? {
          return Panicked(UnwrapPid);
        }
        found := Some(read.value);
      }
      if found.Some? && alive(found.value) {
        ChangeState(PS.Up, now);
        pid := found;
        return Done(true);
      }
      ChangeState(PS.Down, now);
      CleanupPidfile();
      pid := None;
      r := Done(false);
    }

    method Initialize()
      modifies this
      ensures Snapshot() == old(Snapshot()).Initialize()
    {
      if initialized {
        return;
      }
      initialized := true;
      if hooks.init.Some? {
        initialized := hooks.init.value;
      }
    }

    /** `start`: a failed spawn is only logged. */
    method Start(now: int, spawn: Result<int, string>)
      modifies this
      ensures Snapshot() == old(Snapshot()).Start(now, spawn)
    {
      if spawn.Err? {
        return;
      }
      pid := Some(spawn.value);
      CreatePidfile();
      ChangeState(PS.Up, now);
      needsReload := false;
      needsReconfiguration := false;
    }

    method Restart(env: Env) returns (r: Result<(), string>)
      modifies this
      ensures (Snapshot(), r) == old(Snapshot()).Restart(env)
    {
      if pid.None? {
        Start(env.now, env.spawn);
        return Ok(());
      }
      var restarted := env.restart(pid.value);
      if restarted.Ok? {
        pid := Some(restarted.value);
        CreatePidfile();
        ChangeState(PS.Up, env.now);
        r := Ok(());
      } else {
        CleanupPidfile();
        ChangeState(PS.Down, env.now);
        r := Err(restarted.error);
      }
    }

    /** `reload`: a failed restart is only logged. */
    method Reload(env: Env)
      modifies this
      ensures Snapshot() == old(Snapshot()).Reload(env)
    {
      needsReload := false;
      if state == PS.Down || !hooks.hasReload {
        var _ := Restart(env);
      }
    }

    method Reconfigure()
      modifies this
      ensures Snapshot() == old(Snapshot()).Reconfigure()
    {
      needsReconfiguration := false;
    }

    method ExecuteHooks(env: Env) returns (r: Outcome<()>)
      modifies this
      ensures (Snapshot(), r) == old(Snapshot()).ExecuteHooks(env)
    {
      var wasInitialized := initialized;
      var found := CheckProcess(env.now, env.alive);
      if found.Panicked? {
        return Panicked(found.reason);
      }
      if !wasInitialized {
        if found.value {
          initialized := true;
          return Done(());
        }
        Initialize();
        if initialized {
          Start(env.now, env.spawn);
        }
        return Done(());
      }
      if env.healthCheckDue {
        return Panicked(Unimplemented);
      }
      if needsReload || state == PS.Down || needsReconfiguration {
        Reload(env);
        if needsReconfiguration {
          Reconfigure();
        }
      }
      r := Done(());
    }

    method UpdateTemplates(cfgUpdated: bool, input: TickInput) returns (updated: bool)
      modifies this
      ensures (Snapshot(), updated) == old(Snapshot()).UpdateTemplates(cfgUpdated, input)
    {
      if cfgUpdated || input.ringChanged {
        needsReload := input.hooksCompiled;
        needsReconfiguration := input.configCompiled;
      }
      updated := cfgUpdated;
    }

    method TickBody(env: Env, input: TickInput) returns (r: Outcome<bool>)
      modifies this
      ensures (Snapshot(), r) == old(Snapshot()).TickBody(env, input)
    {
      if input.ownGroup.None? {
        return Panicked(MissingGroup);
      }
      var g := input.ownGroup.value;
      var updated := UpdateTemplates(g.cfgUpdated, input);
      if input.topology == PS.Standalone {
        var h := ExecuteHooks(env);
        return if h.Panicked? then Panicked(h.reason) else Done(updated);
      }
      if g.electionStatus == PS.ElectionFinished && g.leaderId.None? {
        return Panicked(NoLeader);
      }
      if lastElectionStatus != g.electionStatus {
        lastElectionStatus := g.electionStatus;
      }
      if lastElectionStatus == PS.ElectionFinished {
        var h := ExecuteHooks(env);
        return if h.Panicked? then Panicked(h.reason) else Done(updated);
      }
      r := Done(updated);
    }

    /** `tick` exactly as written, bind guard included. */
    method TickAsWritten(env: Env, binds: seq<PS.ServiceBind>, census: map<string, seq<bool>>, input: TickInput) returns (r: Outcome<bool>)
      modifies this
      ensures (Snapshot(), r) == old(Snapshot()).TickAsWritten(env, BindsSatisfied(binds, census), input)
    {
      if !initialized {
        var satisfied := AllBindsSatisfied(binds, census);
        if satisfied {
          return Done(false);
        }
      }
      r := TickBody(env, input);
    }

    /** `tick` with the bind guard the log message describes. */
    method Tick(env: Env, binds: seq<PS.ServiceBind>, census: map<string, seq<bool>>, input: TickInput) returns (r: Outcome<bool>)
      modifies this
      ensures (Snapshot(), r) == old(Snapshot()).Tick(env, BindsSatisfied(binds, census), input)
    {
      if !initialized {
        var satisfied := AllBindsSatisfied(binds, census);
        if !satisfied {
          return Done(false);
        }
      }
      r := TickBody(env, input);
    }

    /** `update_package`: `loaded` is None when the package or its templates fail to load. */
    method UpdatePackage(now: int, loaded: Option<Hooks>)
      modifies this
      ensures Snapshot() == old(Snapshot()).UpdatePackage(now, loaded)
    {
      if loaded.None? {
        return;
      }
      hooks := loaded.value;
      Stop(now);
      initialized := false;
    }
  }

  /** The steps of `write_cache_file` after the checksum comparison. */
  datatype CacheStep = Create | Write | Rename | Owner | Permissions

  /**
   * `write_cache_file` on values: nothing happens when the checksums
   * agree; otherwise the contents go to "<file>.write" and are renamed over
   * the file, and the first failing step ends the write with false.
   */
  function WriteCache(files: map<string, seq<bv8>>, file: string, contents: seq<bv8>,
                      hash: seq<bv8> -> string, fails: set<CacheStep>): (map<string, seq<bv8>>, bool)
  {
    var current := if file in files then hash(files[file]) else "";
    if hash(contents) == current then (files, false)
    else
      var tmp := file + ".write";
      if Create in fails then (files, false)
      else if Write in fails then (files[tmp := []], false)
      else if Rename in fails then (files[tmp := contents], false)
      else
        var moved := (files - {tmp})[file := contents];
        (moved, Owner !in fails && Permissions !in fails)
  }

  /**
   * The cache write reports true only when the file now holds the new
   * contents; unchanged checksums change nothing; only the file and its
   * ".write" sibling are ever touched.
   */
  lemma WriteCacheRule(files: map<string, seq<bv8>>, file: string, contents: seq<bv8>,
                       hash: seq<bv8> -> string, fails: set<CacheStep>)
    ensures var (after, ok) := WriteCache(files, file, contents, hash, fails);
      ok ==> file in after && after[file] == contents && file + ".write" !in after
    ensures var current := if file in files then hash(files[file]) else "";
      hash(contents) == current ==> WriteCache(files, file, contents, hash, fails) == (files, false)
    ensures var (after, ok) := WriteCache(files, file, contents, hash, fails);
      forall f :: f != file && f != file + ".write" ==> (f in after <==> f in files) && (f in files ==> after[f] == files[f])
    ensures var current := if file in files then hash(files[file]) else "";
      hash(contents) != current && fails == {} ==> WriteCache(files, file, contents, hash, fails).1
  {
    var tmp := file + ".write";
    assert file != tmp by {
      assert |tmp| == |file| + 6;
    }
  }

  /** A cache write that succeeded is not repeated: the next one with the same contents is a no-op. */
  lemma WriteCacheIdempotent(files: map<string, seq<bv8>>, file: string, contents: seq<bv8>,
                             hash: seq<bv8> -> string, fails: set<CacheStep>, fails2: set<CacheStep>)
    requires WriteCache(files, file, contents, hash, fails).1
    ensures var after := WriteCache(files, file, contents, hash, fails).0;
      WriteCache(after, file, contents, hash, fails2) == (after, false)
  {
    WriteCacheRule(files, file, contents, hash, fails);
  }
}
