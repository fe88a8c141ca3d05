/**
 * The builder worker's server: a Ready/Busy state machine that accepts one
 * job at a time from the job server, hands it to the runner, and reports
 * its state in the heartbeat it sends.
 *
 * Sockets become the logs `toRunner` and `toQueue`; the runner's
 * acknowledgement and completion replies, the clock and the poll result
 * are inputs.
 */
module WorkerServer {
  import opened Wrappers
  import Str = Text
  import WC = WorkerConfig

  datatype State = Ready | Busy

  /** The state the heartbeat message carries. */
  datatype WorkerState = WorkerReady | WorkerBusy

  function HeartbeatState(s: State): WorkerState
  {
    match s
    case Ready => WorkerReady
    case Busy => WorkerBusy
  }

  datatype JobState = Pending | Processing | Complete | Rejected | Failed
  datatype Job = Job(id: int, state: JobState)

  /** What reaches the job server's socket. */
  datatype QueueMsg = RunnerReply(bytes: seq<bv8>) | JobReply(job: Job) | Heartbeat(state: WorkerState) | Disconnect

  datatype ServerError = NoAuthTokenError | RunnerError(reason: string)

  datatype Feature = List

  /** A feature name as written in `features_enabled`, trimmed and upper-cased. */
  function FeatureKey(piece: string): string
  {
    Str.UpperStr(Str.Trim(piece))
  }

  /** Whether an entry names the one known feature, "LIST". */
  predicate IsListEntry(piece: string)
  {
    FeatureKey(piece) == "LIST"
  }

  /** Whether one of the first `n` entries names "LIST". */
  predicate ListAmong(parts: seq<string>, n: nat)
    requires n <= |parts|
  {
    exists i :: 0 <= i < n && IsListEntry(parts[i])
  }

  /** Whether some ','-separated entry names "LIST". */
  predicate ListRequested(featuresEnabled: string)
  {
    var parts := Str.Split(featuresEnabled, ',');
    ListAmong(parts, |parts|)
  }

  lemma ListAmongStep(parts: seq<string>, n: nat)
    requires n < |parts|
    ensures ListAmong(parts, n + 1) <==> ListAmong(parts, n) || IsListEntry(parts[n])
  {
    if IsListEntry(parts[n]) {
      assert 0 <= n < n + 1 && IsListEntry(parts[n]);
    }
  }

  /** The loop of `enable_features_from_config` over the ','-separated entries. */
  method ScanForList(parts: seq<string>) returns (found: bool)
    ensures found <==> ListAmong(parts, |parts|)
  {
    var i := 0;
    found := false;
    while i < |parts|
      invariant 0 <= i <= |parts|
      invariant found <==> ListAmong(parts, i)
    {
      ListAmongStep(parts, i);
      if IsListEntry(parts[i]) {
        found := true;
      }
      i := i + 1;
    }
  }

  class Server {
    const config: WC.Config
    const pingInterval: int
    var state: State
    var heartbeat: WorkerState
    var nextHeartbeat: int
    var enabled: set<Feature>
    var toRunner: seq<Job>
    var toQueue: seq<QueueMsg>

    /** The heartbeat always reports the server's state. */
    predicate Valid()
      reads this
    {
      heartbeat == HeartbeatState(state)
    }

    /** `Server::new`: Ready, with a Ready heartbeat due one interval from now. */
    constructor (config: WC.Config, now: int, pingInterval: int)
      ensures Valid() && state == Ready && heartbeat == WorkerReady
      ensures nextHeartbeat == now + pingInterval && this.config == config && this.pingInterval == pingInterval
      ensures enabled == {} && toRunner == [] && toQueue == []
    {
      this.config := config;
      this.pingInterval := pingInterval;
      state := Ready;
      heartbeat := WorkerReady;
      nextHeartbeat := now + pingInterval;
      enabled := {};
      toRunner := [];
      toQueue := [];
    }

    method SetState(s: State)
      modifies this
      ensures Valid() && state == s
      ensures nextHeartbeat == old(nextHeartbeat) && enabled == old(enabled)
      ensures toRunner == old(toRunner) && toQueue == old(toQueue)
    {
      heartbeat := HeartbeatState(s);
      state := s;
    }

    /**
     * `handle_message`: a Ready worker forwards the job to the runner,
     * relays the runner's acknowledgement and becomes Busy; a Busy worker
     * sends the job back marked Rejected and stays Busy.
     */
    method HandleMessage(job: Job, ack: Result<seq<bv8>, ServerError>) returns (r: Result<(), ServerError>)
      requires Valid()
      modifies this
      ensures Valid() && nextHeartbeat == old(nextHeartbeat) && enabled == old(enabled)
      ensures old(state) == Ready && ack.Ok? ==>
        state == Busy && toRunner == old(toRunner) + [job] && toQueue == old(toQueue) + [RunnerReply(ack.value)] && r.Ok?
      ensures old(state) == Ready && ack.Err? ==>
        state == Ready && toRunner == old(toRunner) + [job] && toQueue == old(toQueue) && r == Err(ack.error)
      ensures old(state) == Busy ==>
        state == Busy && toRunner == old(toRunner) && toQueue == old(toQueue) + [JobReply(job.(state := Rejected))] && r.Ok?
    {
      match state {
        case Ready =>
          toRunner := toRunner + [job];
          if ack.Err? {
            return Err(ack.error);
          }
          toQueue := toQueue + [RunnerReply(ack.value)];
          SetState(Busy);
        case Busy =>
          toQueue := toQueue + [JobReply(job.(state := Rejected))];
      }
      r := Ok(());
    }

    /** The runner branch of `run`: relay the completion and become Ready again. */
    method RunnerComplete(reply: Result<seq<bv8>, ServerError>) returns (r: Result<(), ServerError>)
      requires Valid()
      modifies this
      ensures Valid() && nextHeartbeat == old(nextHeartbeat) && toRunner == old(toRunner) && enabled == old(enabled)
      ensures reply.Ok? ==> state == Ready && toQueue == old(toQueue) + [RunnerReply(reply.value)] && r.Ok?
      ensures reply.Err? ==> state == old(state) && toQueue == old(toQueue) && r == Err(reply.error)
    {
      if reply.Err? {
        return Err(reply.error);
      }
      toQueue := toQueue + [RunnerReply(reply.value)];
      SetState(Ready);
      r := Ok(());
    }

    /** The timeout branch of `run`: schedule the next heartbeat and send this one. */
    method HeartbeatTimeout(now: int)
      requires Valid()
      modifies this
      ensures Valid() && state == old(state) && toRunner == old(toRunner) && enabled == old(enabled)
      ensures nextHeartbeat == now + pingInterval && toQueue == old(toQueue) + [Heartbeat(HeartbeatState(state))]
    {
      nextHeartbeat := now + pingInterval;
      toQueue := toQueue + [Heartbeat(heartbeat)];
    }

    /** `wait_timeout`: how long until the next heartbeat, never negative. */
    function WaitTimeout(now: int): (t: int)
      reads this
      ensures t >= 0
      ensures now <= nextHeartbeat ==> now + t == nextHeartbeat
      ensures now >= nextHeartbeat ==> t == 0
    {
      var time := nextHeartbeat - now;
      if time < 0 then 0 else time
    }

    /** `enable_features_from_config`: only an entry reading "LIST" enables anything. */
    method EnableFeatures()
      modifies this`enabled
      ensures ListRequested(config.featuresEnabled) ==> enabled == old(enabled) + {List}
      ensures !ListRequested(config.featuresEnabled) ==> enabled == old(enabled)
    {
      var fe := config.featuresEnabled;
      var found := ScanForList(Str.Split(fe, ','));
      assert found == ListRequested(fe);
      if found {
        enabled := enabled + {List};
      }
    }

    /**
     * The start of `run`: without an auth token the worker stops with
     * `NoAuthTokenError` before doing anything else; otherwise it enables
     * the configured features and goes on to connect.
     */
    method Start() returns (r: Result<(), ServerError>)
      modifies this`enabled
      ensures config.authToken == [] ==> r == Err(NoAuthTokenError) && enabled == old(enabled)
      ensures config.authToken != [] ==> r.Ok?
      ensures config.authToken != [] && ListRequested(config.featuresEnabled) ==> enabled == old(enabled) + {List}
      ensures !ListRequested(config.featuresEnabled) ==> enabled == old(enabled)
    {
      if config.authToken == [] {
        return Err(NoAuthTokenError);
      }
      EnableFeatures();
      r := Ok(());
    }
  }

  /**
   * One job taken by a Ready worker, a second one arriving while it is
   * busy, and then the runner's completion: the second job is rejected and
   * the worker is Ready again, with its heartbeat saying so.
   */
  method AcceptRejectComplete(s: Server, first: Job, second: Job, ack: seq<bv8>, done: seq<bv8>)
    requires s.Valid() && s.state == Ready
    modifies s
    ensures s.Valid() && s.state == Ready && s.heartbeat == WorkerReady
    ensures s.toRunner == old(s.toRunner) + [first]
    ensures s.toQueue == old(s.toQueue) + [RunnerReply(ack), JobReply(second.(state := Rejected)), RunnerReply(done)]
  {
    var _ := s.HandleMessage(first, Ok(ack));
    var _ := s.HandleMessage(second, Ok(ack));
    var _ := s.RunnerComplete(Ok(done));
  }

  lemma TrimListExample()
    ensures Str.Trim(" list ") == "list"
  {
    assert Str.TrimStart("list ") == "list ";
    assert Str.TrimStart(" list ") == "list ";
    assert Str.TrimEnd("list") == "list";
    assert Str.TrimEnd("list ") == "list";
  }

  lemma UpperListExample()
    ensures Str.UpperStr("list") == "LIST"
  {
    var u := Str.UpperStr("list");
    assert u[0] == 'L' && u[1] == 'I' && u[2] == 'S' && u[3] == 'T';
  }

  /** Entries are matched after trimming and upper-casing, so " list" enables the feature. */
  lemma ListVariant()
    ensures ListRequested(" list ")
  {
    var parts := Str.Split(" list ", ',');
    assert parts == [" list "];
    TrimListExample();
    UpperListExample();
    assert IsListEntry(parts[0]);
  }
}
