/**
 * The Supervisor's client to the Launcher: requests to spawn, restart and
 * terminate processes, and the dispatch that turns a reply into a result.
 * A reply can instead report a launcher error, or announce that the
 * launcher is shutting down, which raises the process-wide stopping flag.
 *
 * Serialization, the socket and protobuf decoding are done by code
 * outside this model: their results are inputs, and the socket is the
 * log `sent` of requests that went out.
 */
module LauncherClient {
  import Wrappers
  type Option<T> = Wrappers.Option<T>
  type Result<T, E> = Wrappers.Result<T, E>

  datatype DecodeError = DecodeError(reason: string)

  /** A launcher-reported error. */
  datatype NetErr = NetErr(code: int, msg: string)

  datatype Error = Deserialize(cause: DecodeError) | Protocol(err: NetErr) | Shutdown | Serialize | Socket

  /** A transaction read off the wire: its message id and undecoded payload. */
  datatype NetTxn = NetTxn(messageId: string, payload: seq<bv8>)

  /** How each kind of payload decodes; `body` decodes the reply type expected. */
  datatype Codec<T> = Codec(
    parse: seq<bv8> -> Result<NetTxn, DecodeError>,
    netErr: seq<bv8> -> Result<NetErr, DecodeError>,
    shutdown: seq<bv8> -> Result<(), DecodeError>,
    body: seq<bv8> -> Result<T, DecodeError>)

  /** The process-wide `IS_STOPPING` flag. */
  class StopFlag {
    var isStopping: bool

    constructor ()
      ensures !isStopping
    {
      isStopping := false;
    }
  }

  /**
   * `read_msg`: the result, and whether the reply raises the stopping
   * flag.
   */
  function ReadOutcome<T>(bytes: seq<bv8>, codec: Codec<T>): (Result<T, Error>, bool)
  {
    match codec.parse(bytes)
    case Err(e) => (Wrappers.Err(Deserialize(e)), false)
    case Ok(txn) =>
      if txn.messageId == "NetErr" then
        match codec.netErr(txn.payload)
        case Err(e) => (Wrappers.Err(Deserialize(e)), false)
        case Ok(err) => (Wrappers.Err(Protocol(err)), false)
      else if txn.messageId == "Shutdown" then
        match codec.shutdown(txn.payload)
        case Err(e) => (Wrappers.Err(Deserialize(e)), true)
        case Ok(_) => (Wrappers.Err(Shutdown), true)
      else
        match codec.body(txn.payload)
        case Err(e) => (Wrappers.Err(Deserialize(e)), false)
        case Ok(msg) => (Wrappers.Ok(msg), false)
  }

  /**
   * The dispatch rules: an unparseable envelope is a Deserialize error; a
   * NetErr reply is a Protocol error; a Shutdown reply raises the flag and
   * is a Shutdown error; anything else is decoded as the expected type.
   * Only a Shutdown reply raises the flag.
   */
  lemma ReadOutcomeRule<T>(bytes: seq<bv8>, codec: Codec<T>)
    ensures codec.parse(bytes).Err? ==> ReadOutcome(bytes, codec) == (Wrappers.Err(Deserialize(codec.parse(bytes).error)), false)
    ensures var p := codec.parse(bytes);
      p.Ok? && p.value.messageId == "NetErr" && codec.netErr(p.value.payload).Ok? ==>
        ReadOutcome(bytes, codec) == (Wrappers.Err(Protocol(codec.netErr(p.value.payload).value)), false)
    ensures var p := codec.parse(bytes);
      p.Ok? && p.value.messageId == "Shutdown" && codec.shutdown(p.value.payload).Ok? ==>
        ReadOutcome(bytes, codec) == (Wrappers.Err(Shutdown), true)
    ensures var p := codec.parse(bytes);
      p.Ok? && p.value.messageId != "NetErr" && p.value.messageId != "Shutdown" ==>
        ReadOutcome(bytes, codec).1 == false &&
        (codec.body(p.value.payload).Ok? <==> ReadOutcome(bytes, codec).0.Ok?) &&
        (codec.body(p.value.payload).Ok? ==> ReadOutcome(bytes, codec).0.value == codec.body(p.value.payload).value)
    ensures ReadOutcome(bytes, codec).1 <==> codec.parse(bytes).Ok? && codec.parse(bytes).value.messageId == "Shutdown"
    ensures ReadOutcome(bytes, codec).0.Ok? ==> !ReadOutcome(bytes, codec).1
  {
  }

  /** `read_msg` itself, storing into the flag as the dispatch says. */
  method ReadMsg<T>(flag: StopFlag, bytes: seq<bv8>, codec: Codec<T>) returns (r: Result<T, Error>)
    modifies flag
    ensures var (res, stops) := ReadOutcome(bytes, codec);
      r == res && flag.isStopping == (old(flag.isStopping) || stops)
  {
    var txn := codec.parse(bytes);
    if txn.Err? {
      return Wrappers.Err(Deserialize(txn.error));
    }
    if txn.value.messageId == "NetErr" {
      var err := codec.netErr(txn.value.payload);
      if err.Err? {
        return Wrappers.Err(Deserialize(err.error));
      }
      return Wrappers.Err(Protocol(err.value));
    }
    if txn.value.messageId == "Shutdown" {
      flag.isStopping := true;
      var s := codec.shutdown(txn.value.payload);
      if s.Err? {
        return Wrappers.Err(Deserialize(s.error));
      }
      return Wrappers.Err(Shutdown);
    }
    var msg := codec.body(txn.value.payload);
    if msg.Err? {
      return Wrappers.Err(Deserialize(msg.error));
    }
    r := Wrappers.Ok(msg.value);
  }

  /** The `Spawn` request. */
  datatype SpawnMsg = SpawnMsg(id: string, binary: string, svcUser: string, svcGroup: string,
                               svcPassword: Option<string>, env: map<string, string>)

  datatype Request = SpawnReq(spawn: SpawnMsg) | RestartReq(pid: int) | TerminateReq(pid: int)

  datatype SpawnOk = SpawnOk(pid: int)
  datatype TerminateOk = TerminateOk(exitCode: int)

  /** The request `spawn` builds: the password field is set only when a password is given. */
  function BuildSpawn(id: string, bin: string, user: string, group: string, password: Option<string>,
                      env: map<string, string>): (m: SpawnMsg)
    ensures password.None? <==> m.svcPassword.None?
    ensures password.Some? ==> m.svcPassword == password
    ensures m.id == id && m.binary == bin && m.svcUser == user && m.svcGroup == group && m.env == env
  {
    var m := SpawnMsg(id, bin, user, group, Wrappers.None, env);
    if password.Some? then m.(svcPassword := password) else m
  }

  /** What the socket does with one exchange: whether the send and the receive succeed, and the bytes received. */
  datatype Exchange = Exchange(sendOk: Result<(), Error>, received: Result<seq<bv8>, Error>)

  /** The outcome of one request and its reply, before the reply's field is taken out. */
  function RoundTrip<T>(x: Exchange, codec: Codec<T>): (Result<T, Error>, bool)
  {
    if x.sendOk.Err? then (Wrappers.Err(x.sendOk.error), false)
    else if x.received.Err? then (Wrappers.Err(x.received.error), false)
    else ReadOutcome(x.received.value, codec)
  }

  /** A failed send is reported as it is, and nothing is read. */
  lemma RoundTripRule<T>(x: Exchange, codec: Codec<T>)
    ensures x.sendOk.Err? ==> RoundTrip(x, codec) == (Wrappers.Err(x.sendOk.error), false)
    ensures x.sendOk.Ok? && x.received.Ok? ==> RoundTrip(x, codec) == ReadOutcome(x.received.value, codec)
  {
  }

  class LauncherCli {
    /** The requests that reached the socket, in order. */
    var sent: seq<Request>
    /** The last message received. */
    var msgBuf: seq<bv8>

    constructor ()
      ensures sent == [] && msgBuf == []
    {
      sent := [];
      msgBuf := [];
    }

    /** `send`: a request that cannot be serialized or sent leaves the log as it was. */
    method Send(req: Request, ok: Result<(), Error>) returns (r: Result<(), Error>)
      modifies this`sent
      ensures r == ok
      ensures ok.Ok? ==> sent == old(sent) + [req]
      ensures ok.Err? ==> sent == old(sent)
    {
      if ok.Ok? {
        sent := sent + [req];
      }
      r := ok;
    }

    /** `wait_recv`: receive into the buffer and read it. */
    method WaitRecv<T>(flag: StopFlag, received: Result<seq<bv8>, Error>, codec: Codec<T>) returns (r: Result<T, Error>)
      modifies this`msgBuf, flag
      ensures received.Err? ==> r == Wrappers.Err(received.error) && msgBuf == old(msgBuf) && flag.isStopping == old(flag.isStopping)
      ensures received.Ok? ==> (msgBuf == received.value &&
        r == ReadOutcome(received.value, codec).0 && flag.isStopping == (old(flag.isStopping) || ReadOutcome(received.value, codec).1))
    {
      if received.Err? {
        return Wrappers.Err(received.error);
      }
      msgBuf := received.value;
      r := ReadMsg(flag, msgBuf, codec);
    }

    /** `spawn`: send the request, then read the spawned pid from the reply. */
    method Spawn(flag: StopFlag, id: string, bin: string, user: string, group: string, password: Option<string>,
                 env: map<string, string>, x: Exchange, codec: Codec<SpawnOk>) returns (r: Result<int, Error>)
      modifies this, flag
      ensures x.sendOk.Ok? ==> sent == old(sent) + [SpawnReq(BuildSpawn(id, bin, user, group, password, env))]
      ensures x.sendOk.Err? ==> sent == old(sent)
      ensures var (res, stops) := RoundTrip(x, codec);
        (res.Ok? <==> r.Ok?) && (res.Ok? ==> r.value == res.value.pid) && (res.Err? ==> r.error == res.error) &&
        flag.isStopping == (old(flag.isStopping) || stops)
    {
      var msg := BuildSpawn(id, bin, user, group, password, env);
      var s := Send(SpawnReq(msg), x.sendOk);
      if s.Err? {
        return Wrappers.Err(s.error);
      }
      var reply := WaitRecv(flag, x.received, codec);
      if reply.Err? {
        return Wrappers.Err(reply.error);
      }
      r := Wrappers.Ok(reply.value.pid);
    }

    /** `restart`: the same exchange with a Restart request. */
    method Restart(flag: StopFlag, pid: int, x: Exchange, codec: Codec<SpawnOk>) returns (r: Result<int, Error>)
      modifies this, flag
      ensures x.sendOk.Ok? ==> sent == old(sent) + [RestartReq(pid)]
      ensures x.sendOk.Err? ==> sent == old(sent)
      ensures var (res, stops) := RoundTrip(x, codec);
        (res.Ok? <==> r.Ok?) && (res.Ok? ==> r.value == res.value.pid) && (res.Err? ==> r.error == res.error) &&
        flag.isStopping == (old(flag.isStopping) || stops)
    {
      var s := Send(RestartReq(pid), x.sendOk);
      if s.Err? {
        return Wrappers.Err(s.error);
      }
      var reply := WaitRecv(flag, x.received, codec);
      if reply.Err? {
        return Wrappers.Err(reply.error);
      }
      r := Wrappers.Ok(reply.value.pid);
    }

    /** `terminate`: a Terminate request, answered with the exit code. */
    method Terminate(flag: StopFlag, pid: int, x: Exchange, codec: Codec<TerminateOk>) returns (r: Result<int, Error>)
      modifies this, flag
      ensures x.sendOk.Ok? ==> sent == old(sent) + [TerminateReq(pid)]
      ensures x.sendOk.Err? ==> sent == old(sent)
      ensures var (res, stops) := RoundTrip(x, codec);
        (res.Ok? <==> r.Ok?) && (res.Ok? ==> r.value == res.value.exitCode) && (res.Err? ==> r.error == res.error) &&
        flag.isStopping == (old(flag.isStopping) || stops)
    {
      var s := Send(TerminateReq(pid), x.sendOk);
      if s.Err? {
        return Wrappers.Err(s.error);
      }
      var reply := WaitRecv(flag, x.received, codec);
      if reply.Err? {
        return Wrappers.Err(reply.error);
      }
      r := Wrappers.Ok(reply.value.exitCode);
    }
  }
}
