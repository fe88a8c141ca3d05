/**
 * The Supervisor's HTTP gateway, as far as it decides anything itself:
 * the listen address and its parsing fallback, how a health check and a
 * manager answer become an HTTP response, and the Bad Request answer to a
 * request whose service group cannot be built.
 *
 * Parsing socket addresses and IP addresses, building a service group,
 * asking the manager and serializing to JSON are done by code outside
 * this model; their answers are parameters.
 */
module HttpGateway {
  import Wrappers
  import PS = ProtocolService
  type Option<T> = Wrappers.Option<T>
  type Result<T, E> = Wrappers.Result<T, E>

  newtype u16 = x: int | 0 <= x < 0x1_0000

  datatype IpAddr = IpV4(a: bv8, b: bv8, c: bv8, d: bv8) | IpV6(segments: seq<bv16>)

  datatype SocketAddr = SocketAddr(ip: IpAddr, port: u16)

  /** `ListenAddr` wraps one socket address. */
  datatype ListenAddr = ListenAddr(addr: SocketAddr)

  datatype SupError = IPFailed

  const DefaultPort: u16 := 9631

  /** `ListenAddr::default`: 0.0.0.0 on port 9631. */
  function DefaultListenAddr(): (l: ListenAddr)
    ensures l.addr.ip == IpV4(0, 0, 0, 0) && l.addr.port == 9631
  {
    ListenAddr(SocketAddr(IpV4(0, 0, 0, 0), DefaultPort))
  }

  /**
   * `ListenAddr::from_str`: `asSocket` and `asIp` are what the standard
   * parsers make of the same text. A full socket address is kept as it
   * is; a bare IP address gets the default port; anything else fails.
   */
  function ListenAddrFromStr(asSocket: Option<SocketAddr>, asIp: Option<IpAddr>): (r: Result<ListenAddr, SupError>)
    ensures asSocket.Some? ==> r == Wrappers.Ok(ListenAddr(asSocket.value))
    ensures asSocket.None? && asIp.Some? ==> r.Ok? && r.value.addr == SocketAddr(asIp.value, 9631)
    ensures r.Err? <==> asSocket.None? && asIp.None?
    ensures r.Err? ==> r.error == IPFailed
  {
    match asSocket
    case Some(addr) => Wrappers.Ok(ListenAddr(addr))
    case None =>
      match asIp
      case Some(ip) =>
        var dflt := DefaultListenAddr();
        Wrappers.Ok(ListenAddr(dflt.addr.(ip := ip)))
      case None => Wrappers.Err(IPFailed)
  }

  /** A parsed address is either the socket address given or the default one with another IP. */
  lemma FromStrKeepsPortOrDefaults(asSocket: Option<SocketAddr>, asIp: Option<IpAddr>)
    ensures var r := ListenAddrFromStr(asSocket, asIp);
      r.Ok? ==> (asSocket.Some? && r.value.addr.port == asSocket.value.port) ||
                r.value == ListenAddr(DefaultListenAddr().addr.(ip := r.value.addr.ip))
  {
  }

  const StatusOk: int := 200
  const StatusBadRequest: int := 400
  const StatusInternalServerError: int := 500
  const StatusServiceUnavailable: int := 503

  /** `Into<status::Status> for HealthCheck`. */
  function HealthStatus(h: PS.HealthCheck): int
  {
    match h
    case Ok => StatusOk
    case Warning => StatusOk
    case Critical => StatusServiceUnavailable
    case Unknown => StatusInternalServerError
  }

  /**
   * Ok and Warning answer 200, Critical 503, Unknown 500: a passing or
   * warning check is a success (section 6.3.1 of RFC 7231), a failing
   * one a server error (sections 6.6.4 and 6.6.1).
   */
  lemma HealthStatusRule(h: PS.HealthCheck)
    ensures HealthStatus(h) == 200 <==> h == PS.HealthCheck.Ok || h == PS.Warning
    ensures HealthStatus(h) == 503 <==> h == PS.Critical
    ensures HealthStatus(h) == 500 <==> h == PS.Unknown
    ensures 500 <= HealthStatus(h) < 600 <==> h == PS.Critical || h == PS.Unknown
  {
  }

  datatype ContentType = Json | Html

  datatype Response = Response(status: int, contentType: Option<ContentType>, body: string)

  /** A response carrying only a status. */
  function Bare(status: int): Response
  {
    Response(status, Wrappers.None, "")
  }

  /** `render`: an answer is sent as JSON with 200, an error as a bare 503. */
  function Render<T, E>(result: Result<T, E>, toJson: T -> string): (resp: Response)
    ensures result.Ok? ==> resp == Response(200, Wrappers.Some(Json), toJson(result.value))
    ensures result.Err? ==> resp == Bare(503)
  {
    match result
    case Ok(data) => Response(StatusOk, Wrappers.Some(Json), toJson(data))
    case Err(_) => Bare(StatusServiceUnavailable)
  }

  /**
   * `build_service_group`: the route's application environment, when
   * present and parseable, the service and group names (empty when
   * missing) and the optional organization go to `newGroup`.
   */
  function BuildServiceGroup<A, G, E>(params: map<string, string>, parseEnv: string -> Option<A>,
                                      newGroup: (Option<A>, string, string, Option<string>) -> Result<G, E>): Result<G, E>
  {
    var env := if "application_environment" in params then parseEnv(params["application_environment"]) else Wrappers.None;
    newGroup(env, Lookup(params, "svc"), Lookup(params, "group"), if "org" in params then Wrappers.Some(params["org"]) else Wrappers.None)
  }

  /**
   * An application environment that does not parse counts as no
   * environment at all, and a missing service or group name as an empty
   * one.
   */
  lemma BuildServiceGroupDefaults<A, G, E>(params: map<string, string>, parseEnv: string -> Option<A>,
                                           newGroup: (Option<A>, string, string, Option<string>) -> Result<G, E>)
    ensures "application_environment" in params && parseEnv(params["application_environment"]).None? ==>
      BuildServiceGroup(params, parseEnv, newGroup) == BuildServiceGroup(params - {"application_environment"}, parseEnv, newGroup)
    ensures "svc" !in params ==> BuildServiceGroup(params, parseEnv, newGroup) == BuildServiceGroup(params["svc" := ""], parseEnv, newGroup)
    ensures "group" !in params ==> BuildServiceGroup(params, parseEnv, newGroup) == BuildServiceGroup(params["group" := ""], parseEnv, newGroup)
  {
    var k := "application_environment";
    if k in params && parseEnv(params[k]).None? {
      var q := params - {k};
      assert "svc" != k && "group" != k && "org" != k;
      assert Lookup(q, "svc") == Lookup(params, "svc");
      assert Lookup(q, "group") == Lookup(params, "group");
      assert ("org" in q) == ("org" in params);
    }
  }

  /** `find(key).unwrap_or("")`. */
  function Lookup(params: map<string, string>, key: string): (v: string)
    ensures key in params ==> v == params[key]
    ensures key !in params ==> v == ""
  {
    if key in params then params[key] else ""
  }

  /**
   * The `config`, `health` and `service` handlers: a service group that
   * cannot be built is a Bad Request; otherwise the manager's answer for
   * it is rendered.
   */
  function ServiceGroupHandler<G, E, T, F>(group: Result<G, E>, ask: G -> Result<T, F>, toJson: T -> string): (resp: Response)
    ensures group.Err? ==> resp == Bare(400)
    ensures group.Ok? ==> resp == Render(ask(group.value), toJson)
  {
    match group
    case Err(_) => Bare(StatusBadRequest)
    case Ok(sg) => Render(ask(sg), toJson)
  }

  /** A request on a service group answers 400, 200 or 503, and 200 exactly when both the group and the answer exist. */
  lemma ServiceGroupStatuses<G, E, T, F>(group: Result<G, E>, ask: G -> Result<T, F>, toJson: T -> string)
    ensures var s := ServiceGroupHandler(group, ask, toJson).status; s == 400 || s == 200 || s == 503
    ensures ServiceGroupHandler(group, ask, toJson).status == 200 <==> group.Ok? && ask(group.value).Ok?
    ensures ServiceGroupHandler(group, ask, toJson).status == 400 <==> group.Err?
  {
  }

  /** `doc`: always 200 with the HTML API documentation. */
  function Doc(apiDocs: string): (resp: Response)
    ensures resp.status == 200 && resp.contentType == Wrappers.Some(Html) && resp.body == apiDocs
  {
    Response(StatusOk, Wrappers.Some(Html), apiDocs)
  }

  /** `service_mut` and `services_mut` are placeholders that always answer 200 with no body. */
  function Mutation(): (resp: Response)
    ensures resp == Bare(200)
  {
    Bare(StatusOk)
  }
}
