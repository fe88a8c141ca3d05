/**
 * The Supervisor protocol's service vocabulary: election, health, process
 * and smoke-check states, start styles, topologies and update strategies,
 * with their text forms and defaults, and the service specification with
 * its defaults.
 */
module ProtocolService {
  import Wrappers
  type Option<T> = Wrappers.Option<T>
  type Result<T, E> = Wrappers.Result<T, E>

  const DefaultGroup: string := "default"
  const StableChannel: string := "stable"
  const DefaultBldrUrl: string := "https://bldr.habitat.sh"

  datatype ElectionStatus = None | ElectionInProgress | ElectionNoQuorum | ElectionFinished
  {
    function Text(): string
    {
      match this
      case ElectionInProgress => "in-progress"
      case ElectionNoQuorum => "no-quorum"
      case ElectionFinished => "finished"
      case None => "none"
    }
  }

  lemma ElectionStatusTexts()
    ensures ElectionStatus.None.Text() == "none" && ElectionInProgress.Text() == "in-progress"
    ensures ElectionNoQuorum.Text() == "no-quorum" && ElectionFinished.Text() == "finished"
  {
  }

  datatype HealthCheck = Ok | Warning | Critical | Unknown

  datatype ProcessState = Down | Up
  {
    function Text(): string
    {
      match this
      case Down => "down"
      case Up => "up"
    }
  }

  lemma ProcessStateTexts()
    ensures Down.Text() == "down" && Up.Text() == "up"
  {
  }

  datatype SmokeCheck = Ok | Failed(code: int) | Pending

  datatype StartStyle = Persistent | Transient
  {
    function Text(): string
    {
      match this
      case Persistent => "persistent"
      case Transient => "transient"
    }
  }

  lemma StartStyleTexts()
    ensures Persistent.Text() == "persistent" && Transient.Text() == "transient"
  {
  }

  datatype Topology = Standalone | Leader
  {
    function Text(): string
    {
      match this
      case Leader => "leader"
      case Standalone => "standalone"
    }
  }

  datatype UpdateStrategy = None | AtOnce | Rolling
  {
    function Text(): string
    {
      match this
      case None => "none"
      case AtOnce => "at-once"
      case Rolling => "rolling"
    }
  }

  datatype ParseError = InvalidTopology(text: string) | InvalidUpdateStrategy(text: string)

  /** Parsing a topology accepts exactly the display texts. */
  function TopologyFromStr(s: string): (r: Result<Topology, ParseError>)
    ensures r.Ok? ==> r.value.Text() == s
    ensures r.Err? ==> r.error == InvalidTopology(s)
  {
    if s == "leader" then Wrappers.Ok(Leader)
    else if s == "standalone" then Wrappers.Ok(Standalone)
    else Wrappers.Err(InvalidTopology(s))
  }

  function UpdateStrategyFromStr(s: string): (r: Result<UpdateStrategy, ParseError>)
    ensures r.Ok? ==> r.value.Text() == s
    ensures r.Err? ==> r.error == InvalidUpdateStrategy(s)
  {
    if s == "none" then Wrappers.Ok(UpdateStrategy.None)
    else if s == "at-once" then Wrappers.Ok(AtOnce)
    else if s == "rolling" then Wrappers.Ok(Rolling)
    else Wrappers.Err(InvalidUpdateStrategy(s))
  }

  lemma TopologyRoundTrip(t: Topology, s: string)
    ensures TopologyFromStr(t.Text()) == Wrappers.Ok(t)
    ensures TopologyFromStr(s).Ok? <==> s == "leader" || s == "standalone"
  {
  }

  lemma UpdateStrategyRoundTrip(u: UpdateStrategy, s: string)
    ensures UpdateStrategyFromStr(u.Text()) == Wrappers.Ok(u)
    ensures UpdateStrategyFromStr(s).Ok? <==> s == "none" || s == "at-once" || s == "rolling"
  {
  }

  /** Every text mapping gives different variants different strings. */
  lemma TextsDistinct(e1: ElectionStatus, e2: ElectionStatus, p1: ProcessState, p2: ProcessState,
                      s1: StartStyle, s2: StartStyle, t1: Topology, t2: Topology, u1: UpdateStrategy, u2: UpdateStrategy)
    ensures e1.Text() == e2.Text() ==> e1 == e2
    ensures p1.Text() == p2.Text() ==> p1 == p2
    ensures s1.Text() == s2.Text() ==> s1 == s2
    ensures t1.Text() == t2.Text() ==> t1 == t2
    ensures u1.Text() == u2.Text() ==> u1 == u2
  {
    if t1.Text() == t2.Text() {
      TopologyRoundTrip(t1, "");
      TopologyRoundTrip(t2, "");
    }
    if u1.Text() == u2.Text() {
      UpdateStrategyRoundTrip(u1, "");
      UpdateStrategyRoundTrip(u2, "");
    }
  }

  /** The `Default` impls. */
  function DefaultElectionStatus(): ElectionStatus { ElectionStatus.None }
  function DefaultHealthCheck(): HealthCheck { Unknown }
  function DefaultSmokeCheck(): SmokeCheck { Pending }
  function DefaultStartStyle(): StartStyle { Transient }
  function DefaultTopology(): Topology { Standalone }
  function DefaultUpdateStrategy(): UpdateStrategy { UpdateStrategy.None }

  lemma Defaults()
    ensures DefaultElectionStatus().Text() == "none"
    ensures DefaultHealthCheck() == Unknown
    ensures DefaultSmokeCheck() == Pending
    ensures DefaultStartStyle().Text() == "transient"
    ensures TopologyFromStr("standalone") == Wrappers.Ok(DefaultTopology())
    ensures UpdateStrategyFromStr("none") == Wrappers.Ok(DefaultUpdateStrategy())
  {
  }

  /** A package identifier: origin/name, optionally with version and release. */
  datatype PackageIdent = PackageIdent(origin: string, name: string, version: Option<string>, release: Option<string>)

  datatype ApplicationEnvironment = ApplicationEnvironment(application: string, environment: string)

  datatype ServiceBind = ServiceBind(name: string, serviceGroup: string)
  {
    /** "name:service_group". */
    function Text(): string
    {
      name + ":" + serviceGroup
    }
  }

  /** A bind name without ':' can be read back off the display text. */
  lemma ServiceBindText(b: ServiceBind)
    requires ':' !in b.name
    ensures var s := b.Text();
      |s| > |b.name| && s[|b.name|] == ':' && ':' !in s[..|b.name|] &&
      s[..|b.name|] == b.name && s[|b.name| + 1..] == b.serviceGroup
  {
    var s := b.Text();
    assert s[..|b.name|] == b.name;
  }

  datatype ServiceSpec = ServiceSpec(
    ident: PackageIdent,
    group: string,
    applicationEnvironment: Option<ApplicationEnvironment>,
    bldrUrl: string,
    channel: string,
    topology: Topology,
    updateStrategy: UpdateStrategy,
    binds: seq<ServiceBind>,
    configFrom: Option<string>,
    desiredState: ProcessState,
    startStyle: StartStyle,
    svcEncryptedPassword: Option<string>,
    composite: Option<string>)

  /** `ServiceSpec::default`. */
  function DefaultServiceSpec(): (spec: ServiceSpec)
    ensures spec.group == "default" && spec.desiredState == Up && spec.binds == []
    ensures spec.configFrom.None? && spec.svcEncryptedPassword.None? && spec.composite.None?
    ensures spec.applicationEnvironment.None?
    ensures spec.channel == "stable" && spec.bldrUrl == "https://bldr.habitat.sh"
    ensures spec.topology.Text() == "standalone" && spec.updateStrategy.Text() == "none"
    ensures spec.startStyle.Text() == "transient"
    ensures spec.ident == PackageIdent("", "", Wrappers.None, Wrappers.None)
  {
    ServiceSpec(PackageIdent("", "", Wrappers.None, Wrappers.None), DefaultGroup, Wrappers.None, DefaultBldrUrl, StableChannel,
      DefaultTopology(), DefaultUpdateStrategy(), [], Wrappers.None, Up, DefaultStartStyle(), Wrappers.None, Wrappers.None)
  }

  /**
   * The protocol's view of a running service. The `spec` field stands for
   * the accessors that read the service's spec (service.rs:192-246).
   */
  datatype Service = Service(
    electionStatus: ElectionStatus,
    healthCheck: HealthCheck,
    pid: Option<int>,
    pkgIdent: string,
    serviceGroup: string,
    smokeCheck: SmokeCheck,
    state: ProcessState,
    stateEntered: nat,
    spec: ServiceSpec)
  {
    /** "service_group [ident]". */
    function Text(): string
    {
      serviceGroup + " [" + pkgIdent + "]"
    }
  }

  /** The display text holds the service group, then the package ident in brackets, each readable at its place. */
  lemma ServiceTextFields(s: Service)
    ensures var t := s.Text(); var g := |s.serviceGroup|;
            |t| == g + |s.pkgIdent| + 3 && t[..g] == s.serviceGroup && t[g..g + 2] == " [" &&
            t[g + 2..|t| - 1] == s.pkgIdent && t[|t| - 1] == ']'
  {
    var t := s.Text();
    var g := |s.serviceGroup|;
    assert t == s.serviceGroup + " [" + s.pkgIdent + "]";
    assert t[..g] == s.serviceGroup;
    assert t[g..g + 2] == " [";
    assert t[g + 2..|t| - 1] == s.pkgIdent;
  }
}
