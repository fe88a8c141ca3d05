/**
 * The Supervisor protocol's generated message types (proto2): optional
 * fields that are set or unset, getters that fall back to the field's
 * declared default, `is_initialized` over required fields and nested
 * messages, `clear`, and the enums' number mappings.
 *
 * A message is a value whose optional fields are `Option`s, as the
 * generated structs own their nested messages. The in-place accessors of
 * one field (`set_`, `has_`, `clear_`, `mut_`, `take_`, `get_`) act on a
 * `SingularField`, which is what every generated accessor delegates to.
 */
module GeneratedTypes {
  import Wrappers
  type Option<T> = Wrappers.Option<T>

  /** A field's value, or `dflt` when it is unset. */
  function OrElse<T>(o: Option<T>, dflt: T): (r: T)
    ensures o.Some? ==> r == o.value
    ensures o.None? ==> r == dflt
  {
    match o
    case Some(v) => v
    case None => dflt
  }

  /** One optional field as the protobuf runtime holds it. */
  class SingularField<T> {
    var value: Option<T>

    constructor ()
      ensures value.None?
    {
      value := Wrappers.None;
    }

    function Has(): bool
      reads this
    {
      value.Some?
    }

    /** The getter: the stored value, or the field's declared default. */
    function Get(dflt: T): T
      reads this
    {
      OrElse(value, dflt)
    }

    method Clear()
      modifies this
      ensures value.None?
    {
      value := Wrappers.None;
    }

    method Set(v: T)
      modifies this
      ensures value == Wrappers.Some(v)
    {
      value := Wrappers.Some(v);
    }

    /** `mut_x`: an unset field is first set to the type's zero value (not the declared default). */
    method Mut(zero: T) returns (r: T)
      modifies this
      ensures old(value).None? ==> value == Wrappers.Some(zero) && r == zero
      ensures old(value).Some? ==> value == old(value) && r == old(value).value
    {
      if value.None? {
        value := Wrappers.Some(zero);
      }
      r := value.value;
    }

    /** `take_x`: returns the stored value or the type's zero value, and leaves the field unset. */
    method Take(zero: T) returns (r: T)
      modifies this
      ensures value.None? && r == OrElse(old(value), zero)
    {
      r := OrElse(value, zero);
      value := Wrappers.None;
    }
  }

  /**
   * The accessor rules on one string field with declared default "default"
   * (as `ApplicationEnvironment.environment`): set then get returns the
   * value, clear makes it read the default again, `mut_` of an unset field
   * reads "" afterwards, and `take_` returns the value and unsets the field.
   */
  method AccessorRules(f: SingularField<string>, v: string) returns (afterSet: string, afterClear: string, afterMut: string, taken: string)
    modifies f
    ensures afterSet == v && afterClear == "default" && afterMut == "" && taken == ""
    ensures !f.Has()
  {
    f.Set(v);
    assert f.Has();
    afterSet := f.Get("default");
    f.Clear();
    afterClear := f.Get("default");
    var _ := f.Mut("");
    afterMut := f.Get("default");
    taken := f.Take("");
  }

  // The enums and their wire numbers.

  datatype InstallSource = Ident | Archive
  {
    function Value(): int { match this case Ident => 0 case Archive => 1 }
  }

  function InstallSourceFromI32(i: int): (r: Option<InstallSource>)
    ensures r.Some? <==> 0 <= i <= 1
    ensures r.Some? ==> r.value.Value() == i
  {
    if i == 0 then Wrappers.Some(Ident) else if i == 1 then Wrappers.Some(Archive) else Wrappers.None
  }

  datatype ProcessState = Down | Up
  {
    function Value(): int { match this case Down => 0 case Up => 1 }
  }

  function ProcessStateFromI32(i: int): (r: Option<ProcessState>)
    ensures r.Some? <==> 0 <= i <= 1
    ensures r.Some? ==> r.value.Value() == i
  {
    if i == 0 then Wrappers.Some(Down) else if i == 1 then Wrappers.Some(Up) else Wrappers.None
  }

  datatype Topology = Standalone | Leader
  {
    function Value(): int { match this case Standalone => 0 case Leader => 1 }
  }

  function TopologyFromI32(i: int): (r: Option<Topology>)
    ensures r.Some? <==> 0 <= i <= 1
    ensures r.Some? ==> r.value.Value() == i
  {
    if i == 0 then Wrappers.Some(Standalone) else if i == 1 then Wrappers.Some(Leader) else Wrappers.None
  }

  datatype UpdateStrategy = NoUpdate | AtOnce | Rolling
  {
    function Value(): int { match this case NoUpdate => 0 case AtOnce => 1 case Rolling => 2 }
  }

  function UpdateStrategyFromI32(i: int): (r: Option<UpdateStrategy>)
    ensures r.Some? <==> 0 <= i <= 2
    ensures r.Some? ==> r.value.Value() == i
  {
    if i == 0 then Wrappers.Some(NoUpdate)
    else if i == 1 then Wrappers.Some(AtOnce)
    else if i == 2 then Wrappers.Some(Rolling)
    else Wrappers.None
  }

  datatype BindingMode = Relaxed | Strict
  {
    function Value(): int { match this case Relaxed => 0 case Strict => 1 }
  }

  function BindingModeFromI32(i: int): (r: Option<BindingMode>)
    ensures r.Some? <==> 0 <= i <= 1
    ensures r.Some? ==> r.value.Value() == i
  {
    if i == 0 then Wrappers.Some(Relaxed) else if i == 1 then Wrappers.Some(Strict) else Wrappers.None
  }

  datatype CfgFormat = Toml
  {
    function Value(): int { 0 }
  }

  function CfgFormatFromI32(i: int): (r: Option<CfgFormat>)
    ensures r.Some? <==> i == 0
    ensures r.Some? ==> r.value.Value() == i
  {
    if i == 0 then Wrappers.Some(Toml) else Wrappers.None
  }

  /** `from_i32` undoes `value` for every enum. */
  lemma EnumRoundTrips(a: InstallSource, b: ProcessState, c: Topology, d: UpdateStrategy, e: BindingMode, f: CfgFormat)
    ensures InstallSourceFromI32(a.Value()) == Wrappers.Some(a)
    ensures ProcessStateFromI32(b.Value()) == Wrappers.Some(b)
    ensures TopologyFromI32(c.Value()) == Wrappers.Some(c)
    ensures UpdateStrategyFromI32(d.Value()) == Wrappers.Some(d)
    ensures BindingModeFromI32(e.Value()) == Wrappers.Some(e)
    ensures CfgFormatFromI32(f.Value()) == Wrappers.Some(f)
  {
  }

  // The messages. Each getter falls back to the field's declared default;
  // an unset nested message reads as that message with every field unset.

  datatype ApplicationEnvironment = ApplicationEnvironment(application: Option<string>, environment: Option<string>)
  {
    function GetApplication(): string { OrElse(application, "") }
    function GetEnvironment(): string { OrElse(environment, "default") }
    predicate IsInitialized() { application.Some? }
  }

  const EmptyApplicationEnvironment: ApplicationEnvironment := ApplicationEnvironment(Wrappers.None, Wrappers.None)

  datatype PackageIdent = PackageIdent(origin: Option<string>, name: Option<string>, version: Option<string>, release: Option<string>)
  {
    function GetOrigin(): string { OrElse(origin, "") }
    function GetName(): string { OrElse(name, "") }
    function GetVersion(): string { OrElse(version, "") }
    function GetRelease(): string { OrElse(release, "") }
    predicate IsInitialized() { true }
  }

  const EmptyPackageIdent: PackageIdent := PackageIdent(Wrappers.None, Wrappers.None, Wrappers.None, Wrappers.None)

  /** `elapsed` is an `i64`, `pid` a `u32`. */
  datatype ProcessStatus = ProcessStatus(elapsed: Option<int>, pid: Option<nat>, state: Option<ProcessState>)
  {
    function GetElapsed(): int { OrElse(elapsed, 0) }
    function GetPid(): nat { OrElse(pid, 0) }
    function GetState(): ProcessState { OrElse(state, Down) }
    predicate IsInitialized() { true }
  }

  const EmptyProcessStatus: ProcessStatus := ProcessStatus(Wrappers.None, Wrappers.None, Wrappers.None)

  datatype ServiceGroup = ServiceGroup(service: Option<string>, group: Option<string>,
                                       applicationEnvironment: Option<ApplicationEnvironment>, organization: Option<string>)
  {
    function GetService(): string { OrElse(service, "") }
    function GetGroup(): string { OrElse(group, "default") }
    function GetApplicationEnvironment(): ApplicationEnvironment { OrElse(applicationEnvironment, EmptyApplicationEnvironment) }
    function GetOrganization(): string { OrElse(organization, "") }
    predicate IsInitialized()
    {
      service.Some? && (applicationEnvironment.Some? ==> applicationEnvironment.value.IsInitialized())
    }
  }

  const EmptyServiceGroup: ServiceGroup := ServiceGroup(Wrappers.None, Wrappers.None, Wrappers.None, Wrappers.None)

  datatype ServiceBind = ServiceBind(name: Option<string>, serviceGroup: Option<ServiceGroup>, serviceName: Option<string>)
  {
    function GetName(): string { OrElse(name, "") }
    function GetServiceGroup(): ServiceGroup { OrElse(serviceGroup, EmptyServiceGroup) }
    function GetServiceName(): string { OrElse(serviceName, "") }
    predicate IsInitialized()
    {
      name.Some? && serviceGroup.Some? && serviceGroup.value.IsInitialized()
    }
  }

  const EmptyServiceBind: ServiceBind := ServiceBind(Wrappers.None, Wrappers.None, Wrappers.None)

  datatype ServiceCfg = ServiceCfg(format: Option<CfgFormat>, default: Option<string>)
  {
    function GetFormat(): CfgFormat { OrElse(format, Toml) }
    function GetDefault(): string { OrElse(default, "") }
    predicate IsInitialized() { true }
  }

  const EmptyServiceCfg: ServiceCfg := ServiceCfg(Wrappers.None, Wrappers.None)

  datatype ServiceSpec = ServiceSpec(
    ident: Option<PackageIdent>,
    group: Option<string>,
    applicationEnvironment: Option<ApplicationEnvironment>,
    bldrUrl: Option<string>,
    channel: Option<string>,
    topology: Option<Topology>,
    updateStrategy: Option<UpdateStrategy>,
    binds: seq<ServiceBind>,
    bindingMode: Option<BindingMode>,
    configFrom: Option<string>,
    desiredState: Option<ProcessState>,
    svcEncryptedPassword: Option<string>,
    composite: Option<string>)
  {
    function GetIdent(): PackageIdent { OrElse(ident, EmptyPackageIdent) }
    function GetGroup(): string { OrElse(group, "default") }
    function GetApplicationEnvironment(): ApplicationEnvironment { OrElse(applicationEnvironment, EmptyApplicationEnvironment) }
    function GetBldrUrl(): string { OrElse(bldrUrl, "https://bldr.habitat.sh") }
    function GetChannel(): string { OrElse(channel, "stable") }
    function GetTopology(): Topology { OrElse(topology, Standalone) }
    function GetUpdateStrategy(): UpdateStrategy { OrElse(updateStrategy, NoUpdate) }
    function GetBindingMode(): BindingMode { OrElse(bindingMode, Relaxed) }
    function GetConfigFrom(): string { OrElse(configFrom, "") }
    function GetDesiredState(): ProcessState { OrElse(desiredState, Up) }
    function GetSvcEncryptedPassword(): string { OrElse(svcEncryptedPassword, "") }
    function GetComposite(): string { OrElse(composite, "") }

    predicate IsInitialized()
    {
      ident.Some? && ident.value.IsInitialized() &&
      (applicationEnvironment.Some? ==> applicationEnvironment.value.IsInitialized()) &&
      forall i :: 0 <= i < |binds| ==> binds[i].IsInitialized()
    }
  }

  const EmptyServiceSpec: ServiceSpec := ServiceSpec(Wrappers.None, Wrappers.None, Wrappers.None, Wrappers.None, Wrappers.None,
    Wrappers.None, Wrappers.None, [], Wrappers.None, Wrappers.None, Wrappers.None, Wrappers.None, Wrappers.None)

  datatype ServiceStatus = ServiceStatus(ident: Option<PackageIdent>, process: Option<ProcessStatus>,
                                         serviceGroup: Option<ServiceGroup>, composite: Option<string>)
  {
    function GetIdent(): PackageIdent { OrElse(ident, EmptyPackageIdent) }
    function GetProcess(): ProcessStatus { OrElse(process, EmptyProcessStatus) }
    function GetServiceGroup(): ServiceGroup { OrElse(serviceGroup, EmptyServiceGroup) }
    function GetComposite(): string { OrElse(composite, "") }
    predicate IsInitialized()
    {
      (ident.Some? ==> ident.value.IsInitialized()) &&
      (process.Some? ==> process.value.IsInitialized()) &&
      (serviceGroup.Some? ==> serviceGroup.value.IsInitialized())
    }
  }

  const EmptyServiceStatus: ServiceStatus := ServiceStatus(Wrappers.None, Wrappers.None, Wrappers.None, Wrappers.None)

  /** The unset fields of a `ServiceSpec` read as its declared defaults. */
  lemma ServiceSpecDefaults(s: ServiceSpec)
    ensures s.group.None? ==> s.GetGroup() == "default"
    ensures s.channel.None? ==> s.GetChannel() == "stable"
    ensures s.bldrUrl.None? ==> s.GetBldrUrl() == "https://bldr.habitat.sh"
    ensures s.topology.None? ==> s.GetTopology() == Standalone
    ensures s.updateStrategy.None? ==> s.GetUpdateStrategy() == NoUpdate
    ensures s.bindingMode.None? ==> s.GetBindingMode() == Relaxed
    ensures s.desiredState.None? ==> s.GetDesiredState() == Up
    ensures s.configFrom.None? ==> s.GetConfigFrom() == ""
    ensures s.composite.None? ==> s.GetComposite() == ""
    ensures s.ident.None? ==> s.GetIdent().GetName() == "" && s.GetIdent().GetOrigin() == ""
  {
  }

  /** Unset strings elsewhere read as "", except the "default" environment and group. */
  lemma OtherDefaults(a: ApplicationEnvironment, g: ServiceGroup, p: ProcessStatus, b: ServiceBind)
    ensures a.environment.None? ==> a.GetEnvironment() == "default"
    ensures a.application.None? ==> a.GetApplication() == ""
    ensures g.group.None? ==> g.GetGroup() == "default"
    ensures g.service.None? ==> g.GetService() == ""
    ensures p.state.None? ==> p.GetState() == Down
    ensures p.pid.None? ==> p.GetPid() == 0
    ensures p.elapsed.None? ==> p.GetElapsed() == 0
    ensures b.serviceGroup.None? ==> b.GetServiceGroup() == EmptyServiceGroup && b.GetServiceGroup().GetGroup() == "default"
  {
  }

  /**
   * `ServiceSpec::is_initialized` holds exactly when `ident` is set and
   * every bind names itself and an initialized service group (the nested
   * application environment when set must name its application).
   */
  lemma ServiceSpecInitialized(s: ServiceSpec)
    ensures s.IsInitialized() <==>
      s.ident.Some? &&
      (s.applicationEnvironment.Some? ==> s.applicationEnvironment.value.application.Some?) &&
      forall i :: 0 <= i < |s.binds| ==>
        s.binds[i].name.Some? && s.binds[i].serviceGroup.Some? && s.binds[i].serviceGroup.value.IsInitialized()
  {
  }

  /** A cleared message is not initialized when it has a required field, and is otherwise. */
  lemma ClearedInitialization()
    ensures !EmptyApplicationEnvironment.IsInitialized()
    ensures !EmptyServiceGroup.IsInitialized()
    ensures !EmptyServiceBind.IsInitialized()
    ensures !EmptyServiceSpec.IsInitialized()
    ensures EmptyPackageIdent.IsInitialized() && EmptyProcessStatus.IsInitialized()
    ensures EmptyServiceCfg.IsInitialized() && EmptyServiceStatus.IsInitialized()
  {
  }

  /** An initialized bind, placed in a spec with an ident, keeps the spec initialized. */
  lemma AddBindKeepsInitialized(s: ServiceSpec, b: ServiceBind)
    requires s.IsInitialized() && b.IsInitialized()
    ensures s.(binds := s.binds + [b]).IsInitialized()
  {
    var t := s.(binds := s.binds + [b]);
    forall i | 0 <= i < |t.binds|
      ensures t.binds[i].IsInitialized()
    {
      if i < |s.binds| {
        assert t.binds[i] == s.binds[i];
      }
    }
  }

  /**
   * A `ServiceSpec` held in place: `Clear::clear` unsets every field and
   * empties the binds; the accessors of its `binds` and `ident` mutate it.
   */
  class ServiceSpecMessage {
    var spec: ServiceSpec

    constructor ()
      ensures spec == EmptyServiceSpec
    {
      spec := EmptyServiceSpec;
    }

    method Clear()
      modifies this
      ensures spec == EmptyServiceSpec
      ensures spec.binds == [] && spec.ident.None? && spec.group.None? && spec.composite.None?
    {
      spec := EmptyServiceSpec;
    }

    method SetIdent(v: PackageIdent)
      modifies this
      ensures spec == old(spec).(ident := Wrappers.Some(v))
    {
      spec := spec.(ident := Wrappers.Some(v));
    }

    method TakeIdent() returns (r: PackageIdent)
      modifies this
      ensures r == OrElse(old(spec).ident, EmptyPackageIdent)
      ensures spec == old(spec).(ident := Wrappers.None)
    {
      r := spec.GetIdent();
      spec := spec.(ident := Wrappers.None);
    }

    method SetBinds(v: seq<ServiceBind>)
      modifies this
      ensures spec == old(spec).(binds := v)
    {
      spec := spec.(binds := v);
    }

    /** `take_binds` swaps in an empty list. */
    method TakeBinds() returns (r: seq<ServiceBind>)
      modifies this
      ensures r == old(spec).binds && spec == old(spec).(binds := [])
    {
      r := spec.binds;
      spec := spec.(binds := []);
    }

    method ClearBinds()
      modifies this
      ensures spec == old(spec).(binds := [])
    {
      spec := spec.(binds := []);
    }
  }

  /** After `clear`, every getter of a spec reads its declared default. */
  lemma ClearedSpecReadsDefaults()
    ensures EmptyServiceSpec.GetGroup() == "default" && EmptyServiceSpec.GetChannel() == "stable"
    ensures EmptyServiceSpec.GetTopology() == Standalone && EmptyServiceSpec.GetDesiredState() == Up
    ensures EmptyServiceSpec.GetBindingMode() == Relaxed && EmptyServiceSpec.GetUpdateStrategy() == NoUpdate
    ensures EmptyServiceSpec.GetBldrUrl() == "https://bldr.habitat.sh" && EmptyServiceSpec.GetComposite() == ""
  {
  }
}
