/**
 * The builder worker's configuration: the job server's address and ports,
 * the defaults every field falls back to, and the two "tcp://host:port"
 * addresses derived from them.
 *
 * The job server's default ports and the default Builder URL come from
 * code outside this model and are parameters (`ProtocolDefaults`); the
 * host is its display text.
 */
module WorkerConfig {
  import opened Wrappers
  import Str = Text

  newtype u16 = x: int | 0 <= x < 0x1_0000

  datatype ProtocolDefaults = ProtocolDefaults(workerPort: u16, logPort: u16, bldrUrl: string)

  datatype JobSrvCfg = JobSrvCfg(host: string, port: u16, logPort: u16)

  datatype Config = Config(
    authToken: string,
    autoPublish: bool,
    dataPath: string,
    logPath: string,
    bldrChannel: string,
    bldrUrl: string,
    jobsrv: JobSrvCfg,
    featuresEnabled: string)

  const DefaultHost: string := "127.0.0.1"

  /** `JobSrvCfg::default`. */
  function DefaultJobSrv(d: ProtocolDefaults): (j: JobSrvCfg)
    ensures j.host == "127.0.0.1" && j.port == d.workerPort && j.logPort == d.logPort
  {
    JobSrvCfg(DefaultHost, d.workerPort, d.logPort)
  }

  /** `Config::default`. */
  function DefaultConfig(d: ProtocolDefaults): (c: Config)
    ensures c.authToken == "" && c.autoPublish && c.bldrChannel == "unstable"
    ensures c.dataPath == "/tmp" && c.logPath == "/tmp" && c.featuresEnabled == ""
    ensures c.bldrUrl == d.bldrUrl && c.jobsrv == DefaultJobSrv(d)
  {
    Config("", true, "/tmp", "/tmp", "unstable", d.bldrUrl, DefaultJobSrv(d), "")
  }

  /** "tcp://host:port". */
  function TcpAddr(host: string, port: u16): string
  {
    "tcp://" + host + ":" + Str.NatToString(port as nat)
  }

  function QueueAddr(c: Config): string
  {
    TcpAddr(c.jobsrv.host, c.jobsrv.port)
  }

  function LogAddr(c: Config): string
  {
    TcpAddr(c.jobsrv.host, c.jobsrv.logPort)
  }

  /** The address names the host after "tcp://", and its text after the host and ':' reads back as the port. */
  lemma TcpAddrRoundTrip(host: string, port: u16)
    ensures var a := TcpAddr(host, port); var prefix := "tcp://" + host + ":";
      |a| > |prefix| && a[..|prefix|] == prefix && Str.ParseSigned(a[|prefix|..]) == Some(port as int)
  {
    var a := TcpAddr(host, port);
    var prefix := "tcp://" + host + ":";
    var digits := Str.NatToString(port as nat);
    assert a == prefix + digits;
    assert a[..|prefix|] == prefix && a[|prefix|..] == digits;
    Str.ParseIntToString(port as int);
  }

  /** The queue and log addresses share the host and differ exactly when the ports do. */
  lemma AddrsDiffer(c: Config)
    ensures QueueAddr(c) == LogAddr(c) <==> c.jobsrv.port == c.jobsrv.logPort
  {
    var prefix := "tcp://" + c.jobsrv.host + ":";
    TcpAddrRoundTrip(c.jobsrv.host, c.jobsrv.port);
    TcpAddrRoundTrip(c.jobsrv.host, c.jobsrv.logPort);
    if QueueAddr(c) == LogAddr(c) {
      assert QueueAddr(c)[|prefix|..] == LogAddr(c)[|prefix|..];
    }
  }

  /** A configuration file as deserialized: each field present or missing. */
  datatype RawJobSrv = RawJobSrv(host: Option<string>, port: Option<u16>, logPort: Option<u16>)

  datatype RawConfig = RawConfig(
    authToken: Option<string>,
    autoPublish: Option<bool>,
    dataPath: Option<string>,
    logPath: Option<string>,
    bldrChannel: Option<string>,
    bldrUrl: Option<string>,
    jobsrv: Option<RawJobSrv>,
    featuresEnabled: Option<string>)

  function Or<T>(o: Option<T>, dflt: T): T
  {
    if o.Some? then o.value else dflt
  }

  /** `#[serde(default)]`: every missing field takes its value from the default configuration. */
  function FromRaw(raw: RawConfig, d: ProtocolDefaults): Config
  {
    var base := DefaultConfig(d);
    var js := match raw.jobsrv
      case None => base.jobsrv
      case Some(r) => JobSrvCfg(Or(r.host, base.jobsrv.host), Or(r.port, base.jobsrv.port), Or(r.logPort, base.jobsrv.logPort));
    Config(Or(raw.authToken, base.authToken), Or(raw.autoPublish, base.autoPublish), Or(raw.dataPath, base.dataPath),
           Or(raw.logPath, base.logPath), Or(raw.bldrChannel, base.bldrChannel), Or(raw.bldrUrl, base.bldrUrl), js,
           Or(raw.featuresEnabled, base.featuresEnabled))
  }

  /** Present fields are taken as given; missing ones keep the default. */
  lemma FromRawFields(raw: RawConfig, d: ProtocolDefaults)
    ensures var c := FromRaw(raw, d);
      (raw.authToken.Some? ==> c.authToken == raw.authToken.value) &&
      (raw.authToken.None? ==> c.authToken == "") &&
      (raw.autoPublish.None? ==> c.autoPublish) &&
      (raw.bldrChannel.None? ==> c.bldrChannel == "unstable") &&
      (raw.jobsrv.None? ==> c.jobsrv == DefaultJobSrv(d)) &&
      (raw.jobsrv.Some? && raw.jobsrv.value.logPort.None? ==> c.jobsrv.logPort == d.logPort) &&
      (raw.jobsrv.Some? && raw.jobsrv.value.port.Some? ==> c.jobsrv.port == raw.jobsrv.value.port.value)
  {
  }

  /** The configuration file of the worker's own example: the port is taken, the log port stays 9021. */
  lemma ConfigFromFile(d: ProtocolDefaults)
    requires d.logPort == 9021
    ensures var raw := RawConfig(Some("mytoken"), None, Some("/path/to/data"), Some("/path/to/logs"), None, None,
                                 Some(RawJobSrv(Some("2.2.2.2"), Some(9000), None)), Some("FOO,BAR"));
      var c := FromRaw(raw, d);
      c.authToken == "mytoken" && c.dataPath == "/path/to/data" && c.logPath == "/path/to/logs" &&
      c.jobsrv.port == 9000 && c.jobsrv.logPort == 9021 && c.featuresEnabled == "FOO,BAR"
  {
  }
}
