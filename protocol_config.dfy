/**
 * The layered service configuration record of the supervisor protocol
 * (`protocol::Cfg`): its four optional TOML layers, how `default.toml`,
 * `user.toml` and the `HAB_<PKG>` environment variable are loaded into
 * them, and the export whitelist `to_exported`.
 *
 * The file system, the process environment and the TOML/JSON parsers
 * are inputs: `fs` answers what opening and reading a path gives,
 * `envVar` answers a variable lookup, `parseToml`/`parseJson` give the
 * parsed table or None on a syntax error.
 */
module ProtocolConfig {
  import opened Wrappers
  import opened Toml
  import Text

  const U64Limit: int := 0x1_0000_0000_0000_0000
  /** Largest integer a TOML value can hold (`i64::MAX`). */
  const TomlIntMax: int := 0x7FFF_FFFF_FFFF_FFFF

  newtype u64 = x: int | 0 <= x < 0x1_0000_0000_0000_0000

  /** The package facts the configuration code reads (`protocol::Pkg`). */
  datatype Pkg = Pkg(name: string, path: string, svcPath: string, exports: map<string, string>)

  /** What `File::open` followed by `read_to_string` gives for a path. */
  datatype FileRead = OpenFailed | ReadFailed | Contents(text: string)

  datatype ConfigError = TomlParser(path: string) | BadEnvConfig(varName: string) | TomlMergeError(message: string)

  /** `to_exported` unwraps the derived serialization; this is its failure. */
  datatype ExportPanic = IncarnationTooLarge

  /** `format!("{}_{}", "HAB", name).to_ascii_uppercase().replace("-", "_")`. */
  function EnvVarName(pkgName: string): (r: string)
    ensures |r| == |pkgName| + 4
    ensures r[..4] == "HAB_"
    ensures forall i :: 0 <= i < |pkgName| ==>
      r[4 + i] == (if pkgName[i] == '-' then '_' else Text.AsciiUpper(pkgName[i]))
  {
    Text.ReplaceChar(Text.UpperStr("HAB_" + pkgName), '-', '_')
  }

  lemma EnvVarNameShape(pkgName: string)
    ensures '-' !in EnvVarName(pkgName)
    ensures forall c :: c in EnvVarName(pkgName) ==> !('a' <= c <= 'z')
  {
    var r := EnvVarName(pkgName);
    forall i | 0 <= i < |r| ensures r[i] != '-' && !('a' <= r[i] <= 'z') {
      if i >= 4 {
        assert r[i] == r[4 + (i - 4)];
      } else {
        assert r[..4][i] == r[i];
      }
    }
  }

  lemma EnvVarNameExample()
    ensures EnvVarName("redis-server") == "HAB_REDIS_SERVER"
  {
    var r := EnvVarName("redis-server");
    var want := "HAB_REDIS_SERVER";
    forall i | 4 <= i < 16 ensures r[i] == want[i] {
      assert r[4 + (i - 4)] == r[i];
    }
    forall i | 0 <= i < 4 ensures r[i] == want[i] {
      assert r[..4][i] == r[i];
    }
  }

  /** `Value::get(&str)`: a table's entry; nothing for arrays and scalars. */
  function Get(v: Value, field: string): (r: Option<Value>)
    ensures r.Some? <==> v.Table? && field in v.t
    ensures r.Some? ==> r.value == v.t[field]
  {
    match v
    case Table(t) => if field in t then Some(t[field]) else None
    case _ => None
  }

  /**
   * The walk of `to_exported` as written: each segment that resolves moves
   * `curr`, a segment that does not leaves `curr` where it was, and
   * `found` only reflects the last segment.
   */
  function Walk(curr: Value, found: bool, fields: seq<string>): (Value, bool)
  {
    if fields == [] then (curr, found)
    else match Get(curr, fields[0])
      case Some(v) => Walk(v, true, fields[1..])
      case None => Walk(curr, false, fields[1..])
  }

  lemma {:induction false} WalkFoundIsLastSegment(curr: Value, found: bool, fields: seq<string>)
    requires |fields| >= 1
    ensures var before := Walk(curr, found, fields[..|fields| - 1]);
      Walk(curr, found, fields).1 <==> Get(before.0, fields[|fields| - 1]).Some?
  {
    if |fields| > 1 {
      var rest := fields[1..];
      assert rest[..|rest| - 1] == fields[..|fields| - 1][1..];
      match Get(curr, fields[0])
      case Some(v) => WalkFoundIsLastSegment(v, true, rest);
      case None => WalkFoundIsLastSegment(curr, false, rest);
    }
  }

  lemma SplitPathExample()
    ensures Text.Split("a.x.b", '.') == ["a", "x", "b"]
  {
    var parts := ["a", "x", "b"];
    assert Text.Join(parts, '.') == "a.x.b" by {
      assert parts[1..] == ["x", "b"] && parts[1..][1..] == ["b"];
    }
    Text.SplitJoin(parts, '.');
  }

  /** A path whose middle segment is missing still resolves: "a.x.b" finds a.b. */
  lemma WalkSkipsMissingSegment(b: Value)
    ensures var root := Table(map["a" := Table(map["b" := b])]);
      Walk(root, false, Text.Split("a.x.b", '.')) == (b, true)
  {
    SplitPathExample();
    WalkPathExample(b);
  }

  lemma WalkPathExample(b: Value)
    ensures Walk(Table(map["a" := Table(map["b" := b])]), false, ["a", "x", "b"]) == (b, true)
  {
    var inner := Table(map["b" := b]);
    assert ["a", "x", "b"][1..] == ["x", "b"] && ["x", "b"][1..] == ["b"] && ["b"][1..] == [];
    var root := Table(map["a" := inner]);
    assert Get(root, "a") == Some(inner);
    assert Get(inner, "x") == None;
    assert Get(inner, "b") == Some(b);
    assert Walk(inner, false, ["b"]) == (b, true);
    assert Walk(inner, true, ["x", "b"]) == (b, true);
  }

  /**
   * The layer a TOML file gives: absent when the file cannot be opened
   * or read, an error naming the path when its text is not TOML.
   */
  function FileLayer(path: string, fs: string -> FileRead, parseToml: string -> Option<TomlTable>): Result<Option<Value>, ConfigError>
  {
    match fs(path)
    case Contents(text) =>
      (match parseToml(text)
       case None => Err(TomlParser(path))
       case Some(t) => Ok(Some(Table(t))))
    case _ => Ok(None)
  }

  /** The layer an environment variable gives: absent when unset, its TOML or else JSON table, otherwise an error. */
  function EnvLayer(name: string, envVar: string -> Option<string>,
                    parseToml: string -> Option<TomlTable>, parseJson: string -> Option<TomlTable>): Result<Option<Value>, ConfigError>
  {
    match envVar(name)
    case None => Ok(None)
    case Some(text) =>
      if parseToml(text).Some? then Ok(Some(Table(parseToml(text).value)))
      else if parseJson(text).Some? then Ok(Some(Table(parseJson(text).value)))
      else Err(BadEnvConfig(name))
  }

  class Cfg {
    var default: Option<Value>
    var user: Option<Value>
    var gossip: Option<Value>
    var environment: Option<Value>
    var gossipIncarnation: u64

    /** `Cfg::default()`: every layer absent, incarnation 0. */
    constructor ()
      ensures default == None && user == None && gossip == None && environment == None
      ensures gossipIncarnation == 0
    {
      default, user, gossip, environment := None, None, None, None;
      gossipIncarnation := 0;
    }

    /**
     * The derived serialization `toml::Value::try_from(&self)`: absent
     * layers are skipped; an incarnation beyond `i64::MAX` cannot be
     * written as a TOML integer and the `unwrap` panics.
     */
    function DerivedRecord(): (r: Result<Value, ExportPanic>)
      reads this
      ensures r.Ok? <==> gossipIncarnation as int <= TomlIntMax
      ensures r.Ok? ==> r.value.Table? && "gossip_incarnation" in r.value.t
      ensures r.Ok? ==> forall k :: k in r.value.t ==> k in {"default", "user", "gossip", "environment", "gossip_incarnation"}
      ensures r.Ok? ==> ("default" in r.value.t <==> default.Some?) && ("user" in r.value.t <==> user.Some?)
      ensures r.Ok? ==> ("gossip" in r.value.t <==> gossip.Some?) && ("environment" in r.value.t <==> environment.Some?)
    {
      if gossipIncarnation as int > TomlIntMax then Err(IncarnationTooLarge)
      else
        var t := map["gossip_incarnation" := Leaf(Int(gossipIncarnation as int))];
        var t := if default.Some? then t["default" := default.value] else t;
        var t := if user.Some? then t["user" := user.value] else t;
        var t := if gossip.Some? then t["gossip" := gossip.value] else t;
        var t := if environment.Some? then t["environment" := environment.value] else t;
        Ok(Table(t))
    }

    /**
     * `to_exported`: for each export `key = "dotted.path"`, the value the
     * walk reaches in the derived record, when its last lookup succeeded.
     */
    method ToExported(pkg: Pkg) returns (r: Result<TomlTable, ExportPanic>)
      ensures r.Ok? <==> DerivedRecord().Ok?
      ensures r.Ok? ==> r.value.Keys <= pkg.exports.Keys
      ensures r.Ok? ==> forall key :: key in pkg.exports ==>
        var w := Walk(DerivedRecord().value, false, Text.Split(pkg.exports[key], '.'));
        (key in r.value <==> w.1) && (key in r.value ==> r.value[key] == w.0)
    {
      var record := DerivedRecord();
      if record.Err? {
        return Err(record.error);
      }
      var cfg := record.value;
      var exported: TomlTable := map[];
      var pending := pkg.exports.Keys;
      while pending != {}
        invariant pending <= pkg.exports.Keys
        invariant exported.Keys <= pkg.exports.Keys - pending
        invariant forall key :: key in pkg.exports.Keys - pending ==>
          var w := Walk(cfg, false, Text.Split(pkg.exports[key], '.'));
          (key in exported <==> w.1) && (key in exported ==> exported[key] == w.0)
        decreases |pending|
      {
        var key :| key in pending;
        var fields := Text.Split(pkg.exports[key], '.');
        var curr := cfg;
        var found := false;
        var i := 0;
        while i < |fields|
          invariant 0 <= i <= |fields|
          invariant Walk(curr, found, fields[i..]) == Walk(cfg, false, fields)
        {
          match Get(curr, fields[i]) {
            case Some(v) =>
              curr := v;
              found := true;
            case None =>
              found := false;
          }
          i := i + 1;
        }
        assert fields[i..] == [];
        if found {
          exported := exported[key := curr];
        }
        pending := pending - {key};
      }
      return Ok(exported);
    }

    /** `load_default`: reads `<configFrom>/default.toml`. */
    method LoadDefault(configFrom: string, fs: string -> FileRead, parseToml: string -> Option<TomlTable>)
      returns (r: Result<(), ConfigError>)
      modifies this`default
      ensures var f := fs(configFrom + "/default.toml");
        match f
        case OpenFailed => r.Ok? && default == None
        case ReadFailed => r.Ok? && default == None
        case Contents(text) =>
          match parseToml(text)
          case None => r == Err(TomlParser(configFrom + "/default.toml")) && default == old(default)
          case Some(t) => r.Ok? && default == Some(Table(t))
    {
      var path := configFrom + "/default.toml";
      match fs(path) {
        case OpenFailed =>
          default := None;
          return Ok(());
        case ReadFailed =>
          default := None;
        case Contents(text) =>
          match parseToml(text) {
            case None => return Err(TomlParser(path));
            case Some(t) => default := Some(Table(t));
          }
      }
      return Ok(());
    }

    /** `load_user`: reads `<svc_path>/user.toml`. */
    method LoadUser(pkg: Pkg, fs: string -> FileRead, parseToml: string -> Option<TomlTable>)
      returns (r: Result<(), ConfigError>)
      modifies this`user
      ensures var f := fs(pkg.svcPath + "/user.toml");
        match f
        case OpenFailed => r.Ok? && user == None
        case ReadFailed => r.Ok? && user == None
        case Contents(text) =>
          match parseToml(text)
          case None => r == Err(TomlParser(pkg.svcPath + "/user.toml")) && user == old(user)
          case Some(t) => r.Ok? && user == Some(Table(t))
    {
      var path := pkg.svcPath + "/user.toml";
      match fs(path) {
        case OpenFailed =>
          user := None;
          return Ok(());
        case ReadFailed =>
          user := None;
        case Contents(text) =>
          match parseToml(text) {
            case None => return Err(TomlParser(path));
            case Some(t) => user := Some(Table(t));
          }
      }
      return Ok(());
    }

    /**
     * `load_environment`: the variable `EnvVarName(pkg.name)`, tried as TOML
     * and then as JSON. `envVar` is None both when the variable is absent
     * and when its value is not Unicode (`env::var` fails either way).
     */
    method LoadEnvironment(pkg: Pkg, envVar: string -> Option<string>,
                           parseToml: string -> Option<TomlTable>, parseJson: string -> Option<TomlTable>)
      returns (r: Result<(), ConfigError>)
      modifies this`environment
      ensures var name := EnvVarName(pkg.name);
        match envVar(name)
        case None => r.Ok? && environment == None
        case Some(text) =>
          if parseToml(text).Some? then r.Ok? && environment == Some(Table(parseToml(text).value))
          else if parseJson(text).Some? then r.Ok? && environment == Some(Table(parseJson(text).value))
          else r == Err(BadEnvConfig(name)) && environment == None
    {
      var varName := EnvVarName(pkg.name);
      match envVar(varName) {
        case Some(config) =>
          match parseToml(config) {
            case Some(t) =>
              environment := Some(Table(t));
              return Ok(());
            case None =>
          }
          match parseJson(config) {
            case Some(t) =>
              environment := Some(Table(t));
              return Ok(());
            case None =>
          }
          environment := None;
          return Err(BadEnvConfig(varName));
        case None =>
          environment := None;
          return Ok(());
      }
    }
  }

  /**
   * `Cfg::new`: loads default (from `configFrom`, else the package path),
   * then user, then environment, stopping at the first error.
   */
  method NewCfg(pkg: Pkg, configFrom: Option<string>, fs: string -> FileRead, envVar: string -> Option<string>,
                parseToml: string -> Option<TomlTable>, parseJson: string -> Option<TomlTable>)
    returns (r: Result<Cfg, ConfigError>)
    ensures r.Ok? ==> fresh(r.value) && r.value.gossip == None && r.value.gossipIncarnation == 0
    ensures r.Ok? ==> var root := if configFrom.Some? then configFrom.value else pkg.path;
      fs(root + "/default.toml").Contents? ==> parseToml(fs(root + "/default.toml").text).Some?
    ensures r.Ok? ==> envVar(EnvVarName(pkg.name)).None? ==> r.value.environment == None
    ensures var root := if configFrom.Some? then configFrom.value else pkg.path;
            var d := FileLayer(root + "/default.toml", fs, parseToml);
            var u := FileLayer(pkg.svcPath + "/user.toml", fs, parseToml);
            var e := EnvLayer(EnvVarName(pkg.name), envVar, parseToml, parseJson);
            (r.Ok? <==> d.Ok? && u.Ok? && e.Ok?) &&
            (r.Ok? ==> r.value.default == d.value && r.value.user == u.value && r.value.environment == e.value) &&
            (r.Err? ==> r.error == (if d.Err? then d.error else if u.Err? then u.error else e.error))
  {
    var root := if configFrom.Some? then configFrom.value else pkg.path;
    ghost var dl := FileLayer(root + "/default.toml", fs, parseToml);
    ghost var ul := FileLayer(pkg.svcPath + "/user.toml", fs, parseToml);
    ghost var el := EnvLayer(EnvVarName(pkg.name), envVar, parseToml, parseJson);
    var cfg := new Cfg();
    var d := cfg.LoadDefault(root, fs, parseToml);
    assert d.Ok? <==> dl.Ok?;
    if d.Err? {
      assert d.error == dl.error;
      return Err(d.error);
    }
    assert cfg.default == dl.value;
    var u := cfg.LoadUser(pkg, fs, parseToml);
    assert u.Ok? <==> ul.Ok?;
    if u.Err? {
      assert u.error == ul.error;
      return Err(u.error);
    }
    assert cfg.user == ul.value;
    var e := cfg.LoadEnvironment(pkg, envVar, parseToml, parseJson);
    assert e.Ok? <==> el.Ok?;
    if e.Err? {
      assert e.error == el.error;
      return Err(e.error);
    }
    assert cfg.environment == el.value;
    return Ok(cfg);
  }
}
