/**
 * The test helper that locks one environment variable: it records the
 * variable's value when the lock is taken, lets the holder set or unset
 * it, and puts the recorded value back when the lock is dropped.
 *
 * The process environment is an object holding a map from names to
 * values; the mutex itself is left out, a poisoned one being modelled by
 * the guard it still hands over.
 */
module LockedEnv {
  import opened Wrappers

  /** `env::var` distinguishes Unicode values from others; both are kept. */
  datatype EnvValue = Unicode(text: string) | NonUnicode(bytes: seq<bv8>)

  datatype VarError = NotPresent | NotUnicode(raw: seq<bv8>)

  class Environment {
    var vars: map<string, EnvValue>

    constructor (vars: map<string, EnvValue>)
      ensures this.vars == vars
    {
      this.vars := vars;
    }

    /** `env::var`. */
    function Var(name: string): (r: Result<string, VarError>)
      reads this
      ensures r == Err(NotPresent) <==> name !in vars
      ensures r.Ok? ==> vars[name] == Unicode(r.value)
    {
      if name !in vars then Err(NotPresent)
      else match vars[name]
        case Unicode(t) => Ok(t)
        case NonUnicode(b) => Err(NotUnicode(b))
    }
  }

  /** One change the lock holder makes. */
  datatype Op = Set(value: EnvValue) | Unset

  /** The variable map after `ops` on `name`. */
  function Apply(vars: map<string, EnvValue>, name: string, ops: seq<Op>): map<string, EnvValue>
    decreases |ops|
  {
    if ops == [] then vars
    else
      var next := match ops[0] case Set(v) => vars[name := v] case Unset => vars - {name};
      Apply(next, name, ops[1..])
  }

  /** What `drop` writes back. */
  function Restore(vars: map<string, EnvValue>, name: string, original: Option<EnvValue>): (r: map<string, EnvValue>)
    ensures original.Some? ==> name in r && r[name] == original.value
    ensures original.None? ==> name !in r
    ensures r - {name} == vars - {name}
  {
    match original
    case Some(v) => vars[name := v]
    case None => vars - {name}
  }

  /** The value `new` records: the current value, Unicode or not, or None. */
  function Recorded(vars: map<string, EnvValue>, name: string): (r: Option<EnvValue>)
    ensures r.Some? <==> name in vars
    ensures r.Some? ==> r.value == vars[name]
  {
    if name in vars then Some(vars[name]) else None
  }

  /** Set and unset touch only the locked variable. */
  lemma {:induction false} ApplyOnlyTouchesName(vars: map<string, EnvValue>, name: string, ops: seq<Op>)
    ensures Apply(vars, name, ops) - {name} == vars - {name}
    decreases |ops|
  {
    if ops != [] {
      var next := match ops[0] case Set(v) => vars[name := v] case Unset => vars - {name};
      assert next - {name} == vars - {name};
      ApplyOnlyTouchesName(next, name, ops[1..]);
    }
  }

  /** Any sequence of changes followed by drop leaves the environment as it was before the lock. */
  lemma LockSessionRestores(vars: map<string, EnvValue>, name: string, ops: seq<Op>)
    ensures Restore(Apply(vars, name, ops), name, Recorded(vars, name)) == vars
  {
    ApplyOnlyTouchesName(vars, name, ops);
    var after := Restore(Apply(vars, name, ops), name, Recorded(vars, name));
    assert after - {name} == vars - {name};
    forall k | k != name
      ensures (k in after <==> k in vars) && (k in vars ==> after[k] == vars[k])
    {
      assert k in after <==> k in after - {name};
      assert k in vars <==> k in vars - {name};
      if k in vars {
        assert after[k] == (after - {name})[k] == (vars - {name})[k];
      }
    }
    assert after.Keys == vars.Keys;
  }

  /** What locking a possibly poisoned mutex hands back: the variable's name either way. */
  datatype LockResult = Guard(name: string) | Poisoned(name: string)

  function IntoGuard(r: LockResult): (name: string)
    ensures name == r.name
  {
    match r
    case Guard(n) => n
    case Poisoned(n) => n
  }

  class LockedEnvVar {
    const name: string
    const env: Environment
    const originalValue: Option<EnvValue>

    /** `LockedEnvVar::new` from the guard the lock function obtained. */
    constructor (env: Environment, lock: LockResult)
      ensures name == lock.name && this.env == env
      ensures originalValue == Recorded(env.vars, lock.name)
    {
      name := IntoGuard(lock);
      this.env := env;
      originalValue := Recorded(env.vars, lock.name);
    }

    method Set(value: EnvValue)
      modifies env
      ensures env.vars == old(env.vars)[name := value]
    {
      env.vars := env.vars[name := value];
    }

    method Unset()
      modifies env
      ensures env.vars == old(env.vars) - {name}
    {
      env.vars := env.vars - {name};
    }

    /** `Drop`: the recorded value is written back, or the variable removed. */
    method Drop()
      modifies env
      ensures env.vars == Restore(old(env.vars), name, originalValue)
    {
      match originalValue {
        case Some(v) => env.vars := env.vars[name := v];
        case None => env.vars := env.vars - {name};
      }
    }

    /** The holder's changes, one by one. */
    method Run(ops: seq<Op>)
      modifies env
      ensures env.vars == Apply(old(env.vars), name, ops)
    {
      var i := 0;
      while i < |ops|
        invariant 0 <= i <= |ops|
        invariant Apply(old(env.vars), name, ops) == Apply(env.vars, name, ops[i..])
      {
        assert ops[i..][1..] == ops[i + 1..];
        match ops[i] {
          case Set(v) => Set(v);
          case Unset => Unset();
        }
        i := i + 1;
      }
    }
  }

  /**
   * A whole locked session: lock, change the variable, drop. The
   * environment afterwards is what it was before, for a healthy or a
   * poisoned lock alike.
   */
  method Session(env: Environment, lock: LockResult, ops: seq<Op>)
    modifies env
    ensures env.vars == old(env.vars)
  {
    var l := new LockedEnvVar(env, lock);
    l.Run(ops);
    l.Drop();
    LockSessionRestores(old(env.vars), lock.name, ops);
  }

  /** The two sessions the helper's own examples walk through. */
  lemma Examples(vars: map<string, EnvValue>, n: string)
    ensures n !in vars ==> Restore(Apply(vars, n, [Set(Unicode("foo"))]), n, Recorded(vars, n)) == vars
    ensures n !in vars ==> n in Apply(vars, n, [Set(Unicode("foo"))]) && Apply(vars, n, [Set(Unicode("foo"))])[n] == Unicode("foo")
    ensures var ops := [Set(Unicode("foo")), Set(Unicode("bar")), Set(Unicode("foobar")), Unset];
      n !in Apply(vars, n, ops) && Restore(Apply(vars, n, ops), n, Recorded(vars, n)) == vars
  {
    LockSessionRestores(vars, n, [Set(Unicode("foo"))]);
    var ops := [Set(Unicode("foo")), Set(Unicode("bar")), Set(Unicode("foobar")), Unset];
    LockSessionRestores(vars, n, ops);
    assert ops[1..] == [Set(Unicode("bar")), Set(Unicode("foobar")), Unset];
    assert ops[1..][1..] == [Set(Unicode("foobar")), Unset];
    assert ops[1..][1..][1..] == [Unset];
  }
}
