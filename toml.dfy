/**
 * TOML values as the supervisor sees them (`toml::Value`), and the
 * ascending key order in which a `toml::value::Table` (a `BTreeMap`)
 * is iterated. Rust orders `String`s by their UTF-8 bytes, which is the
 * same as ordering them char by char on code points, as done here.
 */
module Toml {
  /** The non-container TOML values; their contents never matter here. */
  datatype Scalar = Str(s: string) | Int(i: int) | Bool(b: bool) | Float(text: string) | Datetime(text: string)

  datatype Value =
    | Table(t: map<string, Value>)
    | Array(a: seq<Value>)
    | Leaf(v: Scalar)
  {
    predicate IsTable() { this.Table? }
    predicate IsArray() { this.Array? }
  }

  type TomlTable = map<string, Value>

  /** Lexicographic order on strings (`Ord for String`). */
  predicate StrLe(a: string, b: string)
  {
    |a| == 0 || (|b| > 0 && (a[0] < b[0] || (a[0] == b[0] && StrLe(a[1..], b[1..]))))
  }

  predicate StrLt(a: string, b: string) { StrLe(a, b) && a != b }

  lemma {:induction false} StrLeReflexive(a: string)
    ensures StrLe(a, a)
  {
    if |a| > 0 { StrLeReflexive(a[1..]); }
  }

  lemma {:induction false} StrLeTotal(a: string, b: string)
    ensures StrLe(a, b) || StrLe(b, a)
  {
    if |a| > 0 && |b| > 0 && a[0] == b[0] {
      StrLeTotal(a[1..], b[1..]);
    }
  }

  lemma {:induction false} StrLeAntisymmetric(a: string, b: string)
    requires StrLe(a, b) && StrLe(b, a)
    ensures a == b
  {
    if |a| > 0 && |b| > 0 {
      StrLeAntisymmetric(a[1..], b[1..]);
      assert a == [a[0]] + a[1..] && b == [b[0]] + b[1..];
    }
  }

  lemma {:induction false} StrLeTransitive(a: string, b: string, c: string)
    requires StrLe(a, b) && StrLe(b, c)
    ensures StrLe(a, c)
  {
    if |a| > 0 && |b| > 0 && |c| > 0 && a[0] == b[0] && b[0] == c[0] {
      StrLeTransitive(a[1..], b[1..], c[1..]);
    }
  }

  predicate IsLeast(m: string, s: set<string>)
  {
    m in s && forall x {:trigger StrLe(m, x)} :: x in s ==> StrLe(m, x)
  }

  lemma {:induction false} LeastExists(s: set<string>)
    requires s != {}
    ensures exists m :: IsLeast(m, s)
    decreases |s|
  {
    var x :| x in s;
    StrLeReflexive(x);
    if s == {x} {
      assert IsLeast(x, s);
    } else {
      LeastExists(s - {x});
      var m :| IsLeast(m, s - {x});
      StrLeTotal(m, x);
      if StrLe(m, x) {
        assert IsLeast(m, s);
      } else {
        forall y | y in s ensures StrLe(x, y) {
          if y != x { StrLeTransitive(x, m, y); }
        }
        assert IsLeast(x, s);
      }
    }
  }

  lemma LeastUnique(s: set<string>)
    ensures forall a, b :: IsLeast(a, s) && IsLeast(b, s) ==> a == b
  {
    forall a, b | IsLeast(a, s) && IsLeast(b, s) ensures a == b {
      StrLeAntisymmetric(a, b);
    }
  }

  /** The smallest key of a non-empty key set: where a `BTreeMap` iteration starts. */
  function Least(s: set<string>): (m: string)
    requires s != {}
    ensures IsLeast(m, s)
  {
    LeastExists(s);
    LeastUnique(s);
    var m :| IsLeast(m, s);
    m
  }

  predicate Ascending(ks: seq<string>)
  {
    forall i, j :: 0 <= i < j < |ks| ==> StrLt(ks[i], ks[j])
  }

  /** The keys of a table in the order `for (k, v) in &table` visits them. */
  function SortedKeys(s: set<string>): (ks: seq<string>)
    ensures |ks| == |s|
    ensures forall k :: k in ks <==> k in s
    decreases |s|
  {
    if s == {} then []
    else
      var m := Least(s);
      [m] + SortedKeys(s - {m})
  }

  lemma {:induction false} SortedKeysAscending(s: set<string>)
    ensures Ascending(SortedKeys(s))
    decreases |s|
  {
    if s != {} {
      var m := Least(s);
      var rest := SortedKeys(s - {m});
      SortedKeysAscending(s - {m});
      assert forall k :: k in rest ==> StrLe(m, k) && k != m;
      AscendingCons(m, rest);
    }
  }

  /** A key below every key of an ascending sequence can be put in front of it. */
  lemma AscendingCons(x: string, rest: seq<string>)
    requires Ascending(rest)
    requires forall y :: y in rest ==> StrLt(x, y)
    ensures Ascending([x] + rest)
  {
    var ks := [x] + rest;
    forall i, j | 0 <= i < j < |ks| ensures StrLt(ks[i], ks[j]) {
      if i == 0 {
        assert ks[j] == rest[j - 1] && rest[j - 1] in rest;
      } else {
        assert ks[i] == rest[i - 1] && ks[j] == rest[j - 1];
      }
    }
  }

  /** The head of an ascending sequence is below every later key. */
  lemma AscendingHead(ks: seq<string>)
    requires Ascending(ks) && ks != []
    ensures Ascending(ks[1..])
    ensures forall y :: y in ks[1..] ==> StrLt(ks[0], y)
  {
    forall y | y in ks[1..] ensures StrLt(ks[0], y) {
      var j :| 0 <= j < |ks[1..]| && ks[1..][j] == y;
      assert ks[j + 1] == y;
    }
  }

  predicate Distinct(keys: seq<string>)
  {
    forall i, j :: 0 <= i < j < |keys| ==> keys[i] != keys[j]
  }

  lemma AscendingDistinct(ks: seq<string>)
    requires Ascending(ks)
    ensures Distinct(ks)
  {
  }

  lemma SortedKeysDistinct(s: set<string>)
    ensures Distinct(SortedKeys(s))
  {
    SortedKeysAscending(s);
  }

  /** A table's value at `key` is itself a table (`is_toml_value_a_table`). */
  predicate IsTableAt(key: string, table: TomlTable)
  {
    key in table && table[key].IsTable()
  }
}
