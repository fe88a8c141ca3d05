/**
 * The supervisor's view of a service configuration: the depth-limited
 * recursive TOML merge, the layering default < environment < user < gossip
 * used to serialize the configuration, the incarnation-guarded gossip
 * update, and the hash-compare decision of `CfgRenderer::compile`.
 */
module ServiceConfig {
  import opened Wrappers
  import opened Toml
  import Text
  import PC = ProtocolConfig

  /** `TOML_MAX_MERGE_DEPTH`. */
  const MaxMergeDepth: nat := 30
  const MergeDepthMessage: string := "Max recursive merge depth of 30 exceeded."

  /** The table after a merge (kept even when the merge fails part way) and whether it succeeded. */
  datatype MergeOutcome = MergeOutcome(table: TomlTable, ok: bool)

  // ---------------------------------------------------------------------
  // The merge as the source performs it: keys of `other` in ascending
  // order, updating `me` as it goes and stopping at the first failure.

  function MergeTables(me: TomlTable, other: TomlTable, depth: nat): MergeOutcome
    decreases if depth <= MaxMergeDepth then MaxMergeDepth + 1 - depth else 0, 1, 0
  {
    if depth > MaxMergeDepth then MergeOutcome(me, false)
    else MergeKeys(me, other, SortedKeys(other.Keys), depth)
  }

  function MergeKeys(me: TomlTable, other: TomlTable, keys: seq<string>, depth: nat): MergeOutcome
    requires depth <= MaxMergeDepth
    requires forall k :: k in keys ==> k in other
    decreases MaxMergeDepth + 1 - depth, 0, |keys|
  {
    if keys == [] then MergeOutcome(me, true)
    else
      var k := keys[0];
      if IsTableAt(k, me) && IsTableAt(k, other) then
        var sub := MergeTables(me[k].t, other[k].t, depth + 1);
        var me' := me[k := Table(sub.table)];
        if sub.ok then MergeKeys(me', other, keys[1..], depth) else MergeOutcome(me', false)
      else
        MergeKeys(me[k := other[k]], other, keys[1..], depth)
  }

  // ---------------------------------------------------------------------
  // An order-free reference: where the merge stays within the depth limit
  // it is the key-wise deep merge below.

  /** Every recursive step of merging `other` into `me` starting at `depth` stays within the limit. */
  predicate WithinDepth(me: TomlTable, other: TomlTable, depth: nat)
    decreases if depth <= MaxMergeDepth then MaxMergeDepth + 1 - depth else 0
  {
    depth <= MaxMergeDepth &&
    forall k :: k in other && IsTableAt(k, me) && IsTableAt(k, other) ==> WithinDepth(me[k].t, other[k].t, depth + 1)
  }

  function DeepMerge(me: TomlTable, other: TomlTable, depth: nat): (r: TomlTable)
    requires WithinDepth(me, other, depth)
    decreases MaxMergeDepth + 1 - depth
  {
    map k | k in me.Keys + other.Keys ::
      if IsTableAt(k, me) && IsTableAt(k, other) then Table(DeepMerge(me[k].t, other[k].t, depth + 1))
      else if k in other then other[k]
      else me[k]
  }

  /** Every key of `ks` is a key of `other` whose merge stays within the limit. */
  predicate KeysWithin(me: TomlTable, other: TomlTable, ks: set<string>, depth: nat)
  {
    depth <= MaxMergeDepth &&
    forall k :: k in ks ==> k in other && (IsTableAt(k, me) && IsTableAt(k, other) ==> WithinDepth(me[k].t, other[k].t, depth + 1))
  }

  /** The value the deep merge gives at a key of `other`. */
  function MergedAt(me: TomlTable, other: TomlTable, k: string, depth: nat): Value
    requires depth <= MaxMergeDepth && k in other
    requires IsTableAt(k, me) && IsTableAt(k, other) ==> WithinDepth(me[k].t, other[k].t, depth + 1)
  {
    if IsTableAt(k, me) && IsTableAt(k, other) then Table(DeepMerge(me[k].t, other[k].t, depth + 1)) else other[k]
  }

  /** `me` with the keys `ks` of `other` merged in. */
  function Apply(me: TomlTable, other: TomlTable, ks: set<string>, depth: nat): TomlTable
    requires KeysWithin(me, other, ks, depth)
  {
    map k | k in me.Keys + ks :: if k in ks then MergedAt(me, other, k, depth) else me[k]
  }

  function Elems(keys: seq<string>): set<string>
  {
    set x | x in keys
  }

  lemma ApplyAllIsDeepMerge(me: TomlTable, other: TomlTable, depth: nat)
    requires WithinDepth(me, other, depth)
    ensures KeysWithin(me, other, other.Keys, depth)
    ensures Apply(me, other, other.Keys, depth) == DeepMerge(me, other, depth)
  {
    var a := Apply(me, other, other.Keys, depth);
    var d := DeepMerge(me, other, depth);
    assert a.Keys == d.Keys;
    forall k | k in a ensures a[k] == d[k] {}
  }

  /** Merging one more key first, then the rest, is merging them all. */
  lemma ApplyStep(me: TomlTable, other: TomlTable, k: string, ks: set<string>, depth: nat)
    requires k !in ks && KeysWithin(me, other, ks + {k}, depth)
    ensures KeysWithin(me[k := MergedAt(me, other, k, depth)], other, ks, depth)
    ensures Apply(me[k := MergedAt(me, other, k, depth)], other, ks, depth) == Apply(me, other, ks + {k}, depth)
  {
    var me' := me[k := MergedAt(me, other, k, depth)];
    assert forall x :: x in ks ==> (x in me' <==> x in me) && (x in me ==> me'[x] == me[x]) by {
      forall x | x in ks ensures (x in me' <==> x in me) && (x in me ==> me'[x] == me[x]) { assert x != k; }
    }
    assert forall x :: x in ks ==> (IsTableAt(x, me') <==> IsTableAt(x, me));
    var a' := Apply(me', other, ks, depth);
    var a := Apply(me, other, ks + {k}, depth);
    assert a'.Keys == a.Keys;
    forall x | x in a ensures a'[x] == a[x] {
      if x in ks {
        assert MergedAt(me', other, x, depth) == MergedAt(me, other, x, depth);
      }
    }
  }

  lemma DistinctTail(keys: seq<string>)
    requires keys != [] && Distinct(keys)
    ensures Distinct(keys[1..]) && keys[0] !in Elems(keys[1..])
    ensures Elems(keys) == Elems(keys[1..]) + {keys[0]}
  {
    var rest := keys[1..];
    forall i, j | 0 <= i < j < |rest| ensures rest[i] != rest[j] {
      assert keys[i + 1] == rest[i] && keys[j + 1] == rest[j];
    }
    forall x | x in rest ensures x != keys[0] {
      var j :| 0 <= j < |rest| && rest[j] == x;
      assert keys[j + 1] == x;
    }
    assert keys == [keys[0]] + rest;
  }

  lemma {:induction false} MergeTablesWithin(me: TomlTable, other: TomlTable, depth: nat)
    requires WithinDepth(me, other, depth)
    ensures MergeTables(me, other, depth) == MergeOutcome(DeepMerge(me, other, depth), true)
    decreases MaxMergeDepth + 1 - depth, 1, 0
  {
    var keys := SortedKeys(other.Keys);
    SortedElems(other.Keys);
    ApplyAllIsDeepMerge(me, other, depth);
    MergeKeysWithin(me, other, keys, depth);
  }

  lemma SortedElems(s: set<string>)
    ensures Elems(SortedKeys(s)) == s && Distinct(SortedKeys(s))
  {
    SortedKeysDistinct(s);
  }

  lemma {:induction false} MergeKeysWithin(me: TomlTable, other: TomlTable, keys: seq<string>, depth: nat)
    requires KeysWithin(me, other, Elems(keys), depth) && Distinct(keys)
    ensures forall k :: k in keys ==> k in other
    ensures MergeKeys(me, other, keys, depth) == MergeOutcome(Apply(me, other, Elems(keys), depth), true)
    decreases MaxMergeDepth + 1 - depth, 0, |keys|
  {
    if keys == [] {
      assert Apply(me, other, Elems(keys), depth) == me;
    } else {
      var k := keys[0];
      var rest := keys[1..];
      DistinctTail(keys);
      var m := MergedAt(me, other, k, depth);
      if IsTableAt(k, me) && IsTableAt(k, other) {
        MergeTablesWithin(me[k].t, other[k].t, depth + 1);
        assert MergeKeys(me, other, keys, depth) == MergeKeys(me[k := m], other, rest, depth);
      } else {
        assert MergeKeys(me, other, keys, depth) == MergeKeys(me[k := m], other, rest, depth);
      }
      ApplyStep(me, other, k, Elems(rest), depth);
      MergeKeysWithin(me[k := m], other, rest, depth);
    }
  }

  lemma {:induction false} MergeTablesOkWithin(me: TomlTable, other: TomlTable, depth: nat)
    requires MergeTables(me, other, depth).ok
    ensures WithinDepth(me, other, depth)
    decreases MaxMergeDepth + 1 - depth, 1, 0
  {
    var keys := SortedKeys(other.Keys);
    SortedKeysDistinct(other.Keys);
    MergeKeysOkWithin(me, other, keys, depth);
  }

  lemma {:induction false} MergeKeysOkWithin(me: TomlTable, other: TomlTable, keys: seq<string>, depth: nat)
    requires depth <= MaxMergeDepth && (forall k :: k in keys ==> k in other) && Distinct(keys)
    requires MergeKeys(me, other, keys, depth).ok
    ensures forall k :: k in keys && IsTableAt(k, me) && IsTableAt(k, other) ==> WithinDepth(me[k].t, other[k].t, depth + 1)
    decreases MaxMergeDepth + 1 - depth, 0, |keys|
  {
    if keys != [] {
      var k := keys[0];
      var rest := keys[1..];
      DistinctTail(keys);
      var next: TomlTable;
      if IsTableAt(k, me) && IsTableAt(k, other) {
        var sub := MergeTables(me[k].t, other[k].t, depth + 1);
        MergeTablesOkWithin(me[k].t, other[k].t, depth + 1);
        next := me[k := Table(sub.table)];
      } else {
        next := me[k := other[k]];
      }
      assert MergeKeys(next, other, rest, depth).ok;
      MergeKeysOkWithin(next, other, rest, depth);
      forall x | x in rest ensures (x in me <==> x in next) && (x in me ==> next[x] == me[x]) {
        assert x in Elems(rest);
      }
    }
  }

  /** The merge succeeds exactly when it stays within the depth limit, and then it is the deep merge. */
  lemma MergeTablesCorrect(me: TomlTable, other: TomlTable, depth: nat)
    ensures MergeTables(me, other, depth).ok <==> WithinDepth(me, other, depth)
    ensures WithinDepth(me, other, depth) ==> MergeTables(me, other, depth).table == DeepMerge(me, other, depth)
  {
    if WithinDepth(me, other, depth) {
      MergeTablesWithin(me, other, depth);
    } else if MergeTables(me, other, depth).ok {
      MergeTablesOkWithin(me, other, depth);
    }
  }

  // ---------------------------------------------------------------------
  // Properties of the merge the tests in config.rs exercise.

  lemma MergeEmptyOther(me: TomlTable, depth: nat)
    requires depth <= MaxMergeDepth
    ensures MergeTables(me, map[], depth) == MergeOutcome(me, true)
  {
    MergeTablesWithin(me, map[], depth);
    assert DeepMerge(me, map[], depth) == me;
  }

  lemma MergeIntoEmpty(other: TomlTable, depth: nat)
    requires depth <= MaxMergeDepth
    ensures MergeTables(map[], other, depth) == MergeOutcome(other, true)
  {
    DeepMergeIntoEmpty(other, depth);
    MergeTablesWithin(map[], other, depth);
  }

  lemma DeepMergeIntoEmpty(other: TomlTable, depth: nat)
    requires depth <= MaxMergeDepth
    ensures WithinDepth(map[], other, depth) && DeepMerge(map[], other, depth) == other
  {
    assert WithinDepth(map[], other, depth);
    var d := DeepMerge(map[], other, depth);
    assert d.Keys == other.Keys;
    assert forall k :: k in d ==> d[k] == other[k];
  }

  lemma MergeOtherWins(me: TomlTable, other: TomlTable, depth: nat, k: string)
    requires WithinDepth(me, other, depth)
    requires k in other && !(IsTableAt(k, me) && IsTableAt(k, other))
    ensures k in MergeTables(me, other, depth).table && MergeTables(me, other, depth).table[k] == other[k]
  {
    MergeTablesWithin(me, other, depth);
  }

  lemma MergeRecursesIntoTables(me: TomlTable, other: TomlTable, depth: nat, k: string)
    requires WithinDepth(me, other, depth)
    requires IsTableAt(k, me) && IsTableAt(k, other)
    ensures MergeTables(me[k].t, other[k].t, depth + 1).ok
    ensures k in MergeTables(me, other, depth).table
    ensures MergeTables(me, other, depth).table[k] == Table(MergeTables(me[k].t, other[k].t, depth + 1).table)
  {
    MergeTablesWithin(me, other, depth);
    MergeTablesWithin(me[k].t, other[k].t, depth + 1);
  }

  lemma MergeKeySet(me: TomlTable, other: TomlTable, depth: nat)
    requires MergeTables(me, other, depth).ok
    ensures MergeTables(me, other, depth).table.Keys == me.Keys + other.Keys
  {
    MergeTablesCorrect(me, other, depth);
  }

  /** Keys only `me` has keep their value, even when the merge fails part way. */
  lemma MergeKeepsOwnKeys(me: TomlTable, other: TomlTable, depth: nat, k: string)
    requires k in me && k !in other
    ensures k in MergeTables(me, other, depth).table && MergeTables(me, other, depth).table[k] == me[k]
  {
    if depth <= MaxMergeDepth {
      MergeKeysKeepsOthers(me, other, SortedKeys(other.Keys), depth, k);
    }
  }

  lemma {:induction false} MergeKeysKeepsOthers(me: TomlTable, other: TomlTable, keys: seq<string>, depth: nat, k: string)
    requires depth <= MaxMergeDepth && (forall x :: x in keys ==> x in other)
    requires k in me && k !in keys
    ensures k in MergeKeys(me, other, keys, depth).table && MergeKeys(me, other, keys, depth).table[k] == me[k]
    decreases |keys|
  {
    if keys != [] {
      var x := keys[0];
      if IsTableAt(x, me) && IsTableAt(x, other) {
        var sub := MergeTables(me[x].t, other[x].t, depth + 1);
        if sub.ok {
          MergeKeysKeepsOthers(me[x := Table(sub.table)], other, keys[1..], depth, k);
        }
      } else {
        MergeKeysKeepsOthers(me[x := other[x]], other, keys[1..], depth, k);
      }
    }
  }

  /** `names[0]` → `names[1]` → … → `leaf`: the nested tables `[a.b.c…]` builds. */
  function Chain(names: seq<string>, leaf: TomlTable): TomlTable
  {
    if names == [] then leaf else map[names[0] := Table(Chain(names[1..], leaf))]
  }

  predicate NoTables(t: TomlTable)
  {
    forall k :: k in t ==> !t[k].IsTable()
  }

  lemma {:induction false} ChainWithinDepth(names: seq<string>, mine: TomlTable, theirs: TomlTable, depth: nat)
    requires NoTables(theirs)
    ensures WithinDepth(Chain(names, mine), Chain(names, theirs), depth) <==> depth + |names| <= MaxMergeDepth
    decreases |names|
  {
    if names != [] {
      ChainWithinDepth(names[1..], mine, theirs, depth + 1);
      var a := Chain(names, mine);
      var b := Chain(names, theirs);
      assert IsTableAt(names[0], a) && IsTableAt(names[0], b);
      assert forall k :: IsTableAt(k, b) ==> k == names[0];
    }
  }

  /** Two `|names|`-deep nestings merge exactly when the nesting is at most 30 deep. */
  lemma NestedMergeDepthLimit(names: seq<string>, mine: TomlTable, theirs: TomlTable)
    requires NoTables(theirs)
    ensures MergeTables(Chain(names, mine), Chain(names, theirs), 0).ok <==> |names| <= MaxMergeDepth
  {
    ChainWithinDepth(names, mine, theirs, 0);
    MergeTablesCorrect(Chain(names, mine), Chain(names, theirs), 0);
  }

  // ---------------------------------------------------------------------
  // The imperative merge.

  /** `toml_merge_recurse`: merges `other` into `me` (updated in place in the source). */
  method MergeRecurse(me: TomlTable, other: TomlTable, depth: nat) returns (merged: TomlTable, r: Result<(), PC.ConfigError>)
    ensures MergeOutcome(merged, r.Ok?) == MergeTables(me, other, depth)
    ensures r.Err? ==> r.error == PC.TomlMergeError(MergeDepthMessage)
    decreases if depth <= MaxMergeDepth then MaxMergeDepth + 1 - depth else 0, 1
  {
    if depth > MaxMergeDepth {
      return me, Err(PC.TomlMergeError(MergeDepthMessage));
    }
    merged := me;
    var keys := SortedKeys(other.Keys);
    var i := 0;
    var rest := keys;
    ghost var target := MergeKeys(me, other, keys, depth);
    while i < |keys|
      invariant 0 <= i <= |keys| && rest == keys[i..]
      invariant forall k :: k in rest ==> k in other
      invariant MergeKeys(merged, other, rest, depth) == target
    {
      assert rest[0] == keys[i];
      var result;
      merged, result := MergeKey(merged, other, rest, depth);
      if result.Err? {
        return merged, result;
      }
      assert forall k :: k in rest[1..] ==> k in rest;
      rest := rest[1..];
      i := i + 1;
    }
    return merged, Ok(());
  }

  /** The loop body of `toml_merge_recurse` for the key `keys[0]`. */
  method MergeKey(me: TomlTable, other: TomlTable, keys: seq<string>, depth: nat) returns (merged: TomlTable, r: Result<(), PC.ConfigError>)
    requires depth <= MaxMergeDepth && keys != []
    requires forall k :: k in keys ==> k in other
    ensures r.Ok? ==> MergeKeys(me, other, keys, depth) == MergeKeys(merged, other, keys[1..], depth)
    ensures r.Err? ==> MergeKeys(me, other, keys, depth) == MergeOutcome(merged, false)
    ensures r.Err? ==> r.error == PC.TomlMergeError(MergeDepthMessage)
    decreases MaxMergeDepth + 1 - depth, 0
  {
    var key := keys[0];
    MergeKeysStep(me, other, keys, depth);
    if IsTableAt(key, me) && IsTableAt(key, other) {
      var sub, subResult := MergeRecurse(me[key].t, other[key].t, depth + 1);
      merged := me[key := Table(sub)];
      r := subResult;
    } else {
      merged := me[key := other[key]];
      r := Ok(());
    }
  }

  /** One step of `MergeKeys`, written out. */
  lemma MergeKeysStep(me: TomlTable, other: TomlTable, keys: seq<string>, depth: nat)
    requires depth <= MaxMergeDepth && keys != []
    requires forall k :: k in keys ==> k in other
    ensures var k := keys[0];
      k in other &&
      (IsTableAt(k, me) && IsTableAt(k, other) ==>
        var sub := MergeTables(me[k].t, other[k].t, depth + 1);
        MergeKeys(me, other, keys, depth) ==
          if sub.ok then MergeKeys(me[k := Table(sub.table)], other, keys[1..], depth)
          else MergeOutcome(me[k := Table(sub.table)], false)) &&
      (!(IsTableAt(k, me) && IsTableAt(k, other)) ==>
        MergeKeys(me, other, keys, depth) == MergeKeys(me[k := other[k]], other, keys[1..], depth))
  {
    assert keys[0] in keys;
  }

  /** `toml_merge`: the merge started at depth 0. */
  method TomlMerge(me: TomlTable, other: TomlTable) returns (merged: TomlTable, r: Result<(), PC.ConfigError>)
    ensures r.Ok? <==> WithinDepth(me, other, 0)
    ensures r.Ok? ==> merged == DeepMerge(me, other, 0)
    ensures forall k :: k in me && k !in other ==> k in merged && merged[k] == me[k]
  {
    merged, r := MergeRecurse(me, other, 0);
    ghost var outcome := MergeTables(me, other, 0);
    assert merged == outcome.table && r.Ok? == outcome.ok;
    MergeTablesCorrect(me, other, 0);
    forall k | k in me && k !in other ensures k in outcome.table && outcome.table[k] == me[k] {
      MergeKeepsOwnKeys(me, other, 0, k);
    }
  }

  // ---------------------------------------------------------------------
  // Layering and serialization.

  /** A layer takes part only when it is present and is a table. */
  predicate LayerHolds(layer: Option<Value>, k: string)
  {
    layer.Some? && layer.value.Table? && k in layer.value.t
  }

  /** One `if let Some(Table(..)) = layer { toml_merge(..) }` step; a failure keeps the partial table. */
  function MergeLayer(acc: TomlTable, layer: Option<Value>): TomlTable
  {
    if layer.Some? && layer.value.Table? then MergeTables(acc, layer.value.t, 0).table else acc
  }

  function FoldLayers(acc: TomlTable, layers: seq<Option<Value>>): TomlTable
    decreases |layers|
  {
    if layers == [] then acc else FoldLayers(MergeLayer(acc, layers[0]), layers[1..])
  }

  /** The table `Serialize for Cfg` builds: default, then environment, then user, then gossip. */
  function Layered(default: Option<Value>, environment: Option<Value>, user: Option<Value>, gossip: Option<Value>): TomlTable
  {
    FoldLayers(map[], [default, environment, user, gossip])
  }

  lemma LayeredUnfold(default: Option<Value>, environment: Option<Value>, user: Option<Value>, gossip: Option<Value>)
    ensures Layered(default, environment, user, gossip) ==
      MergeLayer(MergeLayer(MergeLayer(MergeLayer(map[], default), environment), user), gossip)
  {
    var layers := [default, environment, user, gossip];
    FoldCons(map[], layers);
    var t1 := MergeLayer(map[], default);
    FoldCons(t1, layers[1..]);
    var t2 := MergeLayer(t1, environment);
    FoldCons(t2, layers[2..]);
    var t3 := MergeLayer(t2, user);
    FoldCons(t3, layers[3..]);
    assert layers[1..][1..] == layers[2..] && layers[2..][1..] == layers[3..] && layers[3..][1..] == [];
  }

  lemma FoldCons(acc: TomlTable, layers: seq<Option<Value>>)
    requires layers != []
    ensures FoldLayers(acc, layers) == FoldLayers(MergeLayer(acc, layers[0]), layers[1..])
  {
  }

  /** No layer's merge exceeds the depth limit. */
  predicate LayersWithin(acc: TomlTable, layers: seq<Option<Value>>)
    decreases |layers|
  {
    layers == [] ||
    ((layers[0].Some? && layers[0].value.Table? ==> WithinDepth(acc, layers[0].value.t, 0))
     && LayersWithin(MergeLayer(acc, layers[0]), layers[1..]))
  }

  /** The value of `k` in the last layer holding it, or `start` if none does. */
  function LastHolder(start: Option<Value>, layers: seq<Option<Value>>, k: string): Option<Value>
    decreases |layers|
  {
    if layers == [] then start
    else LastHolder(if LayerHolds(layers[0], k) then Some(layers[0].value.t[k]) else start, layers[1..], k)
  }

  /**
   * Later layers win: a key whose value is never a table takes its value
   * from the last layer that holds it.
   */
  lemma {:induction false} LaterLayersWin(acc: TomlTable, layers: seq<Option<Value>>, k: string)
    requires LayersWithin(acc, layers)
    requires forall i :: 0 <= i < |layers| && LayerHolds(layers[i], k) ==> !layers[i].value.t[k].IsTable()
    ensures var r := LastHolder(if k in acc then Some(acc[k]) else None, layers, k);
      (k in FoldLayers(acc, layers) <==> r.Some?) && (r.Some? ==> FoldLayers(acc, layers)[k] == r.value)
    decreases |layers|
  {
    if layers != [] {
      var next := MergeLayer(acc, layers[0]);
      if layers[0].Some? && layers[0].value.Table? {
        var t := layers[0].value.t;
        MergeTablesCorrect(acc, t, 0);
        if k in t {
          assert !t[k].IsTable();
          assert next[k] == t[k];
        } else {
          assert (k in next <==> k in acc) && (k in acc ==> next[k] == acc[k]);
        }
      }
      forall i | 0 <= i < |layers[1..]| && LayerHolds(layers[1..][i], k) ensures !layers[1..][i].value.t[k].IsTable() {
        assert layers[1..][i] == layers[i + 1];
      }
      LaterLayersWin(next, layers[1..], k);
    }
  }

  /** The three key groups of the emitted map: scalars, arrays, tables. */
  datatype Kind = PlainKind | ArrayKind | TableKind

  function KindOf(v: Value): Kind
  {
    match v
    case Table(_) => TableKind
    case Array(_) => ArrayKind
    case Leaf(_) => PlainKind
  }

  function KindRank(k: Kind): nat
  {
    match k
    case PlainKind => 0
    case ArrayKind => 1
    case TableKind => 2
  }

  /** The keys of `keys` whose value in `t` is of `kind`, in their order. */
  function OfKind(keys: seq<string>, t: TomlTable, kind: Kind): (r: seq<string>)
    ensures forall k :: k in r <==> k in keys && k in t && KindOf(t[k]) == kind
  {
    if keys == [] then []
    else (if keys[0] in t && KindOf(t[keys[0]]) == kind then [keys[0]] else []) + OfKind(keys[1..], t, kind)
  }

  /** The key order `Serialize for Cfg` emits: non-arrays/non-tables, then arrays, then tables. */
  function EmissionOrder(t: TomlTable): seq<string>
  {
    var ks := SortedKeys(t.Keys);
    OfKind(ks, t, PlainKind) + OfKind(ks, t, ArrayKind) + OfKind(ks, t, TableKind)
  }

  lemma {:induction false} OfKindSubsequence(keys: seq<string>, t: TomlTable, kind: Kind)
    requires Ascending(keys)
    ensures Ascending(OfKind(keys, t, kind))
  {
    if keys != [] {
      AscendingHead(keys);
      OfKindSubsequence(keys[1..], t, kind);
      var rest := OfKind(keys[1..], t, kind);
      if keys[0] in t && KindOf(t[keys[0]]) == kind {
        AscendingCons(keys[0], rest);
      } else {
        assert OfKind(keys, t, kind) == rest;
      }
    }
  }

  lemma {:induction false} OfKindDistinct(keys: seq<string>, t: TomlTable, kind: Kind)
    requires Ascending(keys)
    ensures Distinct(OfKind(keys, t, kind))
  {
    OfKindSubsequence(keys, t, kind);
    AscendingDistinct(OfKind(keys, t, kind));
  }

  /** Three groups of keys of the given kinds, each ascending, concatenated. */
  lemma {:induction false} GroupedConcat(p: seq<string>, a: seq<string>, b: seq<string>, t: TomlTable)
    requires forall k :: k in p ==> k in t && KindOf(t[k]) == PlainKind
    requires forall k :: k in a ==> k in t && KindOf(t[k]) == ArrayKind
    requires forall k :: k in b ==> k in t && KindOf(t[k]) == TableKind
    requires Ascending(p) && Ascending(a) && Ascending(b)
    ensures Grouped(p + a + b, t)
  {
    var e := p + a + b;
    forall i | 0 <= i < |e| ensures e[i] in t && KindRank(KindOf(t[e[i]])) == GroupOf(i, |p|, |a|)
      && (i < |p| ==> e[i] == p[i])
      && (|p| <= i < |p| + |a| ==> e[i] == a[i - |p|])
      && (|p| + |a| <= i ==> e[i] == b[i - |p| - |a|])
    {
      if i < |p| {
        assert e[i] == p[i] && p[i] in p;
      } else if i < |p| + |a| {
        assert e[i] == a[i - |p|] && a[i - |p|] in a;
      } else {
        assert e[i] == b[i - |p| - |a|] && b[i - |p| - |a|] in b;
      }
    }
    forall i, j | 0 <= i < j < |e| && KindOf(t[e[i]]) == KindOf(t[e[j]]) ensures StrLt(e[i], e[j]) {
      assert GroupOf(i, |p|, |a|) == GroupOf(j, |p|, |a|);
    }
  }

  /** The group, by rank, that position `i` of a concatenation of three groups falls in. */
  function GroupOf(i: int, np: nat, na: nat): nat
  {
    if i < np then 0 else if i < np + na then 1 else 2
  }

  /**
   * The keys of `e` are keys of `t`; they come scalars, then arrays, then
   * tables, and within one group they are ascending.
   */
  predicate Grouped(e: seq<string>, t: TomlTable)
  {
    (forall i :: 0 <= i < |e| ==> e[i] in t) &&
    (forall i, j :: 0 <= i < j < |e| ==> KindRank(KindOf(t[e[i]])) <= KindRank(KindOf(t[e[j]]))) &&
    (forall i, j :: 0 <= i < j < |e| && KindOf(t[e[i]]) == KindOf(t[e[j]]) ==> StrLt(e[i], e[j]))
  }

  lemma EmissionGrouped(t: TomlTable)
    ensures Grouped(EmissionOrder(t), t)
  {
    var ks := SortedKeys(t.Keys);
    SortedKeysAscending(t.Keys);
    var p, a, b := OfKind(ks, t, PlainKind), OfKind(ks, t, ArrayKind), OfKind(ks, t, TableKind);
    OfKindSubsequence(ks, t, PlainKind);
    OfKindSubsequence(ks, t, ArrayKind);
    OfKindSubsequence(ks, t, TableKind);
    GroupedConcat(p, a, b, t);
  }

  /**
   * Every key of the table is emitted exactly once, the groups come in the
   * order scalars, arrays, tables, and each group is in ascending key order.
   */
  lemma EmissionOrderProperties(t: TomlTable)
    ensures forall k :: k in EmissionOrder(t) <==> k in t
    ensures Distinct(EmissionOrder(t)) && |EmissionOrder(t)| == |t|
    ensures Grouped(EmissionOrder(t), t)
  {
    var e := EmissionOrder(t);
    EmissionGrouped(t);
    assert forall k :: k in e <==> k in t by {
      forall k ensures k in e <==> k in t {
        if k in t {
          var kind := KindOf(t[k]);
          assert k in OfKind(SortedKeys(t.Keys), t, kind);
        }
      }
    }
    assert Distinct(e) by {
      forall i, j | 0 <= i < j < |e| ensures e[i] != e[j] {
        if KindOf(t[e[i]]) == KindOf(t[e[j]]) {
          assert StrLt(e[i], e[j]);
        }
      }
    }
    DistinctCard(e, t);
  }

  lemma DistinctCard(e: seq<string>, t: TomlTable)
    requires Distinct(e)
    requires forall k :: k in e <==> k in t
    ensures |e| == |t|
  {
    var s := set x | x in e;
    assert s == t.Keys;
    DistinctSeqCard(e);
  }

  lemma {:induction false} DistinctSeqCard(e: seq<string>)
    requires Distinct(e)
    ensures |set x | x in e| == |e|
  {
    if e != [] {
      var rest := e[1..];
      assert Distinct(rest) by {
        forall i, j | 0 <= i < j < |rest| ensures rest[i] != rest[j] {
          assert e[i + 1] == rest[i] && e[j + 1] == rest[j];
        }
      }
      DistinctSeqCard(rest);
      assert e[0] !in rest by {
        forall j | 0 <= j < |rest| ensures rest[j] != e[0] { assert e[j + 1] == rest[j]; }
      }
      assert (set x | x in e) == (set x | x in rest) + {e[0]};
    }
  }

  /**
   * `Serialize for Cfg`: the layered table, then its entries in the
   * emission order. A failing layer merge is only reported; the partially
   * merged table is serialized.
   */
  method Serialize(cfg: PC.Cfg) returns (entries: seq<(string, Value)>)
    ensures var t := Layered(cfg.default, cfg.environment, cfg.user, cfg.gossip);
      |entries| == |EmissionOrder(t)| &&
      forall i :: 0 <= i < |entries| ==> entries[i].0 == EmissionOrder(t)[i] && entries[i].0 in t && entries[i].1 == t[entries[i].0]
  {
    var table := LayerConfig(cfg);
    entries := EmitEntries(table);
    EmissionGrouped(table);
  }

  /** The four `toml_merge` calls of `Serialize for Cfg`, each on a present table layer. */
  method LayerConfig(cfg: PC.Cfg) returns (table: TomlTable)
    ensures table == Layered(cfg.default, cfg.environment, cfg.user, cfg.gossip)
  {
    table := map[];
    LayeredUnfold(cfg.default, cfg.environment, cfg.user, cfg.gossip);
    if cfg.default.Some? && cfg.default.value.Table? {
      var merged, _ := MergeRecurse(table, cfg.default.value.t, 0);
      table := merged;
    }
    if cfg.environment.Some? && cfg.environment.value.Table? {
      var merged, _ := MergeRecurse(table, cfg.environment.value.t, 0);
      table := merged;
    }
    if cfg.user.Some? && cfg.user.value.Table? {
      var merged, _ := MergeRecurse(table, cfg.user.value.t, 0);
      table := merged;
    }
    if cfg.gossip.Some? && cfg.gossip.value.Table? {
      var merged, _ := MergeRecurse(table, cfg.gossip.value.t, 0);
      table := merged;
    }
  }

  /** The three passes over the sorted keys: scalars, then arrays, then tables. */
  method EmitEntries(table: TomlTable) returns (entries: seq<(string, Value)>)
    ensures entries == Pairs(EmissionOrder(table), table)
  {
    var keys := SortedKeys(table.Keys);
    ghost var p, a, b := OfKind(keys, table, PlainKind), OfKind(keys, table, ArrayKind), OfKind(keys, table, TableKind);
    assert forall k :: k in keys ==> k in table;
    var e1 := EmitPass([], keys, table, PlainKind);
    var e2 := EmitPass(e1, keys, table, ArrayKind);
    entries := EmitPass(e2, keys, table, TableKind);
    assert EmissionOrder(table) == p + a + b;
    assert e1 == Pairs(p, table);
    PairsConcat(p, a, table);
    assert e2 == Pairs(p + a, table);
    PairsConcat(p + a, b, table);
  }

  /** One pass: appends, in key order, the entries whose value is of `kind`. */
  method EmitPass(entries: seq<(string, Value)>, keys: seq<string>, table: TomlTable, kind: Kind) returns (out: seq<(string, Value)>)
    requires forall k :: k in keys ==> k in table
    ensures out == entries + Pairs(OfKind(keys, table, kind), table)
  {
    out := entries;
    var i := 0;
    while i < |keys|
      invariant 0 <= i <= |keys|
      invariant out == entries + Pairs(OfKind(keys[..i], table, kind), table)
    {
      EmitStep(entries, out, keys, i, table, kind);
      if KindOf(table[keys[i]]) == kind {
        out := out + [(keys[i], table[keys[i]])];
      }
      i := i + 1;
    }
    assert keys[..|keys|] == keys;
  }

  lemma EmitStep(entries: seq<(string, Value)>, out: seq<(string, Value)>, keys: seq<string>, i: nat, table: TomlTable, kind: Kind)
    requires i < |keys| && forall k :: k in keys ==> k in table
    requires out == entries + Pairs(OfKind(keys[..i], table, kind), table)
    ensures keys[i] in table
    ensures KindOf(table[keys[i]]) == kind ==>
      out + [(keys[i], table[keys[i]])] == entries + Pairs(OfKind(keys[..i + 1], table, kind), table)
    ensures KindOf(table[keys[i]]) != kind ==> out == entries + Pairs(OfKind(keys[..i + 1], table, kind), table)
  {
    var k := keys[i];
    var done := OfKind(keys[..i], table, kind);
    assert keys[..i + 1] == keys[..i] + [k];
    assert k in keys;
    OfKindAppend(keys[..i], k, table, kind);
    if KindOf(table[k]) == kind {
      PairsConcat(done, [k], table);
      assert Pairs([k], table) == [(k, table[k])];
      ConcatAssoc(entries, Pairs(done, table), [(k, table[k])]);
    }
  }

  lemma ConcatAssoc<T>(a: seq<T>, b: seq<T>, c: seq<T>)
    ensures (a + b) + c == a + (b + c)
  {
  }

  function Pairs(keys: seq<string>, t: TomlTable): (r: seq<(string, Value)>)
    requires forall k :: k in keys ==> k in t
    ensures |r| == |keys| && forall i :: 0 <= i < |keys| ==> r[i] == (keys[i], t[keys[i]])
  {
    if keys == [] then [] else [(keys[0], t[keys[0]])] + Pairs(keys[1..], t)
  }

  lemma PairsConcat(a: seq<string>, b: seq<string>, t: TomlTable)
    requires forall k :: k in a ==> k in t
    requires forall k :: k in b ==> k in t
    ensures forall k :: k in a + b ==> k in t
    ensures Pairs(a + b, t) == Pairs(a, t) + Pairs(b, t)
  {
  }

  lemma {:induction false} OfKindAppend(keys: seq<string>, k: string, t: TomlTable, kind: Kind)
    requires k in t
    ensures KindOf(t[k]) == kind ==> OfKind(keys + [k], t, kind) == OfKind(keys, t, kind) + [k]
    ensures KindOf(t[k]) != kind ==> OfKind(keys + [k], t, kind) == OfKind(keys, t, kind)
  {
    if keys == [] {
      assert [k][1..] == [];
      assert OfKind([k], t, kind) == (if KindOf(t[k]) == kind then [k] else []) + OfKind([], t, kind);
    } else {
      assert (keys + [k])[1..] == keys[1..] + [k];
      OfKindAppend(keys[1..], k, t, kind);
      var head := if keys[0] in t && KindOf(t[keys[0]]) == kind then [keys[0]] else [];
      assert OfKind(keys + [k], t, kind) == head + OfKind(keys[1..] + [k], t, kind);
      if KindOf(t[k]) == kind {
        ConcatAssoc(head, OfKind(keys[1..], t, kind), [k]);
      }
    }
  }

  // ---------------------------------------------------------------------
  // The gossip update.

  /** A census group's service configuration rumor. */
  datatype GossipConfig = GossipConfig(incarnation: PC.u64, value: Value)

  predicate IsNewer(current: PC.u64, incoming: Option<GossipConfig>)
  {
    incoming.Some? && incoming.value.incarnation > current
  }

  /** `Cfg::update`: takes the census value only when it is strictly newer. */
  method Update(cfg: PC.Cfg, censusConfig: Option<GossipConfig>) returns (changed: bool)
    modifies cfg
    ensures changed == IsNewer(old(cfg.gossipIncarnation), censusConfig)
    ensures changed ==> cfg.gossipIncarnation == censusConfig.value.incarnation && cfg.gossip == Some(censusConfig.value.value)
    ensures !changed ==> cfg.gossipIncarnation == old(cfg.gossipIncarnation) && cfg.gossip == old(cfg.gossip)
    ensures cfg.default == old(cfg.default) && cfg.user == old(cfg.user) && cfg.environment == old(cfg.environment)
  {
    match censusConfig {
      case Some(config) =>
        if config.incarnation <= cfg.gossipIncarnation {
          return false;
        }
        cfg.gossipIncarnation := config.incarnation;
        cfg.gossip := Some(config.value);
        return true;
      case None =>
        return false;
    }
  }

  /**
   * Feeding the same census value twice: the second `update` reports no
   * change and leaves what the first one installed.
   */
  method UpdateTwice(cfg: PC.Cfg, censusConfig: Option<GossipConfig>) returns (first: bool, second: bool)
    modifies cfg
    ensures first == IsNewer(old(cfg.gossipIncarnation), censusConfig)
    ensures !second
    ensures first ==> cfg.gossipIncarnation == censusConfig.value.incarnation && cfg.gossip == Some(censusConfig.value.value)
    ensures !first ==> cfg.gossipIncarnation == old(cfg.gossipIncarnation) && cfg.gossip == old(cfg.gossip)
    ensures cfg.default == old(cfg.default) && cfg.user == old(cfg.user) && cfg.environment == old(cfg.environment)
  {
    first := Update(cfg, censusConfig);
    ghost var incarnation, gossip := cfg.gossipIncarnation, cfg.gossip;
    second := Update(cfg, censusConfig);
    assert cfg.gossipIncarnation == incarnation && cfg.gossip == gossip;
  }

  // ---------------------------------------------------------------------
  // Writing the rendered templates.

  /** The service's configuration directory: file path → contents. */
  class ConfigFiles {
    var contents: map<string, string>

    constructor (contents: map<string, string>)
      ensures this.contents == contents
    {
      this.contents := contents;
    }
  }

  datatype CompileError = RenderFailed(template: string) | WriteFailed(path: string)

  function Dest(svcConfigPath: string, template: string): string
  {
    svcConfigPath + "/" + template
  }

  /** `crypto::hash::hash_file`, or "" when the file cannot be hashed. */
  function FileHash(contents: map<string, string>, path: string, hash: string -> string): string
  {
    if path in contents then hash(contents[path]) else ""
  }

  predicate NeedsWrite(contents: map<string, string>, path: string, compiledHash: string, hash: string -> string)
  {
    FileHash(contents, path, hash) == "" || FileHash(contents, path, hash) != compiledHash
  }

  /**
   * The files and result after compiling `templates` in order, starting
   * from `changed`; a render or write failure stops, keeping earlier writes.
   */
  function CompileFrom(contents: map<string, string>, svcConfigPath: string, templates: seq<string>,
                       render: string -> Option<string>, hash: string -> string, unwritable: set<string>, changed: bool)
    : (map<string, string>, Result<bool, CompileError>)
    decreases |templates|
  {
    if templates == [] then (contents, Ok(changed))
    else
      var t := templates[0];
      match render(t)
      case None => (contents, Err(RenderFailed(t)))
      case Some(compiled) =>
        var dest := Dest(svcConfigPath, t);
        if !NeedsWrite(contents, dest, hash(compiled), hash) then
          CompileFrom(contents, svcConfigPath, templates[1..], render, hash, unwritable, changed)
        else if dest in unwritable then (contents, Err(WriteFailed(dest)))
        else CompileFrom(contents[dest := compiled], svcConfigPath, templates[1..], render, hash, unwritable, true)
  }

  /** `CfgRenderer::compile` over the abstract directory `files`. */
  method Compile(files: ConfigFiles, svcConfigPath: string, templates: seq<string>,
                 render: string -> Option<string>, hash: string -> string, unwritable: set<string>)
    returns (r: Result<bool, CompileError>)
    modifies files
    ensures (files.contents, r) == CompileFrom(old(files.contents), svcConfigPath, templates, render, hash, unwritable, false)
  {
    var changed := false;
    var i := 0;
    while i < |templates|
      invariant 0 <= i <= |templates|
      invariant CompileFrom(files.contents, svcConfigPath, templates[i..], render, hash, unwritable, changed)
        == CompileFrom(old(files.contents), svcConfigPath, templates, render, hash, unwritable, false)
    {
      var template := templates[i];
      assert templates[i..][1..] == templates[i + 1..];
      var compiled;
      match render(template) {
        case None => return Err(RenderFailed(template));
        case Some(c) => compiled := c;
      }
      var compiledHash := hash(compiled);
      var dest := Dest(svcConfigPath, template);
      var fileHash := if dest in files.contents then hash(files.contents[dest]) else "";
      if fileHash == "" {
        if dest in unwritable {
          return Err(WriteFailed(dest));
        }
        files.contents := files.contents[dest := compiled];
        changed := true;
      } else if fileHash == compiledHash {
      } else {
        if dest in unwritable {
          return Err(WriteFailed(dest));
        }
        files.contents := files.contents[dest := compiled];
        changed := true;
      }
      i := i + 1;
    }
    assert templates[i..] == [];
    return Ok(changed);
  }

  /** `p` is as it was before. */
  predicate Kept(before: map<string, string>, after: map<string, string>, p: string)
  {
    (p in after <==> p in before) && (p in before ==> after[p] == before[p])
  }

  /** `p` is the destination of a template that needed writing, and holds its rendering. */
  predicate Rewritten(before: map<string, string>, after: map<string, string>, p: string, path: string,
                      templates: seq<string>, render: string -> Option<string>, hash: string -> string)
    requires Rendered(templates, render)
  {
    exists i :: 0 <= i < |templates| && p == Dest(path, templates[i]) && p in after && after[p] == render(templates[i]).value &&
      NeedsWrite(before, p, hash(render(templates[i]).value), hash)
  }

  predicate Rendered(templates: seq<string>, render: string -> Option<string>)
  {
    forall i :: 0 <= i < |templates| ==> render(templates[i]).Some?
  }

  lemma DestInjective(path: string, a: string, b: string)
    requires Dest(path, a) == Dest(path, b)
    ensures a == b
  {
    assert a == Dest(path, a)[|path| + 1..];
    assert b == Dest(path, b)[|path| + 1..];
  }

  /**
   * `compile` succeeds with `true` exactly when some template's file was
   * missing, unhashable or stale, and only those files are rewritten,
   * each with its rendered contents.
   */
  lemma {:induction false} CompileWritesStale(contents: map<string, string>, path: string, templates: seq<string>,
                                              render: string -> Option<string>, hash: string -> string, changed: bool)
    requires Rendered(templates, render) && Distinct(templates)
    ensures var (after, r) := CompileFrom(contents, path, templates, render, hash, {}, changed);
      r.Ok? &&
      (r.value <==> changed || exists i :: 0 <= i < |templates| && NeedsWrite(contents, Dest(path, templates[i]), hash(render(templates[i]).value), hash)) &&
      (forall p :: Kept(contents, after, p) || Rewritten(contents, after, p, path, templates, render, hash))
    decreases |templates|
  {
    if templates != [] {
      var t := templates[0];
      var rest := templates[1..];
      TailOfDistinct(templates, render);
      var compiled := render(t).value;
      var dest := Dest(path, t);
      var needs := NeedsWrite(contents, dest, hash(compiled), hash);
      var next := if needs then contents[dest := compiled] else contents;
      var changed' := changed || needs;
      CompileWritesStale(next, path, rest, render, hash, changed');
      OthersUnaffected(contents, next, path, t, rest, render, hash);
      var (after, r) := CompileFrom(contents, path, templates, render, hash, {}, changed);
      assert (after, r) == CompileFrom(next, path, rest, render, hash, {}, changed');
      if r.value && !changed && !needs {
        var i :| 0 <= i < |rest| && NeedsWrite(next, Dest(path, rest[i]), hash(render(rest[i]).value), hash);
        assert templates[i + 1] == rest[i];
      }
      if !r.value {
        forall i | 0 <= i < |templates| ensures !NeedsWrite(contents, Dest(path, templates[i]), hash(render(templates[i]).value), hash) {
          if i > 0 { assert templates[i] == rest[i - 1]; }
        }
      }
      FootprintStep(contents, next, after, path, templates, render, hash);
    }
  }

  /** The rest of a list of distinct rendered templates is one too, without the first. */
  lemma TailOfDistinct(templates: seq<string>, render: string -> Option<string>)
    requires |templates| > 0 && Rendered(templates, render) && Distinct(templates)
    ensures render(templates[0]).Some? && Rendered(templates[1..], render) && Distinct(templates[1..])
    ensures templates[0] !in templates[1..]
  {
    var rest := templates[1..];
    forall i | 0 <= i < |rest| ensures render(rest[i]).Some? && rest[i] != templates[0] {
      assert rest[i] == templates[i + 1];
    }
    forall i, j | 0 <= i < j < |rest| ensures rest[i] != rest[j] {
      assert rest[i] == templates[i + 1] && rest[j] == templates[j + 1];
    }
  }

  /**
   * One step of the footprint: if the rest of the templates keep or
   * rewrite every file of `next`, all of them keep or rewrite every file
   * of `contents`.
   */
  lemma FootprintStep(contents: map<string, string>, next: map<string, string>, after: map<string, string>, path: string,
                      templates: seq<string>, render: string -> Option<string>, hash: string -> string)
    requires |templates| > 0 && Rendered(templates, render)
    requires next == (if NeedsWrite(contents, Dest(path, templates[0]), hash(render(templates[0]).value), hash)
      then contents[Dest(path, templates[0]) := render(templates[0]).value] else contents)
    requires forall i :: 1 <= i < |templates| ==> (Dest(path, templates[i]) != Dest(path, templates[0]) &&
      NeedsWrite(next, Dest(path, templates[i]), hash(render(templates[i]).value), hash) ==
      NeedsWrite(contents, Dest(path, templates[i]), hash(render(templates[i]).value), hash))
    requires forall p :: Kept(next, after, p) || Rewritten(next, after, p, path, templates[1..], render, hash)
    ensures forall p :: Kept(contents, after, p) || Rewritten(contents, after, p, path, templates, render, hash)
  {
    var rest := templates[1..];
    forall p ensures Kept(contents, after, p) || Rewritten(contents, after, p, path, templates, render, hash)
    {
      if !Kept(next, after, p) {
        var i :| 0 <= i < |rest| && p == Dest(path, rest[i]) && p in after && after[p] == render(rest[i]).value &&
          NeedsWrite(next, p, hash(render(rest[i]).value), hash);
        assert templates[i + 1] == rest[i];
      }
    }
  }

  /** The later templates write other files, so writing `t`'s file does not affect their decisions. */
  lemma OthersUnaffected(contents: map<string, string>, next: map<string, string>, path: string, t: string, rest: seq<string>,
                         render: string -> Option<string>, hash: string -> string)
    requires Rendered(rest, render) && t !in rest
    requires forall p :: p != Dest(path, t) ==> (p in next <==> p in contents) && (p in contents ==> next[p] == contents[p])
    ensures forall i :: 0 <= i < |rest| ==> (Dest(path, rest[i]) != Dest(path, t) &&
      NeedsWrite(next, Dest(path, rest[i]), hash(render(rest[i]).value), hash) ==
      NeedsWrite(contents, Dest(path, rest[i]), hash(render(rest[i]).value), hash))
  {
    forall i | 0 <= i < |rest| ensures Dest(path, rest[i]) != Dest(path, t) {
      if Dest(path, rest[i]) == Dest(path, t) {
        assert rest[i] in rest;
        DestInjective(path, rest[i], t);
        assert false;
      }
    }
  }

  /** After a successful compile, compiling again writes nothing and reports no change. */
  lemma {:induction false} CompileIdempotent(contents: map<string, string>, path: string, templates: seq<string>,
                                             render: string -> Option<string>, hash: string -> string, changed: bool)
    requires Rendered(templates, render) && Distinct(templates)
    requires forall i :: 0 <= i < |templates| ==> hash(render(templates[i]).value) != ""
    ensures var after := CompileFrom(contents, path, templates, render, hash, {}, changed).0;
      CompileFrom(after, path, templates, render, hash, {}, false) == (after, Ok(false))
  {
    var after := CompileFrom(contents, path, templates, render, hash, {}, changed).0;
    CompileWritesStale(contents, path, templates, render, hash, changed);
    forall i | 0 <= i < |templates| ensures !NeedsWrite(after, Dest(path, templates[i]), hash(render(templates[i]).value), hash) {
      var p := Dest(path, templates[i]);
      if NeedsWrite(contents, p, hash(render(templates[i]).value), hash) {
        CompileUpToDate(contents, path, templates, render, hash, changed, i);
      } else if !Kept(contents, after, p) {
        var j :| 0 <= j < |templates| && p == Dest(path, templates[j]) && p in after && after[p] == render(templates[j]).value &&
          NeedsWrite(contents, p, hash(render(templates[j]).value), hash);
        DestInjective(path, templates[i], templates[j]);
      }
    }
    CompileNoop(after, path, templates, render, hash, {});
  }

  /** A stale file is rewritten with its rendered contents. */
  lemma {:induction false} CompileUpToDate(contents: map<string, string>, path: string, templates: seq<string>,
                                           render: string -> Option<string>, hash: string -> string, changed: bool, i: nat)
    requires Rendered(templates, render) && Distinct(templates) && i < |templates|
    requires NeedsWrite(contents, Dest(path, templates[i]), hash(render(templates[i]).value), hash)
    ensures var after := CompileFrom(contents, path, templates, render, hash, {}, changed).0;
      Dest(path, templates[i]) in after && after[Dest(path, templates[i])] == render(templates[i]).value
    decreases |templates|
  {
    var t := templates[0];
    var rest := templates[1..];
    var compiled := render(t).value;
    var dest := Dest(path, t);
    assert render(t).Some? by { assert t == templates[0]; }
    assert Rendered(rest, render) by {
      forall j | 0 <= j < |rest| ensures render(rest[j]).Some? { assert rest[j] == templates[j + 1]; }
    }
    assert Distinct(rest) by {
      forall a, b | 0 <= a < b < |rest| ensures rest[a] != rest[b] { assert rest[a] == templates[a + 1] && rest[b] == templates[b + 1]; }
    }
    var needs := NeedsWrite(contents, dest, hash(compiled), hash);
    var next := if needs then contents[dest := compiled] else contents;
    if i == 0 {
      CompileWritesStale(next, path, rest, render, hash, changed || needs);
      var after := CompileFrom(next, path, rest, render, hash, {}, changed || needs).0;
      if !Kept(next, after, dest) {
        var j :| 0 <= j < |rest| && dest == Dest(path, rest[j]) && dest in after && after[dest] == render(rest[j]).value &&
          NeedsWrite(next, dest, hash(render(rest[j]).value), hash);
        assert rest[j] == templates[j + 1] && templates[j + 1] != templates[0];
        DestInjective(path, rest[j], t);
        assert false;
      }
    } else {
      assert templates[i] == rest[i - 1];
      var ti := templates[i];
      assert ti != t;
      if Dest(path, ti) == dest { DestInjective(path, ti, t); }
      CompileUpToDate(next, path, rest, render, hash, changed || needs, i - 1);
    }
  }

  /** When no template's file needs writing, compiling changes nothing and reports no change. */
  lemma {:induction false} CompileNoop(contents: map<string, string>, path: string, templates: seq<string>,
                                       render: string -> Option<string>, hash: string -> string, unwritable: set<string>)
    requires Rendered(templates, render)
    requires forall i :: 0 <= i < |templates| ==> !NeedsWrite(contents, Dest(path, templates[i]), hash(render(templates[i]).value), hash)
    ensures CompileFrom(contents, path, templates, render, hash, unwritable, false) == (contents, Ok(false))
  {
    if templates != [] {
      var rest := templates[1..];
      assert render(templates[0]).Some?;
      forall i | 0 <= i < |rest| ensures rest[i] == templates[i + 1] {}
      CompileNoop(contents, path, rest, render, hash, unwritable);
    }
  }

  // ---------------------------------------------------------------------
  // Export whitelisting, rooted where it was evidently meant to be.

  /** Looks a dotted path up segment by segment; any missing segment fails. */
  function StrictLookup(v: Value, fields: seq<string>): Option<Value>
  {
    if fields == [] then Some(v)
    else match PC.Get(v, fields[0])
      case Some(next) => StrictLookup(next, fields[1..])
      case None => None
  }

  /** Exports resolved against the layered configuration, with a strict walk. */
  function ExportedFromLayers(layered: TomlTable, exports: map<string, string>): (r: TomlTable)
    ensures r.Keys <= exports.Keys
    ensures forall key :: key in exports ==>
      (key in r <==> StrictLookup(Table(layered), Text.Split(exports[key], '.')).Some?)
    ensures forall key :: key in r ==> r[key] == StrictLookup(Table(layered), Text.Split(exports[key], '.')).value
  {
    map key | key in exports && StrictLookup(Table(layered), Text.Split(exports[key], '.')).Some? ::
      StrictLookup(Table(layered), Text.Split(exports[key], '.')).value
  }

  /** Where every segment resolves, the walk as written agrees with the strict lookup. */
  lemma {:induction false} WalkAgreesWhenResolved(v: Value, found: bool, fields: seq<string>)
    requires fields != [] && StrictLookup(v, fields).Some?
    ensures PC.Walk(v, found, fields) == (StrictLookup(v, fields).value, true)
  {
    var next := PC.Get(v, fields[0]).value;
    if |fields| > 1 {
      WalkAgreesWhenResolved(next, true, fields[1..]);
    }
  }

  /**
   * The export walk as written starts at the serialized record
   * (default/user/gossip/environment/gossip_incarnation), so a plain key
   * of the configuration such as "port" is never exported, although the
   * layered configuration holds it.
   */
  lemma ExportMissesConfigKeys(cfg: PC.Cfg, v: Value)
    requires cfg.default == Some(Table(map["port" := v]))
    requires cfg.user == None && cfg.gossip == None && cfg.environment == None && cfg.gossipIncarnation == 0
    ensures cfg.DerivedRecord().Ok?
    ensures !PC.Walk(cfg.DerivedRecord().value, false, Text.Split("port", '.')).1
    ensures "port" in ExportedFromLayers(Layered(cfg.default, cfg.environment, cfg.user, cfg.gossip), map["port" := "port"])
  {
    assert Text.Split("port", '.') == ["port"];
    var rec := cfg.DerivedRecord().value;
    assert PC.Get(rec, "port") == None;
    var t := map["port" := v];
    MergeIntoEmpty(t, 0);
    assert MergeLayer(map[], cfg.default) == t;
    LayeredUnfold(cfg.default, cfg.environment, cfg.user, cfg.gossip);
    assert Layered(cfg.default, cfg.environment, cfg.user, cfg.gossip) == t;
    assert StrictLookup(Table(t), ["port"]) == Some(v);
  }
}
