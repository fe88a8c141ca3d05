/**
 * The butterfly rumor store: rumors kept under `key + ":::" + member_id`,
 * merged on insert, and an update counter that is bumped on every change
 * and wraps at the width of `usize`.
 *
 * The LMDB database becomes the map `entries`; the rumor type's `merge`
 * and its wire encoding are parameters of the store.
 */
module Rumor {
  import opened Wrappers

  /** `usize::MAX + 1` on a 64-bit target. */
  const UsizeModulus: int := 0x1_0000_0000_0000_0000
  const UsizeMax: int := UsizeModulus - 1

  newtype usize = x: int | 0 <= x < 0x1_0000_0000_0000_0000

  datatype RumorType = Member | Service | Election | ElectionUpdate | ServiceConfig | ServiceFile | Departure | Fake | Fake2

  datatype RumorKey = RumorKey(kind: RumorType, id: string, key: string)
  {
    /** `RumorKey::key`: "id-key", or just the id when the key is empty. */
    function Key(): (s: string)
      ensures |s| >= |id| && s[..|id|] == id
      ensures key == [] ==> s == id
      ensures key != [] ==> |s| == |id| + 1 + |key| && s[|id|] == '-' && s[|id| + 1..] == key
    {
      if |key| > 0 then id + "-" + key else id
    }
  }

  /** What merging an incoming rumor into the stored one decided. */
  datatype MergeResult<T> = ShareExisting | ShareNew(rumor: T) | StopSharing

  datatype RumorError = NonExistentRumor(memberId: string, key: string) | EncodeFailed

  /** `RumorStore::db_key`. */
  function DbKey(key: string, memberId: string): string
  {
    key + ":::" + memberId
  }

  /** Two members' rumors under the same key get different slots. */
  lemma DbKeySameKey(key: string, a: string, b: string)
    ensures DbKey(key, a) == DbKey(key, b) <==> a == b
  {
    if DbKey(key, a) == DbKey(key, b) {
      assert a == DbKey(key, a)[|key| + 3..];
      assert b == DbKey(key, b)[|key| + 3..];
    }
  }

  /** When keys hold no ':', the slot determines the key and the member. */
  lemma DbKeyInjective(k1: string, i1: string, k2: string, i2: string)
    requires ':' !in k1 && ':' !in k2
    ensures DbKey(k1, i1) == DbKey(k2, i2) <==> k1 == k2 && i1 == i2
  {
    if DbKey(k1, i1) == DbKey(k2, i2) {
      var d := DbKey(k1, i1);
      FirstColon(k1, i1);
      FirstColon(k2, i2);
      assert |k1| == |k2|;
      assert k1 == d[..|k1|] && k2 == d[..|k2|];
      DbKeySameKey(k1, i1, i2);
    }
  }

  /** In a slot whose key has no ':', the first ':' sits just after the key. */
  lemma FirstColon(k: string, i: string)
    requires ':' !in k
    ensures DbKey(k, i)[|k|] == ':'
    ensures forall j :: 0 <= j < |k| ==> DbKey(k, i)[j] != ':'
  {
    assert forall j :: 0 <= j < |k| ==> DbKey(k, i)[j] == k[j];
  }

  /** `fetch_add(1)` on the counter: adds one, wrapping at `usize::MAX`. */
  function Increment(c: usize): (r: usize)
    ensures c as int < UsizeMax ==> r as int == c as int + 1
    ensures c as int == UsizeMax ==> r == 0
  {
    ((c as int + 1) % UsizeModulus) as usize
  }

  /** The updated bool, slot contents and counter after `insert`. */
  datatype Inserted<T> = Inserted(entries: map<string, T>, counter: usize, updated: bool)

  /** `RumorStore::insert` on values: merge with the stored rumor, or share a new one. */
  function InsertInto<T>(entries: map<string, T>, counter: usize, slot: string, rumor: T, merge: (T, T) -> MergeResult<T>): (r: Inserted<T>)
    ensures r.entries.Keys == entries.Keys + {slot}
    ensures forall k :: k in entries && k != slot ==> r.entries[k] == entries[k]
    ensures r.counter == if r.updated then Increment(counter) else counter
  {
    var result := if slot in entries then merge(entries[slot], rumor) else ShareNew(rumor);
    match result
    case StopSharing => Inserted(entries, counter, false)
    case ShareExisting => Inserted(entries, Increment(counter), true)
    case ShareNew(r) => Inserted(entries[slot := r], Increment(counter), true)
  }

  lemma InsertVacant<T>(entries: map<string, T>, counter: usize, slot: string, rumor: T, merge: (T, T) -> MergeResult<T>)
    requires slot !in entries
    ensures var r := InsertInto(entries, counter, slot, rumor, merge);
      r.updated && slot in r.entries && r.entries[slot] == rumor && r.counter == Increment(counter)
  {
  }

  /** The three outcomes on an occupied slot. */
  lemma InsertOccupied<T>(entries: map<string, T>, counter: usize, slot: string, rumor: T, merge: (T, T) -> MergeResult<T>)
    requires slot in entries
    ensures var r := InsertInto(entries, counter, slot, rumor, merge);
      match merge(entries[slot], rumor)
      case StopSharing => !r.updated && r.entries == entries && r.counter == counter
      case ShareExisting => r.updated && r.entries == entries && r.counter == Increment(counter)
      case ShareNew(n) => r.updated && r.entries == entries[slot := n] && r.counter == Increment(counter)
  {
  }

  /** Inserting a rumor whose merge says `StopSharing` a second time changes nothing. */
  lemma InsertTwiceStops<T>(rumor: T, slot: string, counter: usize, merge: (T, T) -> MergeResult<T>)
    requires merge(rumor, rumor) == StopSharing
    ensures var first := InsertInto(map[], counter, slot, rumor, merge);
      var second := InsertInto(first.entries, first.counter, slot, rumor, merge);
      first.updated && !second.updated && second.entries == first.entries && second.counter == first.counter
  {
    var first := InsertInto(map[], counter, slot, rumor, merge);
    assert first.entries == map[slot := rumor];
  }

  /** Two members' rumors under one key both land in the store and count twice. */
  lemma InsertTwoMembers<T>(key: string, a: string, b: string, ra: T, rb: T, merge: (T, T) -> MergeResult<T>)
    requires a != b
    ensures var first := InsertInto(map[], 0, DbKey(key, a), ra, merge);
      var second := InsertInto(first.entries, first.counter, DbKey(key, b), rb, merge);
      first.updated && second.updated && second.counter == 2 &&
      DbKey(key, a) in second.entries && DbKey(key, b) in second.entries &&
      second.entries[DbKey(key, a)] == ra && second.entries[DbKey(key, b)] == rb
  {
    DbKeySameKey(key, a, b);
    var first := InsertInto(map[], 0, DbKey(key, a), ra, merge);
    assert first.entries == map[DbKey(key, a) := ra];
  }

  lemma CounterWraps()
    ensures Increment(UsizeMax as usize) == 0
    ensures Increment(0) == 1
  {
  }

  class RumorStore<T> {
    const name: string
    /** The rumor type's `key()`, `id()` and `merge`. */
    const keyOf: T -> string
    const idOf: T -> string
    const merge: (T, T) -> MergeResult<T>
    var entries: map<string, T>
    var updateCounter: usize

    /** `RumorStore::new`, with the counter preset. */
    constructor (name: string, counter: usize, keyOf: T -> string, idOf: T -> string, merge: (T, T) -> MergeResult<T>)
      ensures this.name == name && this.keyOf == keyOf && this.idOf == idOf && this.merge == merge
      ensures entries == map[] && updateCounter == counter
    {
      this.name := name;
      this.keyOf := keyOf;
      this.idOf := idOf;
      this.merge := merge;
      entries := map[];
      updateCounter := counter;
    }

    /** Empties the store and resets the counter, returning its previous value. */
    method Clear() returns (previous: usize)
      modifies this
      ensures entries == map[] && updateCounter == 0 && previous == old(updateCounter)
    {
      entries := map[];
      previous := updateCounter;
      updateCounter := 0;
    }

    /** The stored rumor's encoding, or `NonExistentRumor(member_id, db_key)`. */
    method Encode(key: string, memberId: string, writeToBytes: T -> Result<seq<bv8>, RumorError>) returns (r: Result<seq<bv8>, RumorError>)
      ensures DbKey(key, memberId) in entries ==> r == writeToBytes(entries[DbKey(key, memberId)])
      ensures DbKey(key, memberId) !in entries ==> r == Err(NonExistentRumor(memberId, DbKey(key, memberId)))
    {
      var slot := DbKey(key, memberId);
      if slot in entries {
        r := writeToBytes(entries[slot]);
      } else {
        r := Err(NonExistentRumor(memberId, slot));
      }
    }

    /** `get_update_counter`: the count of changes since creation or the last clear. */
    function GetUpdateCounter(): (n: usize)
      reads this
      ensures n == updateCounter
    {
      updateCounter
    }

    /** Stores or merges `rumor` under its slot; true when anything is to be shared. */
    method Insert(rumor: T) returns (updated: bool)
      modifies this
      ensures Inserted(entries, updateCounter, updated) ==
        InsertInto(old(entries), old(updateCounter), DbKey(keyOf(rumor), idOf(rumor)), rumor, merge)
    {
      var slot := DbKey(keyOf(rumor), idOf(rumor));
      var result := if slot in entries then merge(entries[slot], rumor) else ShareNew(rumor);
      match result {
        case StopSharing => updated := false;
        case ShareExisting => updated := true;
        case ShareNew(r) =>
          entries := entries[slot := r];
          updated := true;
      }
      if updated {
        IncrementUpdateCounter();
      }
    }

    /** Deletes exactly the slot of (`key`, `id`). */
    method Remove(key: string, id: string)
      modifies this
      ensures entries == old(entries) - {DbKey(key, id)}
      ensures updateCounter == old(updateCounter)
    {
      entries := entries - {DbKey(key, id)};
    }

    /** Whether the slot of (`key`, `id`) holds a rumor. */
    method ContainsRumor(key: string, id: string) returns (b: bool)
      ensures b <==> DbKey(key, id) in entries
    {
      b := DbKey(key, id) in entries;
    }

    method IncrementUpdateCounter()
      modifies this
      ensures updateCounter == Increment(old(updateCounter))
      ensures entries == old(entries)
    {
      updateCounter := Increment(updateCounter);
    }
  }

  /**
   * The store's counter scenarios: one increment from 0 reads 1, an
   * increment at `usize::MAX` reads 0, and inserting the rumors of two
   * members under one key reads 2.
   */
  method CounterScenarios<T>(keyOf: T -> string, idOf: T -> string, merge: (T, T) -> MergeResult<T>, ra: T, rb: T)
    returns (afterIncrement: usize, afterOverflow: usize, afterTwoInserts: usize)
    requires keyOf(ra) == keyOf(rb) && idOf(ra) != idOf(rb)
    ensures afterIncrement == 1 && afterOverflow == 0 && afterTwoInserts == 2
  {
    var rs := new RumorStore("fakerumor", 0, keyOf, idOf, merge);
    rs.IncrementUpdateCounter();
    afterIncrement := rs.GetUpdateCounter();
    var full := new RumorStore("fakerumor", UsizeMax as usize, keyOf, idOf, merge);
    full.IncrementUpdateCounter();
    afterOverflow := full.GetUpdateCounter();
    var two := new RumorStore("fakerumor", 0, keyOf, idOf, merge);
    var _ := two.Insert(ra);
    var _ := two.Insert(rb);
    InsertTwoMembers(keyOf(ra), idOf(ra), idOf(rb), ra, rb, merge);
    afterTwoInserts := two.GetUpdateCounter();
  }

  /** Removing one member's rumor leaves the other members' rumors under the key. */
  lemma RemoveKeepsOthers<T>(entries: map<string, T>, key: string, id: string, other: string)
    requires other != id && DbKey(key, other) in entries
    ensures DbKey(key, other) in entries - {DbKey(key, id)}
  {
    DbKeySameKey(key, id, other);
  }
}
