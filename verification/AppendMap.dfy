/**
 * Append-ordered map for sparse keys: a lookup table of (hash, ordinal) slots over a
 * `DenseOrderedMap` that keeps the entries in insertion order.
 */
module AppendMap {
  import opened Machine
  import opened Wrappers
  import opened DenseMap

  type Hash = x: int | 0 <= x < SIZE_LIMIT

  datatype Slot = Slot(hash: Hash, ordinal: Key)
  datatype Entry<K, V> = Entry(hash: Hash, key: K, value: V)

  // ---------------------------------------------------------------- reference

  /** The index of `key` in an association list, or its length when absent. */
  function IndexOf<K(==), V>(pairs: seq<(K, V)>, key: K): (i: nat)
    ensures i <= |pairs|
    ensures i < |pairs| ==> pairs[i].0 == key
    ensures forall j :: 0 <= j < i ==> pairs[j].0 != key
  {
    if pairs == [] || pairs[0].0 == key then 0 else 1 + IndexOf(pairs[1..], key)
  }

  /** Replace in place, or append at the end. */
  function Insert<K(==), V>(pairs: seq<(K, V)>, key: K, value: V): seq<(K, V)> {
    var i := IndexOf(pairs, key);
    if i < |pairs| then pairs[i := (key, value)] else pairs + [(key, value)]
  }

  function InsertAll<K(==), V>(pairs: seq<(K, V)>, more: seq<(K, V)>): seq<(K, V)>
    decreases |more|
  {
    if more == [] then pairs
    else Insert(InsertAll(pairs, more[..|more| - 1]), more[|more| - 1].0, more[|more| - 1].1)
  }

  /** Every way to change the map. */
  datatype Change<K, V> = PutPair(key: K, value: V) | PopPair | DropPairs(count: Size)

  function Changed<K(==), V>(pairs: seq<(K, V)>, c: Change<K, V>): seq<(K, V)> {
    match c
    case PutPair(key, value) => Insert(pairs, key, value)
    case PopPair => if pairs == [] then [] else pairs[1..]
    case DropPairs(count) => if count <= |pairs| then pairs[count..] else []
  }

  function ChangedBy<K(==), V>(pairs: seq<(K, V)>, changes: seq<Change<K, V>>): seq<(K, V)>
    decreases |changes|
  {
    if changes == [] then pairs
    else Changed(ChangedBy(pairs, changes[..|changes| - 1]), changes[|changes| - 1])
  }

  ghost predicate DistinctKeys<K, V>(pairs: seq<(K, V)>) {
    forall i, j :: 0 <= i < j < |pairs| ==> pairs[i].0 != pairs[j].0
  }

  /** The keys of a pair list, each at its first occurrence. */
  function FirstOccurrences<K(==), V>(pairs: seq<(K, V)>): seq<K>
    decreases |pairs|
  {
    if pairs == [] then []
    else
      var before, key := FirstOccurrences(pairs[..|pairs| - 1]), pairs[|pairs| - 1].0;
      if key in before then before else before + [key]
  }

  ghost predicate HasKey<K, V>(pairs: seq<(K, V)>, key: K) {
    exists i :: 0 <= i < |pairs| && pairs[i].0 == key
  }

  /** The value of the last pair with this key. */
  function LastValue<K(==), V>(pairs: seq<(K, V)>, key: K): V
    requires HasKey(pairs, key)
    decreases |pairs|
  {
    var last := pairs[|pairs| - 1];
    if last.0 == key then last.1 else LastValue(pairs[..|pairs| - 1], key)
  }

  lemma {:induction false} FirstOccurrencesAreTheKeys<K, V>(pairs: seq<(K, V)>, k: K)
    ensures k in FirstOccurrences(pairs) <==> HasKey(pairs, k)
    decreases |pairs|
  {
    if pairs != [] {
      var n := |pairs| - 1;
      var front := pairs[..n];
      FirstOccurrencesAreTheKeys(front, k);
      FirstOccurrencesAreTheKeys(front, pairs[n].0);
      if HasKey(front, k) {
        var i :| 0 <= i < |front| && front[i].0 == k;
        assert pairs[i].0 == k;
      }
      if i :| 0 <= i < |pairs| && pairs[i].0 == k {
        assert i < n ==> front[i].0 == k;
      }
      assert pairs[n].0 == k ==> HasKey(pairs, k);
    }
  }

  /** `all` lists each of `keys` once, in that order, with its last value in `pairs`. */
  ghost predicate Collected<K, V>(pairs: seq<(K, V)>, keys: seq<K>, all: seq<(K, V)>) {
    && |all| == |keys|
    && forall i :: 0 <= i < |keys| ==> HasKey(pairs, keys[i]) && all[i] == (keys[i], LastValue(pairs, keys[i]))
  }

  lemma LastValueStep<K, V>(pairs: seq<(K, V)>, k: K)
    requires pairs != []
    ensures HasKey(pairs[..|pairs| - 1], k) ==> HasKey(pairs, k)
    ensures HasKey(pairs, pairs[|pairs| - 1].0)
  {
    var n := |pairs| - 1;
    assert pairs[n].0 == pairs[n].0;
    if i :| 0 <= i < n && pairs[..n][i].0 == k {
      assert pairs[i].0 == k;
    }
  }

  /**
   * Collecting any pair list: keys come by first occurrence, each with its last value.
   */
  lemma {:induction false} CollectKeepsFirstKeysLastValues<K, V>(pairs: seq<(K, V)>)
    ensures Collected(pairs, FirstOccurrences(pairs), InsertAll([], pairs))
    ensures DistinctKeys(InsertAll([], pairs))
    decreases |pairs|
  {
    if pairs != [] {
      var n := |pairs| - 1;
      var front, last := pairs[..n], pairs[n];
      CollectKeepsFirstKeysLastValues(front);
      var keys, all := FirstOccurrences(front), InsertAll([], front);
      forall i | 0 <= i < |keys| ensures HasKey(pairs, keys[i]) {
        LastValueStep(pairs, keys[i]);
      }
      LastValueStep(pairs, last.0);
      var at := IndexOf(all, last.0);
      if at < |all| {
        assert keys[at] == last.0;
      } else {
        assert forall i :: 0 <= i < |keys| ==> keys[i] == all[i].0 != last.0;
      }
    }
  }

  lemma {:induction false} InsertInTwo<K, V>(a: seq<(K, V)>, b: seq<(K, V)>, c: seq<(K, V)>)
    ensures InsertAll(InsertAll(a, b), c) == InsertAll(a, b + c)
    decreases |c|
  {
    hide Insert;
    if c == [] {
      assert b + c == b;
    } else {
      var n := |c| - 1;
      InsertInTwo(a, b, c[..n]);
      assert (b + c)[..|b + c| - 1] == b + c[..n] && (b + c)[|b + c| - 1] == c[n];
    }
  }

  /** A list with distinct keys is collected as it is. */
  lemma {:induction false} DistinctIsCollected<K, V>(pairs: seq<(K, V)>)
    requires DistinctKeys(pairs)
    ensures InsertAll([], pairs) == pairs
    decreases |pairs|
  {
    if pairs != [] {
      var n := |pairs| - 1;
      DistinctIsCollected(pairs[..n]);
      assert pairs == pairs[..n] + [pairs[n]];
    }
  }

  lemma {:induction false} MoreOccurrences<K, V>(pairs: seq<(K, V)>, more: seq<(K, V)>)
    ensures FirstOccurrences(pairs) <= FirstOccurrences(pairs + more)
    decreases |more|
  {
    if more == [] {
      assert pairs + more == pairs;
    } else {
      var n := |more| - 1;
      MoreOccurrences(pairs, more[..n]);
      assert (pairs + more)[..|pairs + more| - 1] == pairs + more[..n];
    }
  }

  /** Every old key keeps its place. */
  ghost predicate KeepsKeys<K, V>(pairs: seq<(K, V)>, all: seq<(K, V)>) {
    |pairs| <= |all| && forall i :: 0 <= i < |pairs| ==> all[i].0 == pairs[i].0
  }

  /**
   * Insertions into any list with distinct keys: every old key keeps its place, new keys
   * follow by first occurrence, and each key has its last value.
   */
  lemma InsertAllExtends<K, V>(pairs: seq<(K, V)>, more: seq<(K, V)>)
    requires DistinctKeys(pairs)
    ensures Collected(pairs + more, FirstOccurrences(pairs + more), InsertAll(pairs, more))
    ensures KeepsKeys(pairs, InsertAll(pairs, more)) && DistinctKeys(InsertAll(pairs, more))
  {
    hide InsertAll, FirstOccurrences, LastValue, HasKey;
    DistinctIsCollected(pairs);
    InsertInTwo([], pairs, more);
    CollectKeepsFirstKeysLastValues(pairs + more);
    CollectKeepsFirstKeysLastValues(pairs);
    MoreOccurrences(pairs, more);
    var keys := FirstOccurrences(pairs);
    assert forall i :: 0 <= i < |keys| ==> FirstOccurrences(pairs + more)[i] == keys[i] == pairs[i].0;
  }

  // ---------------------------------------------------------------- the lookup table

  function PairOf<K, V>(e: Entry<K, V>): (K, V) {
    (e.key, e.value)
  }

  /** The association list a sequence of entries stands for. */
  function PairsOf<K, V>(es: seq<Entry<K, V>>): seq<(K, V)> {
    seq(|es|, i requires 0 <= i < |es| => PairOf(es[i]))
  }

  /**
   * Slots are in bijection with the ordinals [first, first + |es|), every entry carries
   * its key's hash, and keys are distinct.
   */
  ghost predicate Indexed<K, V>(first: Key, es: seq<Entry<K, V>>, lookup: set<Slot>, hashOf: K -> Hash) {
    SlotsPoint(first, es, lookup) && EntriesHaveSlots(first, es, lookup) && Hashed(es, hashOf) && DistinctKeys(PairsOf(es))
  }

  ghost predicate SlotsPoint<K, V>(first: Key, es: seq<Entry<K, V>>, lookup: set<Slot>) {
    forall slot :: slot in lookup ==> PointsAt(first, es, slot)
  }

  ghost predicate PointsAt<K, V>(first: Key, es: seq<Entry<K, V>>, slot: Slot) {
    0 <= slot.ordinal - first < |es| && es[slot.ordinal - first].hash == slot.hash
  }

  ghost predicate EntriesHaveSlots<K, V>(first: Key, es: seq<Entry<K, V>>, lookup: set<Slot>) {
    forall i :: 0 <= i < |es| ==> HasSlot(first, es, lookup, i)
  }

  ghost predicate HasSlot<K, V>(first: Key, es: seq<Entry<K, V>>, lookup: set<Slot>, i: int)
    requires 0 <= i < |es|
  {
    first + i < KEY_LIMIT && Slot(es[i].hash, first + i) in lookup
  }

  ghost predicate Hashed<K, V>(es: seq<Entry<K, V>>, hashOf: K -> Hash) {
    forall i :: 0 <= i < |es| ==> es[i].hash == hashOf(es[i].key)
  }

  /** The equality closure of a lookup: the slot's entry is retained and has this key. */
  ghost predicate Matches<K, V>(first: Key, es: seq<Entry<K, V>>, slot: Slot, key: K) {
    0 <= slot.ordinal - first < |es| && es[slot.ordinal - first].key == key
  }

  /** What a found or a missing slot says about the association list. */
  lemma FoundIndex<K, V>(
    first: Key, es: seq<Entry<K, V>>, lookup: set<Slot>, hashOf: K -> Hash, key: K, r: Option<Slot>)
    requires Indexed(first, es, lookup, hashOf)
    requires r.Some? ==> r.value in lookup && Matches(first, es, r.value, key)
    requires r.None? ==> forall slot :: slot in lookup && slot.hash == hashOf(key) ==> !Matches(first, es, slot, key)
    ensures r.Some? ==>
              IndexOf(PairsOf(es), key) == r.value.ordinal - first < |es| && es[r.value.ordinal - first].key == key
    ensures r.None? ==> IndexOf(PairsOf(es), key) == |es|
  {
    if r.Some? {
      assert PairsOf(es)[r.value.ordinal - first].0 == key;
    } else {
      forall j | 0 <= j < |es| ensures PairsOf(es)[j].0 != key {
        assert HasSlot(first, es, lookup, j);
        assert Slot(es[j].hash, first + j).hash == hashOf(key) ==> !Matches(first, es, Slot(es[j].hash, first + j), key);
      }
    }
  }

  lemma IndexedSet<K, V>(
    first: Key, es: seq<Entry<K, V>>, lookup: set<Slot>, hashOf: K -> Hash, at: nat, value: V)
    requires Indexed(first, es, lookup, hashOf) && at < |es|
    ensures var changed := es[at := es[at].(value := value)];
            && Indexed(first, changed, lookup, hashOf)
            && PairsOf(changed) == PairsOf(es)[at := (es[at].key, value)]
  {
    var changed := es[at := es[at].(value := value)];
    assert PairsOf(changed) == PairsOf(es)[at := (es[at].key, value)];
    assert forall i :: 0 <= i < |es| ==> PairsOf(changed)[i].0 == PairsOf(es)[i].0;
    assert DistinctKeys(PairsOf(changed));
    assert EntriesHaveSlots(first, changed, lookup) by {
      forall i | 0 <= i < |changed| ensures HasSlot(first, changed, lookup, i) {
        assert HasSlot(first, es, lookup, i);
      }
    }
    assert Hashed(changed, hashOf) && SlotsPoint(first, changed, lookup);
  }

  lemma IndexedPush<K, V>(
    first: Key, es: seq<Entry<K, V>>, lookup: set<Slot>, hashOf: K -> Hash, e: Entry<K, V>)
    requires Indexed(first, es, lookup, hashOf) && e.hash == hashOf(e.key)
    requires first + |es| < KEY_LIMIT && IndexOf(PairsOf(es), e.key) == |es|
    ensures Slot(e.hash, first + |es|) !in lookup
    ensures Indexed(first, es + [e], lookup + {Slot(e.hash, first + |es|)}, hashOf)
    ensures PairsOf(es + [e]) == PairsOf(es) + [(e.key, e.value)]
  {
    var all, slots := es + [e], lookup + {Slot(e.hash, first + |es|)};
    assert PairsOf(all) == PairsOf(es) + [(e.key, e.value)];
    assert DistinctKeys(PairsOf(all));
    assert EntriesHaveSlots(first, all, slots) by {
      forall i | 0 <= i < |all| ensures HasSlot(first, all, slots, i) {
        if i < |es| { assert HasSlot(first, es, lookup, i); }
      }
    }
    assert Hashed(all, hashOf) && SlotsPoint(first, all, slots);
  }

  lemma IndexedPop<K, V>(first: Key, es: seq<Entry<K, V>>, lookup: set<Slot>, hashOf: K -> Hash)
    requires Indexed(first, es, lookup, hashOf) && es != [] && first + 1 < KEY_LIMIT
    ensures Slot(es[0].hash, first) in lookup
    ensures forall slot :: slot in lookup && slot.ordinal == first ==> slot == Slot(es[0].hash, first)
    ensures Indexed(first + 1, es[1..], lookup - {Slot(es[0].hash, first)}, hashOf)
    ensures PairsOf(es[1..]) == PairsOf(es)[1..]
  {
    var rest, slots, next := es[1..], lookup - {Slot(es[0].hash, first)}, first + 1;
    assert HasSlot(first, es, lookup, 0);
    assert PairsOf(rest) == PairsOf(es)[1..];
    assert DistinctKeys(PairsOf(rest));
    assert EntriesHaveSlots(next, rest, slots) by {
      forall i | 0 <= i < |rest| ensures HasSlot(next, rest, slots, i) {
        assert HasSlot(first, es, lookup, i + 1);
      }
    }
    assert Hashed(rest, hashOf);
    assert SlotsPoint(next, rest, slots) by {
      forall slot | slot in slots ensures PointsAt(next, rest, slot) {
        assert PointsAt(first, es, slot) && slot != Slot(es[0].hash, first);
      }
    }
  }

  // ---------------------------------------------------------------- the map

  /** Source panics are values: an insertion fails only when no new ordinal is left. */
  datatype Exhausted = Exhausted

  class OrderedAppendMap<K(==), V> {
    const entries: DenseOrderedMap<Entry<K, V>>
    const hashOf: K -> Hash
    var lookup: set<Slot>

    ghost predicate Valid()
      reads this, entries
    {
      entries.Valid() && Indexed(entries.firstKey, entries.Contents(), lookup, hashOf)
    }

    /** The association list this map stands for. */
    ghost function View(): seq<(K, V)>
      reads entries
    {
      PairsOf(entries.Contents())
    }

    constructor (capacity: Size, hashOf: K -> Hash)
      requires capacity > 0
      ensures Valid() && View() == [] && fresh(entries)
      ensures this.hashOf == hashOf && entries.nextKey == 0
    {
      this.entries := new DenseOrderedMap<Entry<K, V>>(capacity, 0);
      this.hashOf := hashOf;
      this.lookup := {};
    }

    predicate Equals(slot: Slot, key: K)
      requires entries.Valid()
      reads this, entries
      ensures Equals(slot, key) <==> Matches(entries.firstKey, entries.Contents(), slot, key)
    {
      var e := entries.Get(slot.ordinal);
      e.Some? && e.value.key == key
    }

    /**
     * The hash table's find: any slot that satisfies the closure may be returned, and one
     * is returned whenever a satisfying slot was inserted under this hash.
     */
    method Find(hash: Hash, key: K) returns (r: Option<Slot>)
      requires Valid() && hash == hashOf(key)
      ensures r.Some? ==> r.value in lookup
      ensures var at := IndexOf(View(), key);
              && at <= |View()| == |entries.Contents()|
              && r.Some? == (at < |View()|)
              && (r.Some? ==> r.value.ordinal == entries.firstKey + at && entries.Contents()[at].key == key)
    {
      hide Layout, Flatten, Numbers, Indexed, entries.Position, entries.Valid, PositionIn;
      var lucky := *;
      if (exists slot :: slot in lookup && slot.hash == hash && Equals(slot, key))
        || (lucky && exists slot :: slot in lookup && Equals(slot, key)) {
        var any :| any in lookup && Equals(any, key);
        assert Equals(any, key);
        r := Some(any);
      } else {
        r := None;
        forall slot | slot in lookup && slot.hash == hash
          ensures !Matches(entries.firstKey, entries.Contents(), slot, key)
        {
          assert !Equals(slot, key);
        }
      }
      FoundIndex(entries.firstKey, entries.Contents(), lookup, hashOf, key, r);
    }

    /** Inserts, preserving the original ordinal of a replaced key. */
    method InsertPrehashed(hash: Hash, key: K, value: V) returns (r: Result<Option<V>, Exhausted>)
      requires Valid() && hash == hashOf(key)
      modifies this, entries
      ensures Valid()
      ensures var at := old(IndexOf(View(), key));
              && (r.Err? <==> at == |old(View())| &&
                              (old(entries.nextKey) + 1 == KEY_LIMIT || old(entries.len) + 1 == SIZE_LIMIT))
              && (r.Err? ==> View() == old(View()))
              && (r.Ok? ==>
                    && View() == Insert(old(View()), key, value)
                    && r.value == if at < |old(View())| then Some(old(View())[at].1) else None)
      ensures entries.firstKey == old(entries.firstKey)
      ensures entries.nextKey <= old(entries.nextKey) + 1 && entries.len <= old(entries.len) + 1
    {
      hide Layout, Flatten, Numbers, Indexed, entries.Valid, entries.Position;
      entries.Counted();
      ghost var first, es := entries.firstKey, entries.Contents();
      var existing := Find(hash, key);
      if existing.Some? {
        var ordinal := existing.value.ordinal;
        var entry := entries.Get(ordinal);
        assert entry.Some?;
        IndexedSet(first, es, lookup, hashOf, ordinal - first, value);
        var previous := entries.Set(ordinal, entry.value.(value := value));
        assert entries.Contents() == es[ordinal - first := es[ordinal - first].(value := value)];
        return Ok(Some(entry.value.value));
      }
      var ordinal := entries.nextKey;
      IndexedPush(first, es, lookup, hashOf, Entry(hash, key, value));
      var pushed := entries.Push(ordinal, Entry(hash, key, value));
      if pushed.Err? {
        return Err(Exhausted);
      }
      assert entries.Contents() == es + [Entry(hash, key, value)];
      entries.Counted();
      lookup := lookup + {Slot(hash, ordinal)};
      return Ok(None);
    }

    /** Lookup answers from the association list, also under hash collisions. */
    method GetPrehashed(hash: Hash, key: K) returns (r: Option<V>)
      requires Valid() && hash == hashOf(key)
      ensures var at := IndexOf(View(), key);
              r == if at < |View()| then Some(View()[at].1) else None
    {
      hide Layout, Flatten, Numbers, Indexed, entries.Position, entries.Valid, PositionIn;
      var found := Find(hash, key);
      if found.None? {
        return None;
      }
      var entry := entries.Get(found.value.ordinal);
      return if entry.Some? then Some(entry.value.value) else None;
    }

    /** The hash table's find_entry for one ordinal, with the same weak promise. */
    method FindOrdinal(hash: Hash, ordinal: Key) returns (r: Option<Slot>)
      ensures r.Some? ==> r.value in lookup && r.value.ordinal == ordinal
      ensures r.None? ==> Slot(hash, ordinal) !in lookup
    {
      if slot :| slot in lookup && slot.ordinal == ordinal {
        return Some(slot);
      }
      return None;
    }

    /** The first pair leaves, together with its lookup slot. */
    method PopFront() returns (r: Option<(K, V)>)
      requires Valid()
      modifies this, entries
      ensures Valid()
      ensures r.None? <==> old(View()) == []
      ensures r.None? ==> View() == old(View())
      ensures r.Some? ==> r.value == old(View())[0] && View() == old(View())[1..]
      ensures entries.nextKey == old(entries.nextKey) && entries.len <= old(entries.len)
    {
      hide Layout, Flatten, Numbers, Indexed, entries.Valid, entries.Position;
      entries.Counted();
      var ordinal := entries.firstKey;
      var entry := entries.Get(ordinal);
      if entry.None? {
        return None;
      }
      ghost var first, es := entries.firstKey, entries.Contents();
      IndexedPop(first, es, lookup, hashOf);
      var slot := FindOrdinal(entry.value.hash, ordinal);
      assert slot.Some?;
      lookup := lookup - {slot.value};
      var popped := entries.PopFront();
      assert popped.Some? && entries.Contents() == es[1..];
      assert lookup == old(lookup) - {Slot(es[0].hash, first)};
      entries.Counted();
      return Some((popped.value.1.key, popped.value.1.value));
    }

    /** Pops up to `count` times and reports how often. */
    method TruncateFront(count: Size) returns (removed: Size)
      requires Valid()
      modifies this, entries
      ensures Valid()
      ensures removed == if count <= |old(View())| then count else |old(View())|
      ensures View() == old(View())[removed..]
      ensures entries.nextKey == old(entries.nextKey) && entries.len <= old(entries.len)
    {
      hide Layout, Flatten, Numbers, Indexed, entries.Valid, entries.Position;
      removed := 0;
      var more := true;
      while removed < count && more
        invariant Valid()
        invariant removed <= count && removed <= |old(View())| && View() == old(View())[removed..]
        invariant !more ==> View() == []
        invariant entries.nextKey == old(entries.nextKey) && entries.len <= old(entries.len)
        decreases count - removed, more
      {
        var popped := PopFront();
        if popped.Some? {
          removed := removed + 1;
        } else {
          more := false;
        }
      }
    }

    lemma KeysAreDistinct()
      requires Valid()
      ensures DistinctKeys(View())
    {
    }

    /** Inserts every pair in turn; stops at a pair for which no ordinal is left. */
    method Extend(pairs: seq<(K, V)>) returns (ok: bool)
      requires Valid()
      modifies this, entries
      ensures Valid()
      ensures ok ==> View() == InsertAll(old(View()), pairs)
      ensures ok ==> Collected(old(View()) + pairs, FirstOccurrences(old(View()) + pairs), View())
      ensures KeepsKeys(old(View()), View())
      ensures !ok ==> exists n :: 0 <= n < |pairs| && View() == InsertAll(old(View()), pairs[..n])
      ensures old(entries.nextKey) + |pairs| < KEY_LIMIT && |old(View())| + |pairs| < SIZE_LIMIT ==> ok
    {
      KeysAreDistinct();
      hide Layout, Flatten, Numbers, Indexed, entries.Valid, entries.Position, Collected, KeepsKeys, FirstOccurrences;
      entries.Counted();
      for n := 0 to |pairs|
        invariant Valid() && View() == InsertAll(old(View()), pairs[..n])
        invariant entries.firstKey == old(entries.firstKey) && entries.nextKey <= old(entries.nextKey) + n
        invariant entries.len <= old(entries.len) + n
      {
        var (key, value) := pairs[n];
        var inserted := InsertPrehashed(hashOf(key), key, value);
        if inserted.Err? {
          assert 0 <= n < |pairs| && View() == InsertAll(old(View()), pairs[..n]);
          InsertAllExtends(old(View()), pairs[..n]);
          return false;
        }
        assert pairs[..n + 1][..n] == pairs[..n];
      }
      assert pairs[..|pairs|] == pairs;
      InsertAllExtends(old(View()), pairs);
      return true;
    }

    /** One change; only an insertion can find no ordinal left. */
    method Perform(c: Change<K, V>) returns (ok: bool)
      requires Valid()
      modifies this, entries
      ensures Valid()
      ensures View() == if ok then Changed(old(View()), c) else old(View())
      ensures !ok ==> old(entries.nextKey) + 1 == KEY_LIMIT || old(entries.len) + 1 == SIZE_LIMIT
      ensures entries.nextKey <= old(entries.nextKey) + 1 && entries.len <= old(entries.len) + 1
    {
      hide Layout, Flatten, Numbers, Indexed, entries.Valid, entries.Position;
      ok := true;
      match c
      case PutPair(key, value) =>
        var inserted := InsertPrehashed(hashOf(key), key, value);
        ok := inserted.Ok?;
      case PopPair => var _ := PopFront();
      case DropPairs(count) => var _ := TruncateFront(count);
    }

    /** Any run of changes refines the association list while key and length space remain. */
    method Replay(changes: seq<Change<K, V>>) returns (ok: bool)
      requires Valid()
      modifies this, entries
      ensures Valid()
      ensures ok ==> View() == ChangedBy(old(View()), changes)
      ensures !ok ==> exists n :: 0 <= n < |changes| && View() == ChangedBy(old(View()), changes[..n])
      ensures old(entries.nextKey) + |changes| < KEY_LIMIT && |old(View())| + |changes| < SIZE_LIMIT ==> ok
    {
      hide Layout, Flatten, Numbers, Indexed, entries.Valid, entries.Position;
      entries.Counted();
      for n := 0 to |changes|
        invariant Valid() && View() == ChangedBy(old(View()), changes[..n])
        invariant entries.nextKey <= old(entries.nextKey) + n && entries.len <= old(entries.len) + n
      {
        ok := Perform(changes[n]);
        if !ok {
          return;
        }
        assert changes[..n + 1][..n] == changes[..n];
      }
      assert changes[..|changes|] == changes;
      return true;
    }

    /** Collects any pair list that fits: keys by first occurrence, with their last values. */
    static method FromIter(capacity: Size, hashOf: K -> Hash, pairs: seq<(K, V)>)
      returns (m: OrderedAppendMap<K, V>, ok: bool)
      requires capacity > 0
      ensures m.Valid() && (|pairs| < SIZE_LIMIT ==> ok)
      ensures ok ==> Collected(pairs, FirstOccurrences(pairs), m.View())
    {
      m := new OrderedAppendMap<K, V>(capacity, hashOf);
      ok := m.Extend(pairs);
      CollectKeepsFirstKeysLastValues(pairs);
    }
  }
}
