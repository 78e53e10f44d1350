/**
 The incrementally rehashed hash table of moxi/assoc.c.  While an expansion is under way two
 tables are live: old buckets from `expandBucket` on have not been moved yet.  Chains are
 sequences, head first; every operation is a function here, and AssocTable holds the methods
 that carry them out in place.
 */
module Assoc {
  import opened Prelude

  type Key = seq<nat>
  datatype Item = Item(key: Key, data: nat)
  type Chain = seq<Item>

  /** The hash of a key. */
  type Hash = Key -> nat

  /** hashsize(n) */
  function Pow2(n: nat): (r: nat)
    ensures r >= 1
  { if n == 0 then 1 else 2 * Pow2(n - 1) }

  /** h & hashmask(n): the low `n` bits. */
  function Mask(h: nat, n: nat): (r: nat)
    ensures r < Pow2(n)
  { if n == 0 then 0 else h % 2 + 2 * Mask(h / 2, n - 1) }

  /** `prev` is the old table, empty unless expanding. */
  datatype Table = Table(
    power: nat, primary: seq<Chain>, prev: seq<Chain>, expanding: bool, expandBucket: nat, items: nat)

  /** Where a chain hangs: a bucket of the old table or of the primary one. */
  datatype Slot = Slot(inOld: bool, bucket: nat)

  predicate Shaped(t: Table) {
    && |t.primary| == Pow2(t.power)
    && (if t.expanding then t.power > 0 && |t.prev| == Pow2(t.power - 1) && t.expandBucket < |t.prev|
        else t.prev == [])
  }

  predicate IsSlot(t: Table, s: Slot) { s.bucket < if s.inOld then |t.prev| else |t.primary| }

  function At(t: Table, s: Slot): Chain
    requires IsSlot(t, s)
  { if s.inOld then t.prev[s.bucket] else t.primary[s.bucket] }

  function SetAt(t: Table, s: Slot, chain: Chain): (t': Table)
    requires Shaped(t) && IsSlot(t, s)
    ensures Shaped(t') && IsSlot(t', s) && At(t', s) == chain
    ensures forall x | IsSlot(t, x) && x != s :: IsSlot(t', x) && At(t', x) == At(t, x)
    ensures forall x | IsSlot(t', x) :: IsSlot(t, x)
  {
    if s.inOld then t.(prev := t.prev[s.bucket := chain]) else t.(primary := t.primary[s.bucket := chain])
  }

  /** A key is looked for in the old table while its old bucket has not been moved. */
  function SlotOf(t: Table, hash: Hash, key: Key): (s: Slot)
    requires Shaped(t)
    ensures IsSlot(t, s)
  {
    if t.expanding && Mask(hash(key), t.power - 1) >= t.expandBucket then Slot(true, Mask(hash(key), t.power - 1))
    else Slot(false, Mask(hash(key), t.power))
  }

  function FindIn(chain: Chain, key: Key): Option<Item> {
    if chain == [] then None else if chain[0].key == key then Some(chain[0]) else FindIn(chain[1..], key)
  }

  /** What unlinking the item that _hashitem_before points at leaves. */
  function RemoveFrom(chain: Chain, key: Key): Chain {
    if chain == [] then [] else if chain[0].key == key then chain[1..] else [chain[0]] + RemoveFrom(chain[1..], key)
  }

  // ----------------------------------------------------------------------------------------
  // The operations

  function Empty(power: nat): Table { Table(power, seq(Pow2(power), i => []), [], false, 0, 0) }

  function Find(t: Table, hash: Hash, key: Key): Option<Item>
    requires Shaped(t)
  { FindIn(At(t, SlotOf(t, hash, key)), key) }

  /** assoc_expand; `alloc` says whether the allocation of the larger table succeeds. */
  function Expand(t: Table, alloc: bool): Table {
    if alloc then Table(t.power + 1, seq(Pow2(t.power + 1), i => []), t.primary, true, 0, t.items) else t
  }

  function Link(t: Table, hash: Hash, it: Item): Table
    requires Shaped(t)
  {
    var s := SlotOf(t, hash, it.key);
    SetAt(t, s, [it] + At(t, s)).(items := t.items + 1)
  }

  function Insert(t: Table, hash: Hash, it: Item, alloc: bool): Table
    requires Shaped(t)
  {
    var t' := Link(t, hash, it);
    if !t'.expanding && t'.items > Pow2(t'.power) * 3 / 2 then Expand(t', alloc) else t'
  }

  function Delete(t: Table, hash: Hash, key: Key): Table
    requires Shaped(t) && t.items > 0
  {
    var s := SlotOf(t, hash, key);
    SetAt(t, s, RemoveFrom(At(t, s), key)).(items := t.items - 1)
  }

  /** Pushing the items of an old chain, in order, onto the chains of the new table. */
  function Spread(primary: seq<Chain>, power: nat, hash: Hash, chain: Chain): (r: seq<Chain>)
    requires |primary| == Pow2(power)
    ensures |r| == |primary|
    decreases |chain|
  {
    if chain == [] then primary
    else
      var b := Mask(hash(chain[0].key), power);
      Spread(primary[b := [chain[0]] + primary[b]], power, hash, chain[1..])
  }

  /** The maintenance thread moves one old bucket. */
  function Migrate(t: Table, hash: Hash): (t': Table)
    requires Shaped(t) && t.expanding
    ensures Shaped(t')
  {
    var t' := t.(primary := Spread(t.primary, t.power, hash, t.prev[t.expandBucket]),
                 prev := t.prev[t.expandBucket := []], expandBucket := t.expandBucket + 1);
    if t'.expandBucket == Pow2(t.power - 1) then t'.(expanding := false, prev := []) else t'
  }

  /** One pass of the maintenance thread under the lock: at most `bulk` buckets. */
  function MigrateSome(t: Table, hash: Hash, bulk: nat): (t': Table)
    requires Shaped(t)
    ensures Shaped(t')
    decreases bulk
  {
    if bulk == 0 || !t.expanding then t else MigrateSome(Migrate(t, hash), hash, bulk - 1)
  }

  // ----------------------------------------------------------------------------------------
  // The invariant and the abstraction

  predicate NoDup(chain: Chain) { forall i, j | 0 <= i < j < |chain| :: chain[i].key != chain[j].key }

  /** A chain whose items all belong in slot `s`, with no key twice. */
  predicate ChainOk(t: Table, hash: Hash, s: Slot, chain: Chain)
    requires Shaped(t)
  { NoDup(chain) && forall it | it in chain :: SlotOf(t, hash, it.key) == s }

  /** Every item sits in the one chain that its hash, the masks and `expandBucket` select. */
  ghost predicate Placed(t: Table, hash: Hash) {
    Shaped(t) && forall s | IsSlot(t, s) :: ChainOk(t, hash, s, At(t, s))
  }

  function Lookup(m: map<Key, Item>, k: Key): Option<Item> { if k in m then Some(m[k]) else None }

  /** The table is the finite map `m`: lookups agree on every key, and the item count is its size. */
  ghost predicate Refines(t: Table, hash: Hash, m: map<Key, Item>) {
    && Placed(t, hash)
    && (forall k :: Find(t, hash, k) == Lookup(m, k))
    && t.items == |m|
  }

  lemma {:induction false} FindInIs(chain: Chain, key: Key)
    ensures FindIn(chain, key).Some? <==> exists it :: it in chain && it.key == key
    ensures FindIn(chain, key).Some? ==> FindIn(chain, key).value in chain && FindIn(chain, key).value.key == key
  {
    if chain != [] {
      FindInIs(chain[1..], key);
      assert chain == [chain[0]] + chain[1..];
    }
  }

  lemma {:induction false} RemoveFromIs(chain: Chain, key: Key)
    requires NoDup(chain)
    ensures var r := RemoveFrom(chain, key);
      NoDup(r) && FindIn(r, key).None? && (forall k | k != key :: FindIn(r, k) == FindIn(chain, k))
    ensures forall it | it in RemoveFrom(chain, key) :: it in chain
  {
    if chain == [] {
    } else if chain[0].key == key {
      FindInIs(chain[1..], key);
    } else {
      RemoveFromIs(chain[1..], key);
      var rest := RemoveFrom(chain[1..], key);
      var r := [chain[0]] + rest;
      assert r[1..] == rest;
      forall j | 0 <= j < |rest| ensures chain[0].key != rest[j].key {
        assert rest[j] in chain[1..];
      }
    }
  }

  // ----------------------------------------------------------------------------------------
  // Find, insert and delete refine the map operations

  lemma EmptyRefines(power: nat, hash: Hash)
    ensures Refines(Empty(power), hash, map[])
  {
  }

  lemma SetAtPlaced(t: Table, hash: Hash, s: Slot, chain: Chain, items: nat)
    requires Placed(t, hash) && IsSlot(t, s) && ChainOk(t, hash, s, chain)
    ensures Placed(SetAt(t, s, chain).(items := items), hash)
  {
    var t' := SetAt(t, s, chain).(items := items);
    forall x | IsSlot(t', x) ensures ChainOk(t', hash, x, At(t', x)) {
      assert ChainOk(t, hash, x, At(SetAt(t, s, chain), x)) by {
        if x != s { assert At(SetAt(t, s, chain), x) == At(t, x); }
      }
      forall it | it in At(t', x) ensures SlotOf(t', hash, it.key) == x {
        assert SlotOf(t, hash, it.key) == x;
      }
    }
  }

  lemma ExpandRefines(t: Table, hash: Hash, alloc: bool, m: map<Key, Item>)
    requires Refines(t, hash, m) && !t.expanding
    ensures Refines(Expand(t, alloc), hash, m)
  {
    if alloc {
      var t' := Expand(t, alloc);
      forall s | IsSlot(t', s) ensures ChainOk(t', hash, s, At(t', s)) {
        if s.inOld { assert ChainOk(t, hash, Slot(false, s.bucket), At(t, Slot(false, s.bucket))); }
      }
      forall k ensures Find(t', hash, k) == Lookup(m, k) { assert Find(t, hash, k) == Lookup(m, k); }
    }
  }

  lemma LinkFinds(t: Table, hash: Hash, it: Item, k: Key)
    requires Shaped(t)
    ensures Find(Link(t, hash, it), hash, k) == if k == it.key then Some(it) else Find(t, hash, k)
  {
    var chain := At(t, SlotOf(t, hash, it.key));
    assert ([it] + chain)[1..] == chain;
    assert SlotOf(Link(t, hash, it), hash, k) == SlotOf(t, hash, k);
  }

  lemma LinkRefines(t: Table, hash: Hash, it: Item, m: map<Key, Item>)
    requires Refines(t, hash, m) && it.key !in m
    ensures Refines(Link(t, hash, it), hash, m[it.key := it])
  {
    var s := SlotOf(t, hash, it.key);
    assert ChainOk(t, hash, s, At(t, s));
    assert Find(t, hash, it.key) == Lookup(m, it.key);
    FindInIs(At(t, s), it.key);
    SetAtPlaced(t, hash, s, [it] + At(t, s), t.items + 1);
    forall k ensures Find(Link(t, hash, it), hash, k) == Lookup(m[it.key := it], k) {
      LinkFinds(t, hash, it, k);
      assert Find(t, hash, k) == Lookup(m, k);
    }
  }

  // assoc_insert adds the item to the map, whether or not it starts an expansion; it starts one, into
  // twice the buckets, exactly when none is under way, there are now more than 3/2 items a bucket and
  // the allocation succeeds.
  lemma InsertRefines(t: Table, hash: Hash, it: Item, alloc: bool, m: map<Key, Item>)
    requires Refines(t, hash, m) && it.key !in m
    ensures var t' := Insert(t, hash, it, alloc);
      && Refines(t', hash, m[it.key := it])
      && (if !t.expanding && 2 * (t.items + 1) > 3 * |t.primary| && alloc
          then t'.expanding && t'.expandBucket == 0 && |t'.primary| == 2 * |t.primary|
          else t'.expanding == t.expanding && t'.expandBucket == t.expandBucket && |t'.primary| == |t.primary|)
  {
    LinkRefines(t, hash, it, m);
    var t' := Link(t, hash, it);
    if !t'.expanding && t'.items > Pow2(t'.power) * 3 / 2 { ExpandRefines(t', hash, alloc, m[it.key := it]); }
  }

  lemma RemovedSize(m: map<Key, Item>, key: Key)
    requires key in m
    ensures |m - {key}| == |m| - 1
  {
    assert (m - {key})[key := m[key]] == m;
  }

  // assoc_delete removes the key from the map.
  lemma DeleteRefines(t: Table, hash: Hash, key: Key, m: map<Key, Item>)
    requires Refines(t, hash, m) && key in m
    ensures t.items > 0 && Refines(Delete(t, hash, key), hash, m - {key})
  {
    RemovedSize(m, key);
    var s := SlotOf(t, hash, key);
    var chain := At(t, s);
    var rest := RemoveFrom(chain, key);
    assert ChainOk(t, hash, s, chain);
    RemoveFromIs(chain, key);
    SetAtPlaced(t, hash, s, rest, t.items - 1);
    forall k ensures Find(Delete(t, hash, key), hash, k) == Lookup(m - {key}, k) {
      assert Find(t, hash, k) == Lookup(m, k);
      assert SlotOf(Delete(t, hash, key), hash, k) == SlotOf(t, hash, k);
    }
  }

  // ----------------------------------------------------------------------------------------
  // Migration

  // The mask is the remainder by a power of two.
  lemma {:induction false} MaskIs(h: nat, n: nat)
    ensures Mask(h, n) < Pow2(n) && exists q: nat :: h == q * Pow2(n) + Mask(h, n)
  {
    if n == 0 {
      assert h == h * Pow2(n) + Mask(h, n);
    } else {
      MaskIs(h / 2, n - 1);
      var q: nat :| h / 2 == q * Pow2(n - 1) + Mask(h / 2, n - 1);
      assert q * Pow2(n) == 2 * (q * Pow2(n - 1));
    }
  }

  // One more mask bit keeps the low bits.
  lemma {:induction false} MaskSplit(h: nat, n: nat)
    ensures Mask(h, n + 1) == Mask(h, n) || Mask(h, n + 1) == Mask(h, n) + Pow2(n)
  {
    if n > 0 { MaskSplit(h / 2, n - 1); }
  }

  /** The items of a chain that hash to bucket `b`, last first. */
  function Picked(chain: Chain, power: nat, hash: Hash, b: nat): Chain {
    if chain == [] then []
    else if Mask(hash(chain[0].key), power) == b then Picked(chain[1..], power, hash, b) + [chain[0]]
    else Picked(chain[1..], power, hash, b)
  }

  // What moving a chain does to each new bucket: its own items, in reverse, go in front.
  lemma {:induction false} SpreadIs(primary: seq<Chain>, power: nat, hash: Hash, chain: Chain, b: nat)
    requires |primary| == Pow2(power) && b < |primary|
    ensures Spread(primary, power, hash, chain)[b] == Picked(chain, power, hash, b) + primary[b]
    decreases |chain|
  {
    if chain != [] {
      var c := Mask(hash(chain[0].key), power);
      SpreadIs(primary[c := [chain[0]] + primary[c]], power, hash, chain[1..], b);
    }
  }

  lemma {:induction false} PickedHolds(chain: Chain, power: nat, hash: Hash, b: nat, it: Item)
    ensures it in Picked(chain, power, hash, b) <==> it in chain && Mask(hash(it.key), power) == b
  {
    if chain != [] {
      PickedHolds(chain[1..], power, hash, b, it);
      assert chain == [chain[0]] + chain[1..];
    }
  }

  lemma {:induction false} PickedNoDup(chain: Chain, power: nat, hash: Hash, b: nat)
    requires NoDup(chain)
    ensures NoDup(Picked(chain, power, hash, b))
  {
    if chain != [] {
      PickedNoDup(chain[1..], power, hash, b);
      var rest := Picked(chain[1..], power, hash, b);
      forall i | 0 <= i < |rest| ensures rest[i].key != chain[0].key {
        PickedHolds(chain[1..], power, hash, b, rest[i]);
      }
    }
  }

  lemma FindUnique(c: Chain, d: Chain, key: Key)
    requires NoDup(c) && NoDup(d)
    requires forall it: Item | it.key == key :: it in c <==> it in d
    ensures FindIn(c, key) == FindIn(d, key)
  {
    FindInIs(c, key);
    FindInIs(d, key);
  }

  // Before its old bucket is moved, the two new buckets it splits into are empty.
  lemma NewBucketEmpty(t: Table, hash: Hash, b: nat)
    requires Placed(t, hash) && t.expanding
    requires b == t.expandBucket || b == t.expandBucket + Pow2(t.power - 1)
    ensures b < |t.primary| && t.primary[b] == []
  {
    assert ChainOk(t, hash, Slot(false, b), At(t, Slot(false, b)));
    if t.primary[b] != [] {
      var it := t.primary[b][0];
      assert it in At(t, Slot(false, b));
      MaskSplit(hash(it.key), t.power - 1);
    }
  }

  // The two new buckets of the moved old bucket hold what hashes to them, all others are as before.
  lemma MigrateBucket(t: Table, hash: Hash, d: nat)
    requires Placed(t, hash) && t.expanding && d < |t.primary|
    ensures Migrate(t, hash).primary[d]
      == if d == t.expandBucket || d == t.expandBucket + Pow2(t.power - 1)
         then Picked(t.prev[t.expandBucket], t.power, hash, d) else t.primary[d]
  {
    var b := t.expandBucket;
    SpreadIs(t.primary, t.power, hash, t.prev[b], d);
    if d == b || d == b + Pow2(t.power - 1) {
      NewBucketEmpty(t, hash, d);
    } else {
      assert ChainOk(t, hash, Slot(true, b), At(t, Slot(true, b)));
      PickedNone(t.prev[b], t.power - 1, hash, b, d);
    }
  }

  // The two new buckets hold exactly the items of the old one.
  lemma MigrateLossless(t: Table, hash: Hash)
    requires Placed(t, hash) && t.expanding
    ensures var t', b, c := Migrate(t, hash), t.expandBucket, t.expandBucket + Pow2(t.power - 1);
      multiset(t'.primary[b]) + multiset(t'.primary[c]) == multiset(t.prev[b])
  {
    var b, c := t.expandBucket, t.expandBucket + Pow2(t.power - 1);
    MigrateBucket(t, hash, b);
    MigrateBucket(t, hash, c);
    assert ChainOk(t, hash, Slot(true, b), At(t, Slot(true, b)));
    PickedSplit(t.prev[b], t.power - 1, hash, b);
  }

  lemma MigrateHashes(t: Table, hash: Hash, d: nat, it: Item)
    requires Placed(t, hash) && t.expanding && d < |t.primary| && it in Migrate(t, hash).primary[d]
    ensures Mask(hash(it.key), t.power) == d
  {
    MigrateBucket(t, hash, d);
    PickedHolds(t.prev[t.expandBucket], t.power, hash, d, it);
    assert ChainOk(t, hash, Slot(false, d), At(t, Slot(false, d)));
  }

  /** Moving old bucket b fills new buckets b and b + 2^(power-1) with exactly its items, each
      with those of its hash, and changes no other bucket. */
  lemma MigrateSplits(t: Table, hash: Hash)
    requires Placed(t, hash) && t.expanding
    ensures var t', b, c := Migrate(t, hash), t.expandBucket, t.expandBucket + Pow2(t.power - 1);
      && multiset(t'.primary[b]) + multiset(t'.primary[c]) == multiset(t.prev[b])
      && (forall d, it | 0 <= d < |t.primary| && it in t'.primary[d] :: Mask(hash(it.key), t.power) == d)
      && (forall d | 0 <= d < |t.primary| && d != b && d != c :: t'.primary[d] == t.primary[d])
      && (t'.expanding ==> t'.prev == t.prev[b := []])
  {
    var t', b, c := Migrate(t, hash), t.expandBucket, t.expandBucket + Pow2(t.power - 1);
    MigrateLossless(t, hash);
    forall d, it | 0 <= d < |t.primary| && it in t'.primary[d] ensures Mask(hash(it.key), t.power) == d {
      MigrateHashes(t, hash, d, it);
    }
    forall d | 0 <= d < |t.primary| && d != b && d != c ensures t'.primary[d] == t.primary[d] {
      MigrateBucket(t, hash, d);
    }
  }

  lemma {:induction false} PickedSplit(chain: Chain, n: nat, hash: Hash, b: nat)
    requires forall it | it in chain :: Mask(hash(it.key), n) == b
    ensures multiset(Picked(chain, n + 1, hash, b)) + multiset(Picked(chain, n + 1, hash, b + Pow2(n)))
         == multiset(chain)
  {
    if chain != [] {
      assert chain[0] in chain;
      PickedSplit(chain[1..], n, hash, b);
      MaskSplit(hash(chain[0].key), n);
      assert chain == [chain[0]] + chain[1..];
    }
  }

  lemma {:induction false} PickedNone(chain: Chain, n: nat, hash: Hash, b: nat, d: nat)
    requires forall it | it in chain :: Mask(hash(it.key), n) == b
    requires d != b && d != b + Pow2(n)
    ensures Picked(chain, n + 1, hash, d) == []
  {
    if chain != [] {
      assert chain[0] in chain;
      PickedNone(chain[1..], n, hash, b, d);
      MaskSplit(hash(chain[0].key), n);
    }
  }

  // A key's slot after one bucket has been moved.
  lemma MigrateSlot(t: Table, hash: Hash, k: Key)
    requires Shaped(t) && t.expanding
    ensures var s, s' := SlotOf(t, hash, k), SlotOf(Migrate(t, hash), hash, k);
      s' == if s == Slot(true, t.expandBucket) then Slot(false, Mask(hash(k), t.power)) else s
  {
  }

  lemma MigrateAt(t: Table, hash: Hash, s: Slot)
    requires Placed(t, hash) && t.expanding && IsSlot(Migrate(t, hash), s)
    ensures var t', b := Migrate(t, hash), t.expandBucket;
      if s == Slot(true, b) then At(t', s) == []
      else IsSlot(t, s) && At(t', s) == (if s.inOld then [] else Picked(t.prev[b], t.power, hash, s.bucket)) + At(t, s)
  {
    if !s.inOld { SpreadIs(t.primary, t.power, hash, t.prev[t.expandBucket], s.bucket); }
  }

  lemma MigratePlaced(t: Table, hash: Hash)
    requires Placed(t, hash) && t.expanding
    ensures Placed(Migrate(t, hash), hash)
  {
    var t', b := Migrate(t, hash), t.expandBucket;
    assert ChainOk(t, hash, Slot(true, b), At(t, Slot(true, b)));
    forall s | IsSlot(t', s) ensures ChainOk(t', hash, s, At(t', s)) {
      MigrateAt(t, hash, s);
      if s != Slot(true, b) {
        assert ChainOk(t, hash, s, At(t, s));
        forall it | it in At(t', s) ensures SlotOf(t', hash, it.key) == s {
          MigrateSlot(t, hash, it.key);
          PickedHolds(t.prev[b], t.power, hash, s.bucket, it);
        }
        if !s.inOld { MovedNoDup(t, hash, s); }
      }
    }
  }

  lemma MovedNoDup(t: Table, hash: Hash, s: Slot)
    requires Placed(t, hash) && t.expanding && IsSlot(t, s) && !s.inOld
    ensures NoDup(Picked(t.prev[t.expandBucket], t.power, hash, s.bucket) + At(t, s))
  {
    var old' := Slot(true, t.expandBucket);
    var p := Picked(At(t, old'), t.power, hash, s.bucket);
    assert ChainOk(t, hash, s, At(t, s));
    assert ChainOk(t, hash, old', At(t, old'));
    PickedNoDup(At(t, old'), t.power, hash, s.bucket);
    forall i, j | 0 <= i < |p| && 0 <= j < |At(t, s)| ensures p[i].key != At(t, s)[j].key {
      PickedHolds(At(t, old'), t.power, hash, s.bucket, p[i]);
      assert SlotOf(t, hash, p[i].key) == old';
      assert SlotOf(t, hash, At(t, s)[j].key) == s;
    }
  }

  lemma MigrateFinds(t: Table, hash: Hash, k: Key)
    requires Placed(t, hash) && t.expanding
    ensures Find(Migrate(t, hash), hash, k) == Find(t, hash, k)
  {
    var t', b := Migrate(t, hash), t.expandBucket;
    var s, s' := SlotOf(t, hash, k), SlotOf(t', hash, k);
    MigrateSlot(t, hash, k);
    MigratePlaced(t, hash);
    MigrateAt(t, hash, s');
    assert ChainOk(t', hash, s', At(t', s'));
    assert ChainOk(t, hash, s, At(t, s));
    assert ChainOk(t, hash, Slot(true, b), At(t, Slot(true, b)));
    forall it: Item | it.key == k ensures it in At(t', s') <==> it in At(t, s) {
      PickedHolds(t.prev[b], t.power, hash, s'.bucket, it);
      if it in At(t, s') { assert ChainOk(t, hash, s', At(t, s')); }
    }
    FindUnique(At(t', s'), At(t, s), k);
  }

  // Moving a bucket changes no lookup and no count.
  lemma MigrateRefines(t: Table, hash: Hash, m: map<Key, Item>)
    requires Refines(t, hash, m) && t.expanding
    ensures Refines(Migrate(t, hash), hash, m)
  {
    MigratePlaced(t, hash);
    forall k ensures Find(Migrate(t, hash), hash, k) == Lookup(m, k) {
      MigrateFinds(t, hash, k);
      assert Find(t, hash, k) == Lookup(m, k);
    }
  }

  /** The old buckets still to be moved. */
  function Distance(t: Table): nat
    requires Shaped(t)
  { if t.expanding then Pow2(t.power - 1) - t.expandBucket else 0 }

  // A pass moves `bulk` buckets or finishes, so any passes that add up to the distance finish.
  lemma {:induction false} MigrateSomeRefines(t: Table, hash: Hash, bulk: nat, m: map<Key, Item>)
    requires Refines(t, hash, m)
    ensures var t' := MigrateSome(t, hash, bulk);
      && Refines(t', hash, m)
      && t'.power == t.power
      && Distance(t') == (if Distance(t) <= bulk then 0 else Distance(t) - bulk)
      && (t'.expanding <==> Distance(t) > bulk)
    decreases bulk
  {
    if bulk > 0 && t.expanding {
      MigrateRefines(t, hash, m);
      MigrateSomeRefines(Migrate(t, hash), hash, bulk - 1, m);
    }
  }

  // ----------------------------------------------------------------------------------------
  // Whole runs

  datatype Op = FindOp(key: Key) | InsertOp(it: Item, alloc: bool) | DeleteOp(key: Key) | MaintainOp(bulk: nat)

  /** What a caller sees; a failed assertion ends the process. */
  datatype Reply = Found(item: Option<Item>) | Done | AssertFailed

  function TableStep(t: Table, hash: Hash, op: Op): (Table, Reply)
    requires Shaped(t)
  {
    match op
    case FindOp(key) => (t, Found(Find(t, hash, key)))
    case InsertOp(it, alloc) =>
      if Find(t, hash, it.key) != None then (t, AssertFailed) else (Insert(t, hash, it, alloc), Done)
    case DeleteOp(key) =>
      if Find(t, hash, key) == None || t.items == 0 then (t, AssertFailed) else (Delete(t, hash, key), Done)
    case MaintainOp(bulk) => (MigrateSome(t, hash, bulk), Done)
  }

  function MapStep(m: map<Key, Item>, op: Op): (map<Key, Item>, Reply) {
    match op
    case FindOp(key) => (m, Found(Lookup(m, key)))
    case InsertOp(it, _) => if it.key in m then (m, AssertFailed) else (m[it.key := it], Done)
    case DeleteOp(key) => if key !in m then (m, AssertFailed) else (m - {key}, Done)
    case MaintainOp(_) => (m, Done)
  }

  lemma StepRefines(t: Table, hash: Hash, op: Op, m: map<Key, Item>)
    requires Refines(t, hash, m)
    ensures TableStep(t, hash, op).1 == MapStep(m, op).1
    ensures Refines(TableStep(t, hash, op).0, hash, MapStep(m, op).0)
  {
    match op {
      case FindOp(key) => assert Find(t, hash, key) == Lookup(m, key);
      case InsertOp(it, alloc) =>
        assert Find(t, hash, it.key) == Lookup(m, it.key);
        if it.key !in m { InsertRefines(t, hash, it, alloc, m); }
      case DeleteOp(key) =>
        assert Find(t, hash, key) == Lookup(m, key);
        if key in m { DeleteRefines(t, hash, key, m); }
      case MaintainOp(bulk) => MigrateSomeRefines(t, hash, bulk, m);
    }
  }

  ghost function RunTable(t: Table, hash: Hash, ops: seq<Op>): seq<Reply>
    requires Placed(t, hash)
    decreases |ops|
  {
    if ops == [] then []
    else
      var (t', r) := TableStep(t, hash, ops[0]);
      [r] + if r == AssertFailed || !Placed(t', hash) then [] else RunTable(t', hash, ops[1..])
  }

  ghost function RunMap(m: map<Key, Item>, ops: seq<Op>): seq<Reply>
    decreases |ops|
  {
    if ops == [] then []
    else
      var (m', r) := MapStep(m, ops[0]);
      [r] + if r == AssertFailed then [] else RunMap(m', ops[1..])
  }

  /** Whatever finds, inserts, deletes and migration passes are interleaved, from any table that
      refines a map callers see exactly that map. */
  lemma {:induction false} RunRefines(t: Table, hash: Hash, ops: seq<Op>, m: map<Key, Item>)
    requires Refines(t, hash, m)
    ensures RunTable(t, hash, ops) == RunMap(m, ops)
    decreases |ops|
  {
    if ops != [] {
      StepRefines(t, hash, ops[0], m);
      RunRefines(TableStep(t, hash, ops[0]).0, hash, ops[1..], MapStep(m, ops[0]).0);
    }
  }
}
