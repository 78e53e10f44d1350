/** The table of moxi/assoc.c in place: arrays of chains, walked and relinked by loops. */
module AssocTable {
  import opened Prelude
  import opened Assoc

  // Unlinking the first item with the key.
  lemma {:induction false} RemoveFromAt(chain: Chain, key: Key, i: nat)
    requires i < |chain| && chain[i].key == key
    requires forall j | 0 <= j < i :: chain[j].key != key
    ensures RemoveFrom(chain, key) == chain[..i] + chain[i + 1..]
  {
    if i > 0 {
      assert forall j | 0 <= j < i - 1 :: chain[1..][j].key == chain[j + 1].key;
      RemoveFromAt(chain[1..], key, i - 1);
    }
  }

  class HashTable {
    const hash: Hash
    var power: nat
    var primary: array<Chain>
    var prev: array<Chain>
    var expanding: bool
    var expandBucket: nat
    var items: nat
    /** The finite map that the table stands for. */
    ghost var entries: map<Key, Item>

    ghost function View(): Table
      reads this, primary, prev
    { Table(power, primary[..], if expanding then prev[..] else [], expanding, expandBucket, items) }

    ghost predicate Valid()
      reads this, primary, prev
    { primary != prev && Refines(View(), hash, entries) }

    constructor (hash: Hash, power: nat)
      ensures Valid() && entries == map[] && View() == Empty(power)
      ensures this.hash == hash && fresh(primary) && fresh(prev)
    {
      EmptyRefines(power, hash);
      this.hash, this.power := hash, power;
      primary := new Chain[Pow2(power)](_ => []);
      prev := new Chain[0];
      expanding, expandBucket, items, entries := false, 0, 0, map[];
      new;
      assert View() == Empty(power);
    }

    method Find(key: Key) returns (found: Option<Item>)
      requires Valid()
      ensures found == Lookup(entries, key)
    {
      ghost var slot := SlotOf(View(), hash, key);
      var chain: Chain;
      if expanding && Mask(hash(key), power - 1) >= expandBucket {
        chain := prev[Mask(hash(key), power - 1)];
      } else {
        chain := primary[Mask(hash(key), power)];
      }
      assert FindIn(chain, key) == Assoc.Find(View(), hash, key) == Lookup(entries, key);
      var i := 0;
      while i < |chain|
        invariant 0 <= i <= |chain|
        invariant FindIn(chain[i..], key) == FindIn(chain, key)
      {
        if chain[i].key == key { return Some(chain[i]); }
        i := i + 1;
      }
      return None;
    }

    /** Writing through the pointer to a chain's head. */
    method Store(inOld: bool, bucket: nat, chain: Chain)
      requires primary != prev && Shaped(View()) && IsSlot(View(), Slot(inOld, bucket))
      modifies primary, prev
      ensures View() == SetAt(old(View()), Slot(inOld, bucket), chain)
    {
      if inOld { prev[bucket] := chain; } else { primary[bucket] := chain; }
    }

    method Expand(alloc: bool)
      requires Valid() && !expanding
      modifies this
      ensures Valid() && entries == old(entries) && View() == Assoc.Expand(old(View()), alloc)
      ensures fresh({primary, prev} - old({primary, prev}))
    {
      ExpandRefines(View(), hash, alloc, entries);
      if alloc {
        ghost var was := primary[..];
        prev := primary;
        primary := new Chain[Pow2(power + 1)](_ => []);
        power, expanding, expandBucket := power + 1, true, 0;
        assert prev[..] == was;
        assert View() == Assoc.Expand(old(View()), alloc);
      }
    }

    /** Pushing an item onto its chain. */
    method PushItem(it: Item)
      requires Valid() && it.key !in entries
      modifies this, primary, prev
      ensures Valid() && entries == old(entries)[it.key := it] && View() == Link(old(View()), hash, it)
      ensures primary == old(primary) && prev == old(prev)
    {
      LinkRefines(View(), hash, it, entries);
      if expanding && Mask(hash(it.key), power - 1) >= expandBucket {
        var b := Mask(hash(it.key), power - 1);
        Store(true, b, [it] + prev[b]);
      } else {
        var b := Mask(hash(it.key), power);
        Store(false, b, [it] + primary[b]);
      }
      items, entries := items + 1, entries[it.key := it];
      assert View() == Link(old(View()), hash, it);
    }

    /** assoc_insert; false stands for its failed assertion that the key is absent. */
    method Insert(it: Item, alloc: bool) returns (ok: bool)
      requires Valid()
      modifies this, primary, prev
      ensures Valid() && ok == (it.key !in old(entries))
      ensures entries == if ok then old(entries)[it.key := it] else old(entries)
      ensures View() == if ok then Assoc.Insert(old(View()), hash, it, alloc) else old(View())
      ensures ok && alloc ==> expanding || items <= Pow2(power) * 3 / 2
      ensures fresh({primary, prev} - old({primary, prev}))
    {
      var found := Find(it.key);
      if found != None { return false; }
      PushItem(it);
      if !expanding && items > Pow2(power) * 3 / 2 { Expand(alloc); }
      return true;
    }

    /** assoc_delete; false stands for its failed assertion that the key is present. */
    method Delete(key: Key) returns (ok: bool)
      requires Valid()
      modifies this, primary, prev
      ensures Valid() && ok == (key in old(entries))
      ensures entries == old(entries) - {key}
      ensures ok ==> View() == Assoc.Delete(old(View()), hash, key)
      ensures !ok ==> View() == old(View())
      ensures primary == old(primary) && prev == old(prev)
    {
      var inOld := expanding && Mask(hash(key), power - 1) >= expandBucket;
      var b := if inOld then Mask(hash(key), power - 1) else Mask(hash(key), power);
      var chain := if inOld then prev[b] else primary[b];
      assert chain == At(View(), SlotOf(View(), hash, key));
      assert Assoc.Find(View(), hash, key) == Lookup(entries, key);
      var i := 0;
      while i < |chain| && chain[i].key != key
        invariant 0 <= i <= |chain|
        invariant forall j | 0 <= j < i :: chain[j].key != key
      {
        i := i + 1;
      }
      FindInIs(chain, key);
      if i == |chain| { return false; }
      assert chain[i] in chain;
      DeleteRefines(View(), hash, key, entries);
      RemoveFromAt(chain, key, i);
      Store(inOld, b, chain[..i] + chain[i + 1..]);
      items, entries := items - 1, entries - {key};
      assert View() == Assoc.Delete(old(View()), hash, key);
      return true;
    }

    method MigrateBucket()
      requires Valid() && expanding
      modifies this, primary, prev
      ensures Valid() && entries == old(entries) && View() == Migrate(old(View()), hash)
      ensures primary == old(primary) && prev == old(prev)
    {
      MigrateRefines(View(), hash, entries);
      var chain := prev[expandBucket];
      var i := 0;
      while i < |chain|
        invariant 0 <= i <= |chain|
        invariant prev[..] == old(prev[..])
        invariant Spread(primary[..], power, hash, chain[i..]) == Spread(old(primary[..]), power, hash, chain)
        modifies primary
      {
        var b := Mask(hash(chain[i].key), power);
        assert chain[i..][1..] == chain[i + 1..];
        primary[b] := [chain[i]] + primary[b];
        i := i + 1;
      }
      prev[expandBucket] := [];
      expandBucket := expandBucket + 1;
      if expandBucket == Pow2(power - 1) { expanding := false; }
      assert View() == Migrate(old(View()), hash);
    }

    /** One pass of assoc_maintenance_thread under the cache lock. */
    method MaintenancePass(bulk: nat)
      requires Valid()
      modifies this, primary, prev
      ensures Valid() && entries == old(entries) && View() == MigrateSome(old(View()), hash, bulk)
      ensures expanding <==> Distance(old(View())) > bulk
      ensures primary == old(primary) && prev == old(prev)
    {
      MigrateSomeRefines(View(), hash, bulk, entries);
      var ii := 0;
      while ii < bulk && expanding
        invariant 0 <= ii <= bulk
        invariant Valid() && entries == old(entries) && primary == old(primary) && prev == old(prev)
        invariant MigrateSome(View(), hash, bulk - ii) == MigrateSome(old(View()), hash, bulk)
      {
        MigrateBucket();
        ii := ii + 1;
      }
    }
  }
}
