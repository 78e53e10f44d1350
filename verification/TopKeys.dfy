/**
 The top-keys lists of bucket_engine/topkeys.c: in each shard the most recently accessed keys,
 with a counter for each operation.  This module gives a shard as a value, most recent first, and
 proves what it holds after any sequence of accesses; TopKeysShard has the linked list.
 */
module TopKeys {
  type Key = seq<nat>

  /** An index into the operations of TK_OPS. */
  type Op = x: nat | x < 20
  type Counts = s: seq<nat> | |s| == 20 witness seq(20, _ => 0)

  /** One use of the TK macro. */
  datatype Access = Access(key: Key, op: Op, time: nat)
  datatype Item = Item(key: Key, ctime: nat, counts: Counts)

  function NoCounts(): Counts { seq(20, _ => 0) }

  function Keys(items: seq<Item>): (keys: seq<Key>)
    ensures |keys| == |items| && forall i | 0 <= i < |keys| :: keys[i] == items[i].key
  { seq(|items|, i requires 0 <= i < |items| => items[i].key) }

  /** The position of a key, or the length. */
  function IndexOf(keys: seq<Key>, k: Key): (i: nat)
    ensures i <= |keys| && (i < |keys| ==> keys[i] == k) && forall j | 0 <= j < i :: keys[j] != k
  { if keys == [] || keys[0] == k then 0 else 1 + IndexOf(keys[1..], k) }

  function Bump(it: Item, op: Op): Item { it.(counts := it.counts[op := it.counts[op] + 1]) }

  /** topkeys_item_get_or_create: to the front, evicting the last key if a new one does not fit. */
  function Promote(items: seq<Item>, key: Key, time: nat, max: nat): (r: seq<Item>)
    requires max > 0
    ensures r != []
  {
    var i := IndexOf(Keys(items), key);
    if i < |items| then [items[i]] + items[..i] + items[i + 1..]
    else [Item(key, time, NoCounts())] + if |items| + 1 > max && items != [] then items[..|items| - 1] else items
  }

  lemma PromoteNew(items: seq<Item>, key: Key, time: nat, max: nat)
    requires max > 0 && IndexOf(Keys(items), key) == |items|
    ensures Promote(items, key, time, max) == [Item(key, time, NoCounts())]
      + if |items| + 1 > max && items != [] then items[..|items| - 1] else items
  {
  }

  lemma PromoteFound(items: seq<Item>, key: Key, time: nat, max: nat)
    requires max > 0 && IndexOf(Keys(items), key) < |items|
    ensures var i := IndexOf(Keys(items), key);
      Promote(items, key, time, max) == [items[i]] + (items[..i] + items[i + 1..])
  {
  }

  /** The TK macro: the key's item to the front, and its counter up by one. */
  function Touch(items: seq<Item>, a: Access, max: nat): seq<Item>
    requires max > 0
  {
    var i := IndexOf(Keys(items), a.key);
    if i < |items| then [Bump(items[i], a.op)] + items[..i] + items[i + 1..]
    else [Bump(Item(a.key, a.time, NoCounts()), a.op)]
         + if |items| + 1 > max && items != [] then items[..|items| - 1] else items
  }

  lemma TouchPromotes(items: seq<Item>, a: Access, max: nat)
    requires max > 0
    ensures var p := Promote(items, a.key, a.time, max); Touch(items, a, max) == p[0 := Bump(p[0], a.op)]
  {
  }

  function Run(h: seq<Access>, max: nat): seq<Item>
    requires max > 0
  { if h == [] then [] else Touch(Run(h[..|h| - 1], max), h[|h| - 1], max) }

  lemma RunGrows(h: seq<Access>, a: Access, max: nat)
    requires max > 0
    ensures Run(h + [a], max) == Touch(Run(h, max), a, max)
  {
    assert (h + [a])[..|h|] == h;
  }

  // ----------------------------------------------------------------------------------------
  // The keys: the `max` most recently accessed distinct ones

  function Others(h: seq<Access>, k: Key): (r: seq<Access>)
    ensures |r| <= |h| && forall a | a in r :: a in h && a.key != k
  {
    if h == [] then []
    else if h[|h| - 1].key == k then Others(h[..|h| - 1], k)
    else Others(h[..|h| - 1], k) + [h[|h| - 1]]
  }

  /** The distinct keys accessed, the most recent access first. */
  function Recent(h: seq<Access>): seq<Key>
    decreases |h|
  { if h == [] then [] else [h[|h| - 1].key] + Recent(Others(h[..|h| - 1], h[|h| - 1].key)) }

  function Take<T>(s: seq<T>, n: nat): seq<T> { if |s| <= n then s else s[..n] }

  function Without(keys: seq<Key>, k: Key): seq<Key> {
    var i := IndexOf(keys, k);
    if i < |keys| then keys[..i] + keys[i + 1..] else keys
  }

  predicate Distinct(keys: seq<Key>) { forall i, j | 0 <= i < j < |keys| :: keys[i] != keys[j] }

  lemma {:induction false} OthersCommute(h: seq<Access>, j: Key, k: Key)
    ensures Others(Others(h, j), k) == Others(Others(h, k), j)
    ensures Others(Others(h, j), j) == Others(h, j)
  {
    if h != [] {
      var h', a := h[..|h| - 1], h[|h| - 1];
      OthersCommute(h', j, k);
      assert Others(h, j) == if a.key == j then Others(h', j) else Others(h', j) + [a];
      assert Others(h, k) == if a.key == k then Others(h', k) else Others(h', k) + [a];
      assert (Others(h', j) + [a])[..|Others(h', j)|] == Others(h', j);
      assert (Others(h', k) + [a])[..|Others(h', k)|] == Others(h', k);
    }
  }

  predicate Accessed(h: seq<Access>, k: Key) { exists i :: 0 <= i < |h| && h[i].key == k }

  lemma AccessedStep(h: seq<Access>, a: Access, k: Key)
    ensures Accessed(h + [a], k) <==> Accessed(h, k) || a.key == k
  {
    assert (h + [a])[|h|] == a;
    if Accessed(h, k) {
      var i :| 0 <= i < |h| && h[i].key == k;
      assert (h + [a])[i].key == k;
    }
  }

  lemma {:induction false} OthersHolds(h: seq<Access>, k: Key, j: Key)
    ensures Accessed(Others(h, k), j) <==> j != k && Accessed(h, j)
  {
    if h != [] {
      var h', a := h[..|h| - 1], h[|h| - 1];
      OthersHolds(h', k, j);
      assert h == h' + [a];
      AccessedStep(h', a, j);
      AccessedStep(Others(h', k), a, j);
    }
  }

  lemma {:induction false} RecentIs(h: seq<Access>)
    ensures Distinct(Recent(h))
    ensures forall k :: k in Recent(h) <==> Accessed(h, k)
    decreases |h|
  {
    if h != [] {
      var h', a := h[..|h| - 1], h[|h| - 1];
      var others := Others(h', a.key);
      RecentIs(others);
      OthersHolds(h', a.key, a.key);
      assert h == h' + [a];
      forall j ensures j in Recent(h) <==> Accessed(h, j) {
        OthersHolds(h', a.key, j);
        AccessedStep(h', a, j);
        assert j in Recent(others) <==> Accessed(others, j);
      }
    }
  }

  // Forgetting a key's accesses removes it from the recent keys and keeps the order of the others.
  lemma {:induction false} RecentWithout(h: seq<Access>, k: Key)
    ensures Recent(Others(h, k)) == Without(Recent(h), k)
    decreases |h|
  {
    if h != [] {
      var h', a := h[..|h| - 1], h[|h| - 1];
      if a.key == k {
        assert Others(h, k) == Others(h', k);
        assert Recent(h)[1..] == Recent(Others(h', k));
      } else {
        assert Others(h, k) == Others(h', k) + [a];
        assert Others(h, k)[..|Others(h, k)| - 1] == Others(h', k);
        OthersCommute(h', k, a.key);
        RecentWithout(Others(h', a.key), k);
        WithoutFront(a.key, Recent(Others(h', a.key)), k);
      }
    }
  }

  lemma WithoutFront(first: Key, keys: seq<Key>, k: Key)
    requires first != k
    ensures Without([first] + keys, k) == [first] + Without(keys, k)
  {
    var all, i := [first] + keys, IndexOf(keys, k);
    assert all[1..] == keys;
    assert IndexOf(all, k) == 1 + i;
    if i < |keys| {
      assert all[..1 + i] == [first] + keys[..i];
      assert all[2 + i..] == keys[i + 1..];
    }
  }

  // An access on the recent keys: to the front.
  lemma RecentStep(h: seq<Access>, a: Access)
    ensures Recent(h + [a]) == [a.key] + Without(Recent(h), a.key)
  {
    assert (h + [a])[..|h|] == h;
    RecentWithout(h, a.key);
  }

  lemma IndexTake(keys: seq<Key>, k: Key, n: nat)
    ensures var i := IndexOf(keys, k); IndexOf(Take(keys, n), k) == if i < n then i else |Take(keys, n)|
  {
    var i, j := IndexOf(keys, k), IndexOf(Take(keys, n), k);
    if i < n && i < |keys| { assert Take(keys, n)[i] == k; }
  }

  /** What touching a list of distinct keys leaves. */
  function TouchedKeys(keys: seq<Key>, k: Key, max: nat): seq<Key> {
    var i := IndexOf(keys, k);
    [k] + if i < |keys| then keys[..i] + keys[i + 1..]
          else if |keys| + 1 > max && keys != [] then keys[..|keys| - 1] else keys
  }

  lemma TakeAppend(a: seq<Key>, b: seq<Key>, n: nat)
    requires |a| <= n
    ensures Take(a + b, n) == a + Take(b, n - |a|)
  {
  }

  // A key that is among the first `n`, which then move up by one place,
  lemma TakeFound(r: seq<Key>, k: Key, n: nat)
    requires IndexOf(r, k) < n && IndexOf(r, k) < |r|
    ensures var i := IndexOf(r, k); Take(Without(r, k), n - 1) == Take(r, n)[..i] + Take(r, n)[i + 1..]
  {
    var i := IndexOf(r, k);
    TakeAround(r[..i], k, r[i + 1..], n);
    assert r == r[..i] + [k] + r[i + 1..];
  }

  lemma TakeAround(a: seq<Key>, k: Key, b: seq<Key>, n: nat)
    requires |a| < n
    ensures var t := Take(a + [k] + b, n); |a| < |t| && Take(a + b, n - 1) == t[..|a|] + t[|a| + 1..]
  {
    var rest := Take(b, n - 1 - |a|);
    TakeAppend(a + [k], b, n);
    TakeAppend(a, b, n - 1);
    assert (a + [k] + rest)[..|a|] == a;
    assert (a + [k] + rest)[|a| + 1..] == rest;
  }

  // and one that is not.
  lemma TakeNotFound(r: seq<Key>, k: Key, n: nat)
    requires n > 0 && (IndexOf(r, k) >= n || IndexOf(r, k) == |r|)
    ensures Take(Without(r, k), n - 1) == if |r| >= n then r[..n - 1] else r
  {
  }

  lemma TakeStep(r: seq<Key>, k: Key, n: nat)
    requires n > 0
    ensures Take([k] + Without(r, k), n) == TouchedKeys(Take(r, n), k, n)
  {
    IndexTake(r, k, n);
    TakeAppend([k], Without(r, k), n);
    if IndexOf(r, k) < n && IndexOf(r, k) < |r| { TakeFound(r, k, n); } else { TakeNotFound(r, k, n); }
  }

  lemma MostRecentStep(h: seq<Access>, a: Access, max: nat)
    requires max > 0 && Keys(Run(h, max)) == Take(Recent(h), max)
    ensures Keys(Run(h + [a], max)) == Take(Recent(h + [a]), max)
  {
    RecentStep(h, a);
    RunStep(h, a, max);
    TakeStep(Recent(h), a.key, max);
  }

  /** A shard's list is exactly the `max` most recently accessed distinct keys, in recency order. */
  lemma {:induction false} KeysAreMostRecent(h: seq<Access>, max: nat)
    requires max > 0
    ensures Keys(Run(h, max)) == Take(Recent(h), max)
  {
    if h != [] {
      var h', a := h[..|h| - 1], h[|h| - 1];
      assert h == h' + [a];
      KeysAreMostRecent(h', max);
      MostRecentStep(h', a, max);
    }
  }

  lemma RunStep(h: seq<Access>, a: Access, max: nat)
    requires max > 0
    ensures Keys(Run(h + [a], max)) == TouchedKeys(Keys(Run(h, max)), a.key, max)
  {
    RunGrows(h, a, max);
    TouchKeys(Run(h, max), a, max);
  }

  lemma RunDistinct(h: seq<Access>, max: nat)
    requires max > 0
    ensures Distinct(Keys(Run(h, max)))
  {
    KeysAreMostRecent(h, max);
    RecentIs(h);
  }

  lemma TouchKeys(items: seq<Item>, a: Access, max: nat)
    requires max > 0
    ensures Keys(Touch(items, a, max)) == TouchedKeys(Keys(items), a.key, max)
  {
  }

  // ----------------------------------------------------------------------------------------
  // The counters

  /** The access that created the item a key has now. */
  function Born(h: seq<Access>, k: Key, max: nat): (i: nat)
    requires max > 0
    ensures i <= |h| && (h != [] ==> i < |h|)
  {
    if h == [] then 0
    else
      var h', a := h[..|h| - 1], h[|h| - 1];
      if a.key == k && k !in Keys(Run(h', max)) then |h| - 1 else Born(h', k, max)
  }

  function Matching(h: seq<Access>, k: Key, op: Op): nat {
    if h == [] then 0
    else Matching(h[..|h| - 1], k, op) + if h[|h| - 1].key == k && h[|h| - 1].op == op then 1 else 0
  }

  // Touching a list keeps every other item as it was.
  lemma TouchKeeps(items: seq<Item>, a: Access, max: nat, x: Item)
    requires max > 0 && x in Touch(items, a, max)
    ensures x.key == a.key || x in items
  {
  }

  lemma {:induction false} MatchingSuffix(h: seq<Access>, i: nat, a: Access, k: Key, op: Op)
    requires i <= |h|
    ensures Matching((h + [a])[i..], k, op) == Matching(h[i..], k, op) + if a.key == k && a.op == op then 1 else 0
  {
    assert (h + [a])[i..] == h[i..] + [a];
    assert (h[i..] + [a])[..|h[i..]|] == h[i..];
  }

  /** The item counts the matching operations since the access that created it. */
  predicate Exact(h: seq<Access>, max: nat, x: Item, op: Op)
    requires max > 0
  {
    var b := Born(h, x.key, max);
    b < |h| && h[b].key == x.key && h[b].time == x.ctime && x.counts[op] == Matching(h[b..], x.key, op)
  }

  lemma BornStep(h: seq<Access>, a: Access, k: Key, max: nat)
    requires max > 0
    ensures Born(h + [a], k, max) == if a.key == k && k !in Keys(Run(h, max)) then |h| else Born(h, k, max)
  {
    assert (h + [a])[..|h|] == h;
  }

  // An item stays exact when another key is accessed, or its own.
  lemma ExactKept(h: seq<Access>, a: Access, max: nat, x: Item, op: Op)
    requires max > 0 && Exact(h, max, x, op) && x.key in Keys(Run(h, max))
    ensures Exact(h + [a], max, if a.key == x.key then Bump(x, a.op) else x, op)
  {
    BornStep(h, a, x.key, max);
    MatchingSuffix(h, Born(h, x.key, max), a, x.key, op);
  }

  lemma ExactNew(h: seq<Access>, a: Access, max: nat, op: Op)
    requires max > 0 && a.key !in Keys(Run(h, max))
    ensures Exact(h + [a], max, Bump(Item(a.key, a.time, NoCounts()), a.op), op)
  {
    BornStep(h, a, a.key, max);
    MatchingSuffix(h, |h|, a, a.key, op);
    assert h[|h|..] == [];
  }

  /** Each counter is the number of matching operations since the access that created the item. */
  lemma {:induction false} CountersExact(h: seq<Access>, max: nat, x: Item, op: Op)
    requires max > 0 && x in Run(h, max)
    ensures var b := Born(h, x.key, max);
      b < |h| && h[b].key == x.key && h[b].time == x.ctime && x.counts[op] == Matching(h[b..], x.key, op)
  {
    var h', a := h[..|h| - 1], h[|h| - 1];
    var items := Run(h', max);
    assert h == h' + [a];
    if x.key != a.key {
      TouchKeeps(items, a, max, x);
      CountersExact(h', max, x, op);
      InKeys(items, x);
      ExactKept(h', a, max, x, op);
    } else {
      RunDistinct(h, max);
      FrontOnly(items, a, max, x);
      var i := IndexOf(Keys(items), a.key);
      if i < |items| {
        CountersExact(h', max, items[i], op);
        InKeys(items, items[i]);
        ExactKept(h', a, max, items[i], op);
      } else {
        ExactNew(h', a, max, op);
      }
    }
    assert Exact(h, max, x, op);
  }

  lemma InKeys(items: seq<Item>, x: Item)
    requires x in items
    ensures x.key in Keys(items)
  {
    var i :| 0 <= i < |items| && items[i] == x;
    assert Keys(items)[i] == x.key;
  }

  // With distinct keys, only the front item has the key just accessed.
  lemma FrontOnly(items: seq<Item>, a: Access, max: nat, x: Item)
    requires max > 0 && x in Touch(items, a, max) && x.key == a.key && Distinct(Keys(Touch(items, a, max)))
    ensures x == Touch(items, a, max)[0]
  {
    var t := Touch(items, a, max);
    var i :| 0 <= i < |t| && t[i] == x;
    assert Keys(t)[i] == Keys(t)[0];
  }

  // ----------------------------------------------------------------------------------------
  // The shards

  const SHARDS: nat := 8

  /** khash & 0x07 */
  function ShardOf(hash: Key -> int, k: Key): (s: nat)
    ensures s < SHARDS
  { hash(k) % SHARDS }

  /** The hash leaves remainder `s` when divided by eight. */
  ghost predicate InShard(hash: Key -> int, k: Key, s: nat) { s < 8 && exists q: int :: hash(k) == 8 * q + s }

  /** Every key is in exactly one shard, the one that its hash modulo eight numbers. */
  lemma ShardOfIs(hash: Key -> int, k: Key, s: nat)
    ensures InShard(hash, k, s) <==> s == ShardOf(hash, k)
  {
    if s < 8 { RemainderIs(hash, k, s); }
  }

  /** Two keys share a shard exactly when eight divides the difference of their hashes. */
  lemma SameShard(hash: Key -> int, j: Key, k: Key)
    ensures ShardOf(hash, j) == ShardOf(hash, k) <==> exists q: int :: hash(j) - hash(k) == 8 * q
  {
    ShardOfIs(hash, j, ShardOf(hash, j));
    ShardOfIs(hash, k, ShardOf(hash, k));
    var a: int :| hash(j) == 8 * a + ShardOf(hash, j);
    var b: int :| hash(k) == 8 * b + ShardOf(hash, k);
    if ShardOf(hash, j) == ShardOf(hash, k) { assert hash(j) - hash(k) == 8 * (a - b); }
  }

  /** The accesses to the keys whose hash leaves remainder `s`. */
  function Only(h: seq<Access>, hash: Key -> int, s: nat): seq<Access> {
    if h == [] then []
    else if hash(h[|h| - 1].key) % 8 == s then Only(h[..|h| - 1], hash, s) + [h[|h| - 1]]
    else Only(h[..|h| - 1], hash, s)
  }

  /** Every use of the TK macro touches the key's shard. */
  function RunShards(h: seq<Access>, hash: Key -> int, max: nat): (shards: seq<seq<Item>>)
    requires max > 0
    ensures |shards| == SHARDS
  {
    if h == [] then seq(SHARDS, _ => [])
    else
      var shards, a := RunShards(h[..|h| - 1], hash, max), h[|h| - 1];
      var s := ShardOf(hash, a.key);
      shards[s := Touch(shards[s], a, max)]
  }

  lemma {:induction false} ShardRuns(h: seq<Access>, hash: Key -> int, max: nat, s: nat)
    requires max > 0 && s < SHARDS
    ensures RunShards(h, hash, max)[s] == Run(Only(h, hash, s), max)
  {
    if h != [] {
      var h', a := h[..|h| - 1], h[|h| - 1];
      ShardRuns(h', hash, max, s);
      var o' := Only(h', hash, s);
      ShardOfIs(hash, a.key, s);
      RemainderIs(hash, a.key, s);
      if InShard(hash, a.key, s) {
        assert Only(h, hash, s) == o' + [a];
        assert (o' + [a])[..|o'|] == o';
      }
    }
  }

  lemma RemainderIs(hash: Key -> int, k: Key, s: nat)
    requires s < 8
    ensures hash(k) % 8 == s <==> InShard(hash, k, s)
  {
    assert hash(k) == 8 * (hash(k) / 8) + hash(k) % 8;
    if InShard(hash, k, s) {
      var q: int :| hash(k) == 8 * q + s;
      assert (8 * q + s) % 8 == s;
    }
  }

  /** Each shard holds the most recent keys among those whose hash leaves its number as the remainder; so
      no key is in two shards. */
  lemma ShardsAreMostRecent(h: seq<Access>, hash: Key -> int, max: nat, s: nat)
    requires max > 0 && s < SHARDS
    ensures Keys(RunShards(h, hash, max)[s]) == Take(Recent(Only(h, hash, s)), max)
    ensures forall k | k in Keys(RunShards(h, hash, max)[s]) :: InShard(hash, k, s)
  {
    var o := Only(h, hash, s);
    ShardRuns(h, hash, max, s);
    KeysAreMostRecent(o, max);
    RecentIs(o);
    OnlyHolds(h, hash, s);
    forall k | k in Take(Recent(o), max) ensures InShard(hash, k, s) {
      assert Accessed(o, k);
      RemainderIs(hash, k, s);
    }
  }

  lemma {:induction false} OnlyHolds(h: seq<Access>, hash: Key -> int, s: nat)
    ensures forall i | 0 <= i < |Only(h, hash, s)| :: hash(Only(h, hash, s)[i].key) % 8 == s
  {
    if h != [] { OnlyHolds(h[..|h| - 1], hash, s); }
  }
}
