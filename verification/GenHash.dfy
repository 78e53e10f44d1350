/**
 The generic chained hash of bucket_engine/genhash.c: a map from each key to a stack of values.
 Chains are sequences, head first.  dupValues and the like count the calls of the caller's dup
 and free functions.
 */
module GenHash {
  import opened Prelude

  /** `size` is the length stored with the value; updating a value in place leaves it as it was. */
  datatype Cell<V> = Cell(value: V, size: nat)
  datatype Entry<K, V> = Entry(key: K, cell: Cell<V>)

  datatype UpdateType = MODIFICATION | NEW

  // ----------------------------------------------------------------------------------------
  // Chains

  /** The cells of one key, top first. */
  function CellsOf<K(==), V>(chain: seq<Entry<K, V>>, k: K): seq<Cell<V>> {
    if chain == [] then []
    else (if chain[0].key == k then [chain[0].cell] else []) + CellsOf(chain[1..], k)
  }

  lemma {:induction false} CellsOfAppend<K, V>(a: seq<Entry<K, V>>, b: seq<Entry<K, V>>, k: K)
    ensures CellsOf(a + b, k) == CellsOf(a, k) + CellsOf(b, k)
  {
    if a == [] {
      assert a + b == b;
    } else {
      CellsOfAppend(a[1..], b, k);
      assert (a + b)[1..] == a[1..] + b && (a + b)[0] == a[0];
      var first := if a[0].key == k then [a[0].cell] else [];
      assert first + (CellsOf(a[1..], k) + CellsOf(b, k)) == first + CellsOf(a[1..], k) + CellsOf(b, k);
    }
  }

  lemma {:induction false} CellsOfAbsent<K, V>(chain: seq<Entry<K, V>>, k: K)
    requires forall i | 0 <= i < |chain| :: chain[i].key != k
    ensures CellsOf(chain, k) == []
  {
    if chain != [] { CellsOfAbsent(chain[1..], k); }
  }

  lemma CellsOfThree<K, V>(a: seq<Entry<K, V>>, b: seq<Entry<K, V>>, c: seq<Entry<K, V>>, k: K)
    ensures CellsOf(a + b + c, k) == CellsOf(a, k) + CellsOf(b, k) + CellsOf(c, k)
  {
    CellsOfAppend(a + b, c, k);
    CellsOfAppend(a, b, k);
  }

  // The first entry of a key is the top of its stack.
  lemma FirstIsTop<K, V>(chain: seq<Entry<K, V>>, i: nat, k: K)
    requires i < |chain| && chain[i].key == k
    requires forall x | 0 <= x < i :: chain[x].key != k
    ensures CellsOf(chain, k) == [chain[i].cell] + CellsOf(chain[i + 1..], k)
  {
    assert chain == chain[..i] + [chain[i]] + chain[i + 1..];
    CellsOfThree(chain[..i], [chain[i]], chain[i + 1..], k);
    CellsOfAbsent(chain[..i], k);
  }

  // Entries of one key in front of others do not change another key's cells.
  lemma CellsSkip<K, V>(a: seq<Entry<K, V>>, b: seq<Entry<K, V>>, k: K, j: K)
    requires forall x | 0 <= x < |a| :: a[x].key == k
    requires j != k
    ensures CellsOf(a + b, j) == CellsOf(b, j)
  {
    CellsOfAppend(a, b, j);
    CellsOfAbsent(a, j);
  }

  lemma CellsSame<K, V>(pre: seq<Entry<K, V>>, a: seq<Entry<K, V>>, b: seq<Entry<K, V>>, j: K)
    requires CellsOf(a, j) == CellsOf(b, j)
    ensures CellsOf(pre + a, j) == CellsOf(pre + b, j)
  {
    CellsOfAppend(pre, a, j);
    CellsOfAppend(pre, b, j);
  }

  lemma ReplaceTop<K, V>(pre: seq<Entry<K, V>>, now: seq<Entry<K, V>>, post: seq<Entry<K, V>>, k: K)
    requires forall x | 0 <= x < |pre| :: pre[x].key != k
    ensures CellsOf(pre + (now + post), k) == CellsOf(now, k) + CellsOf(post, k)
  {
    CellsOfAppend(pre, now + post, k);
    CellsOfAbsent(pre, k);
    CellsOfAppend(now, post, k);
  }

  lemma ReplaceOther<K, V>(
    pre: seq<Entry<K, V>>, now: seq<Entry<K, V>>, was: seq<Entry<K, V>>, post: seq<Entry<K, V>>, k: K, j: K)
    requires forall x | 0 <= x < |now| :: now[x].key == k
    requires forall x | 0 <= x < |was| :: was[x].key == k
    requires j != k
    ensures CellsOf(pre + (now + post), j) == CellsOf(pre + (was + post), j)
  {
    CellsSkip(now, post, k, j);
    CellsSkip(was, post, k, j);
    CellsSame(pre, now + post, was + post, j);
  }

  // Replacing the first entry of a key by `now` (nothing, or another entry of that key).
  lemma ReplaceFirst<K, V>(chain: seq<Entry<K, V>>, i: nat, now: seq<Entry<K, V>>, k: K, j: K)
    requires i < |chain| && chain[i].key == k
    requires forall x | 0 <= x < i :: chain[x].key != k
    requires forall x | 0 <= x < |now| :: now[x].key == k
    ensures CellsOf(chain, k) != []
    ensures CellsOf(chain[..i] + now + chain[i + 1..], j)
         == if j == k then CellsOf(now, k) + CellsOf(chain, k)[1..] else CellsOf(chain, j)
  {
    var pre, was, post := chain[..i], [chain[i]], chain[i + 1..];
    FirstIsTop(chain, i, k);
    assert pre + now + post == pre + (now + post);
    if j == k {
      ReplaceTop(pre, now, post, k);
      assert ([chain[i].cell] + CellsOf(post, k))[1..] == CellsOf(post, k);
    } else {
      assert chain == pre + (was + post);
      ReplaceOther(pre, now, was, post, k, j);
    }
  }

  // ----------------------------------------------------------------------------------------
  // Tables

  function Total<T>(buckets: seq<seq<T>>): nat {
    if buckets == [] then 0 else |buckets[0]| + Total(buckets[1..])
  }

  lemma {:induction false} TotalUpdate<T>(buckets: seq<seq<T>>, b: nat, chain: seq<T>)
    requires b < |buckets|
    ensures Total(buckets[b := chain]) + |buckets[b]| == Total(buckets) + |chain|
  {
    if b > 0 {
      TotalUpdate(buckets[1..], b - 1, chain);
      assert buckets[b := chain][1..] == buckets[1..][b - 1 := chain];
    }
  }

  function Flatten<T>(buckets: seq<seq<T>>): seq<T> {
    if buckets == [] then [] else buckets[0] + Flatten(buckets[1..])
  }

  lemma {:induction false} FlattenLength<T>(buckets: seq<seq<T>>)
    ensures |Flatten(buckets)| == Total(buckets)
  {
    if buckets != [] { FlattenLength(buckets[1..]); }
  }

  /** Every entry is in the bucket of its key. */
  predicate Homed<K, V>(buckets: seq<seq<Entry<K, V>>>, home: K -> nat) {
    forall b, i | 0 <= b < |buckets| && 0 <= i < |buckets[b]| :: home(buckets[b][i].key) == b
  }

  lemma HomedUpdate<K, V>(buckets: seq<seq<Entry<K, V>>>, b: nat, chain: seq<Entry<K, V>>, home: K -> nat)
    requires Homed(buckets, home) && b < |buckets|
    requires forall i | 0 <= i < |chain| :: home(chain[i].key) == b
    ensures Homed(buckets[b := chain], home)
  {
  }

  lemma {:induction false} FlattenAbsent<K, V>(buckets: seq<seq<Entry<K, V>>>, k: K)
    requires forall b, i | 0 <= b < |buckets| && 0 <= i < |buckets[b]| :: buckets[b][i].key != k
    ensures CellsOf(Flatten(buckets), k) == []
  {
    if buckets != [] {
      CellsOfAbsent(buckets[0], k);
      FlattenAbsent(buckets[1..], k);
      CellsOfAppend(buckets[0], Flatten(buckets[1..]), k);
    }
  }

  lemma {:induction false} FlattenCells<K, V>(buckets: seq<seq<Entry<K, V>>>, h: nat, k: K)
    requires h < |buckets|
    requires forall b, i | 0 <= b < |buckets| && 0 <= i < |buckets[b]| && b != h :: buckets[b][i].key != k
    ensures CellsOf(Flatten(buckets), k) == CellsOf(buckets[h], k)
  {
    CellsOfAppend(buckets[0], Flatten(buckets[1..]), k);
    if h == 0 {
      FlattenAbsent(buckets[1..], k);
    } else {
      CellsOfAbsent(buckets[0], k);
      FlattenCells(buckets[1..], h - 1, k);
    }
  }

  class HashTable<K(==, !new), V> {
    const size: nat
    const hash: K -> nat
    const buckets: array<seq<Entry<K, V>>>
    var dupValues: nat
    var freeValues: nat
    var dupKeys: nat
    var freeKeys: nat

    function Home(k: K): (b: nat)
      requires size > 0
      ensures b < size
    { hash(k) % size }

    /** A key's bucket is the remainder of its hash. */
    lemma HomeIs(k: K)
      requires size > 0
      ensures Home(k) < size && exists q: nat :: hash(k) == q * size + Home(k)
    {
      assert hash(k) == (hash(k) / size) * size + hash(k) % size;
    }

    /** dup calls minus free calls are the entries, for keys and for values. */
    ghost predicate Valid()
      reads this, buckets
    {
      && 0 < size == buckets.Length
      && Homed(buckets[..], k => if size > 0 then Home(k) else 0)
      && dupValues == freeValues + Total(buckets[..])
      && dupKeys == freeKeys + Total(buckets[..])
    }

    /** The values stored for a key, most recent first. */
    ghost function Stack(k: K): seq<Cell<V>>
      requires Valid()
      reads this, buckets
    { CellsOf(buckets[Home(k)], k) }

    /** How many times dup and free have been called for values since the pre-state. */
    twostate predicate Called(dups: nat, frees: nat)
      reads this
    { dupValues == old(dupValues) + dups && freeValues == old(freeValues) + frees }

    /** Every other key's stack is as it was. */
    twostate predicate OthersKept(k: K)
      requires old(Valid()) && Valid()
      reads this, buckets
    { forall j | j != k :: Stack(j) == old(Stack(j)) }

    constructor (size: nat, hash: K -> nat)
      requires size > 0
      ensures Valid() && fresh(buckets) && this.size == size && this.hash == hash
      ensures forall k :: Stack(k) == []
    {
      this.size, this.hash := size, hash;
      buckets := new seq<Entry<K, V>>[size](_ => []);
      dupValues, freeValues, dupKeys, freeKeys := 0, 0, 0, 0;
      new;
      NoEntries(buckets[..]);
    }

    static lemma {:induction false} NoEntries(bs: seq<seq<Entry<K, V>>>)
      requires forall b | 0 <= b < |bs| :: bs[b] == []
      ensures Total(bs) == 0
    {
      if bs != [] { NoEntries(bs[1..]); }
    }

    method Store(k: K, v: V, size: nat)
      requires Valid()
      modifies this, buckets
      ensures Valid() && Stack(k) == [Cell(v, size)] + old(Stack(k)) && OthersKept(k) && Called(1, 0)
    {
      var n := Home(k);
      ghost var was := buckets[..];
      var e := Entry(k, Cell(v, size));
      dupKeys, dupValues := dupKeys + 1, dupValues + 1;
      TotalUpdate(was, n, [e] + buckets[n]);
      buckets[n] := [e] + buckets[n];
      assert buckets[..] == was[n := [e] + was[n]];
      assert ([e] + was[n])[1..] == was[n];
    }

    /** The position of the first entry of a key in its chain. */
    method FindEntry(k: K) returns (p: Option<nat>)
      requires Valid()
      ensures p.None? ==> Stack(k) == []
      ensures p.Some? ==> p.value < |buckets[Home(k)]| && buckets[Home(k)][p.value].key == k
      ensures p.Some? ==> Stack(k) != [] && Stack(k)[0] == buckets[Home(k)][p.value].cell
      ensures p.Some? ==> forall x | 0 <= x < p.value :: buckets[Home(k)][x].key != k
    {
      var chain := buckets[Home(k)];
      var i := 0;
      while i < |chain| && chain[i].key != k
        invariant 0 <= i <= |chain|
        invariant forall x | 0 <= x < i :: chain[x].key != k
      {
        i := i + 1;
      }
      if i < |chain| {
        FirstIsTop(chain, i, k);
        return Some(i);
      }
      CellsOfAbsent(chain, k);
      return None;
    }

    method Find(k: K) returns (v: Option<V>)
      requires Valid()
      ensures v == if Stack(k) == [] then None else Some(Stack(k)[0].value)
    {
      var p := FindEntry(k);
      match p {
        case None => return None;
        case Some(i) => return Some(buckets[Home(k)][i].cell.value);
      }
    }

    /** Replacing the first entry of the key by nothing or by another entry of that key. */
    method Splice(k: K, i: nat, now: seq<Entry<K, V>>)
      requires Valid() && i < |buckets[Home(k)]| && buckets[Home(k)][i].key == k && |now| <= 1
      requires forall x | 0 <= x < i :: buckets[Home(k)][x].key != k
      requires forall x | 0 <= x < |now| :: now[x].key == k
      modifies this, buckets
      ensures Valid() && OthersKept(k) && Called(|now|, 1)
      ensures old(Stack(k)) != [] && Stack(k) == CellsOf(now, k) + old(Stack(k))[1..]
    {
      var n := Home(k);
      ghost var was := buckets[..];
      var chain := buckets[n];
      var chain' := chain[..i] + now + chain[i + 1..];
      freeValues := freeValues + 1;
      dupValues := dupValues + |now|;
      freeKeys := freeKeys + 1 - |now|;
      TotalUpdate(was, n, chain');
      FirstIsTop(chain, i, k);
      buckets[n] := chain';
      assert buckets[..] == was[n := chain'];
      HomedUpdate(was, n, chain', h => if size > 0 then Home(h) else 0);
      forall j ensures Stack(j) == if j == k then CellsOf(now, k) + old(Stack(k))[1..] else old(Stack(j)) {
        ReplaceFirst(chain, i, now, k, j);
      }
    }

    method Update(k: K, v: V, size: nat) returns (t: UpdateType)
      requires Valid()
      modifies this, buckets
      ensures Valid() && OthersKept(k) && (t == NEW <==> old(Stack(k)) == []) && Called(1, if t == NEW then 0 else 1)
      ensures t == NEW ==> Stack(k) == [Cell(v, size)]
      ensures t == MODIFICATION ==> Stack(k) == [Cell(v, old(Stack(k))[0].size)] + old(Stack(k))[1..]
    {
      var p := FindEntry(k);
      match p {
        case Some(i) =>
          var e := Entry(k, Cell(v, buckets[Home(k)][i].cell.size));
          Splice(k, i, [e]);
          return MODIFICATION;
        case None =>
          Store(k, v, size);
          return NEW;
      }
    }

    /** `upd` computes the new value and its size from the old value, or from `def`. */
    method FunUpdate(k: K, upd: (K, V) -> (V, nat), def: V) returns (t: UpdateType)
      requires Valid()
      modifies this, buckets
      ensures Valid() && OthersKept(k) && (t == NEW <==> old(Stack(k)) == []) && Called(1, if t == NEW then 0 else 1)
      ensures t == NEW ==> Stack(k) == [Cell(upd(k, def).0, upd(k, def).1)]
      ensures t == MODIFICATION ==>
        Stack(k) == [Cell(upd(k, old(Stack(k))[0].value).0, old(Stack(k))[0].size)] + old(Stack(k))[1..]
    {
      var p := FindEntry(k);
      match p {
        case Some(i) =>
          var cell := buckets[Home(k)][i].cell;
          Splice(k, i, [Entry(k, Cell(upd(k, cell.value).0, cell.size))]);
          return MODIFICATION;
        case None =>
          Store(k, upd(k, def).0, upd(k, def).1);
          return NEW;
      }
    }

    method Delete(k: K) returns (rv: nat)
      requires Valid()
      modifies this, buckets
      ensures Valid() && OthersKept(k) && Called(0, rv)
      ensures rv == if old(Stack(k)) == [] then 0 else 1
      ensures Stack(k) == old(Stack(k))[rv..]
    {
      var p := FindEntry(k);
      match p {
        case Some(i) =>
          Splice(k, i, []);
          return 1;
        case None => return 0;
      }
    }

    method DeleteAll(k: K) returns (rv: nat)
      requires Valid()
      modifies this, buckets
      ensures Valid() && OthersKept(k) && Called(0, rv)
      ensures rv == |old(Stack(k))| && Stack(k) == []
    {
      rv := 0;
      var more := true;
      while more
        invariant Valid() && OthersKept(k) && Called(0, rv)
        invariant rv + |Stack(k)| == |old(Stack(k))|
        invariant !more ==> Stack(k) == []
        decreases |Stack(k)|, more
      {
        var deleted := Delete(k);
        more := deleted == 1;
        rv := rv + deleted;
      }
    }

    static lemma FlattenStep<T>(visited: seq<T>, bs: seq<seq<T>>, i: nat)
      requires i < |bs|
      ensures visited + Flatten(bs[i..]) == visited + bs[i] + Flatten(bs[i + 1..])
    {
      assert bs[i..][1..] == bs[i + 1..];
    }

    static method VisitChain<T>(sofar: seq<T>, chain: seq<T>) returns (visited: seq<T>)
      ensures visited == sofar + chain
    {
      visited := sofar;
      var p := 0;
      while p < |chain|
        invariant 0 <= p <= |chain|
        invariant visited == sofar + chain[..p]
      {
        visited := visited + [chain[p]];
        p := p + 1;
      }
    }

    /** What genhash_iter hands to its function, in order. */
    method Iterate() returns (visited: seq<Entry<K, V>>)
      requires Valid()
      ensures |visited| == Total(buckets[..]) == dupValues - freeValues
      ensures forall k :: CellsOf(visited, k) == Stack(k)
    {
      visited := [];
      var i := 0;
      while i < size
        invariant 0 <= i <= size
        invariant visited + Flatten(buckets[..][i..]) == Flatten(buckets[..])
      {
        FlattenStep(visited, buckets[..], i);
        visited := VisitChain(visited, buckets[i]);
        i := i + 1;
      }
      assert buckets[..][i..] == [];
      assert visited == visited + Flatten(buckets[..][i..]);
      FlattenLength(buckets[..]);
      forall k ensures CellsOf(visited, k) == Stack(k) {
        assert Stack(k) == CellsOf(buckets[..][Home(k)], k);
        FlattenCells(buckets[..], Home(k), k);
      }
    }

    /** genhash_clear always returns 0. */
    method Clear() returns (rv: nat)
      requires Valid()
      modifies this, buckets
      ensures Valid() && rv == 0
      ensures forall k :: Stack(k) == []
      ensures dupValues == freeValues && dupKeys == freeKeys
    {
      rv := 0;
      var i := 0;
      while i < size
        invariant Valid() && 0 <= i <= size
        invariant forall b | 0 <= b < i :: buckets[b] == []
      {
        while buckets[i] != []
          invariant Valid() && 0 <= i < size
          invariant forall b | 0 <= b < i :: buckets[b] == []
          decreases |buckets[i]|
        {
          ghost var was := buckets[..];
          TotalUpdate(was, i, buckets[i][1..]);
          buckets[i] := buckets[i][1..];
          assert buckets[..] == was[i := was[i][1..]];
          freeKeys, freeValues := freeKeys + 1, freeValues + 1;
        }
        i := i + 1;
      }
      NoEntries(buckets[..]);
    }
  }
}
