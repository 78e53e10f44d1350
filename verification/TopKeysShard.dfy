/**
 A shard of bucket_engine/topkeys.c in place: items on a circular doubly linked list through a
 sentinel, and a hash index from key to item.
 */
module TopKeysShard {
  import opened Prelude
  import TopKeys
  import GenHash

  class Node {
    const key: TopKeys.Key
    const ctime: nat
    var counts: TopKeys.Counts
    var next: Node
    var prev: Node

    constructor (key: TopKeys.Key, ctime: nat)
      ensures this.key == key && this.ctime == ctime && counts == TopKeys.NoCounts()
      ensures next == this && prev == this
    {
      this.key, this.ctime, counts := key, ctime, TopKeys.NoCounts();
      next, prev := this, this;
    }
  }

  /** The nodes of a list around its sentinel, front first. */
  function Ring(sentinel: Node, nodes: seq<Node>): seq<Node> { [sentinel] + nodes + [sentinel] }

  /** The links run along the ring in both directions, and no node is on it twice. */
  ghost predicate Linked(sentinel: Node, nodes: seq<Node>)
    reads sentinel, nodes
  {
    var ring := Ring(sentinel, nodes);
    && sentinel !in nodes
    && (forall i, j | 0 <= i < j < |nodes| :: nodes[i] != nodes[j])
    && forall i | 0 <= i <= |nodes| :: ring[i].next == ring[i + 1] && ring[i + 1].prev == ring[i]
  }

  function ItemOf(n: Node): TopKeys.Item
    reads n
  { TopKeys.Item(n.key, n.ctime, n.counts) }

  /** The items are the contents of the nodes. */
  ghost predicate Shows(nodes: seq<Node>, items: seq<TopKeys.Item>)
    reads nodes
  { |items| == |nodes| && forall i | 0 <= i < |nodes| :: items[i] == ItemOf(nodes[i]) }

  /** dlist_remove */
  method Unlink(sentinel: Node, ghost nodes: seq<Node>, ghost i: nat, node: Node)
    requires i < |nodes| && nodes[i] == node && Linked(sentinel, nodes)
    modifies node.prev`next, node.next`prev
    ensures Linked(sentinel, nodes[..i] + nodes[i + 1..])
  {
    ghost var ring := Ring(sentinel, nodes);
    assert ring[i].next == ring[i + 1] == node && node.prev == ring[i];
    assert ring[i + 1].next == ring[i + 2] && ring[i + 2].prev == node;
    assert node.prev.next == node;
    assert node.next.prev == node;
    node.prev.next := node.next;
    node.next.prev := node.prev;
    ghost var ring' := Ring(sentinel, nodes[..i] + nodes[i + 1..]);
    assert forall x | 0 <= x <= i :: ring'[x] == ring[x];
    assert forall x | i < x < |ring'| :: ring'[x] == ring[x + 1];
  }

  /** dlist_insert_after the sentinel. */
  method InsertFront(sentinel: Node, ghost nodes: seq<Node>, node: Node)
    requires Linked(sentinel, nodes) && node !in nodes && node != sentinel
    modifies node`next, node`prev, sentinel`next, sentinel.next`prev
    ensures Linked(sentinel, [node] + nodes)
  {
    ghost var ring := Ring(sentinel, nodes);
    assert ring[0].next == ring[1] && ring[1].prev == sentinel;
    node.next := sentinel.next;
    node.prev := sentinel;
    sentinel.next.prev := node;
    sentinel.next := node;
    ghost var ring' := Ring(sentinel, [node] + nodes);
    assert ring'[1] == node && forall x | 2 <= x < |ring'| :: ring'[x] == ring[x - 1];
  }

  function Elements(nodes: seq<Node>): set<Node> { set n | n in nodes }

  class Shard {
    const sentinel: Node
    const hash: GenHash.HashTable<TopKeys.Key, Node>
    const maxKeys: nat
    var nkeys: nat
    /** The list, front first, and what its nodes hold. */
    ghost var nodes: seq<Node>
    ghost var items: seq<TopKeys.Item>
    /** The accesses made by Touch. */
    ghost var history: seq<TopKeys.Access>

    /** The index holds each of the nodes under its key, and nothing else; so no two share a key. */
    ghost predicate Indexed(ns: set<Node>)
      requires hash.Valid()
      reads hash, hash.buckets
    {
      && (forall n | n in ns :: |hash.Stack(n.key)| == 1 && hash.Stack(n.key)[0].value == n)
      && (forall k | hash.Stack(k) != [] :: exists n | n in ns :: n.key == k)
    }

    ghost predicate Core()
      reads this, sentinel, nodes, hash, hash.buckets
    { Linked(sentinel, nodes) && hash.Valid() && Indexed(Elements(nodes)) && Shows(nodes, items) }

    ghost predicate Valid()
      reads this, sentinel, nodes, hash, hash.buckets
    { Core() && nkeys == |nodes| <= maxKeys && maxKeys > 0 }

    /** The list is what the accesses so far make of an empty one. */
    ghost predicate Replayed()
      reads this, sentinel, nodes, hash, hash.buckets
    { Valid() && items == TopKeys.Run(history, maxKeys) }

    constructor (maxKeys: nat, size: nat, hashFunction: TopKeys.Key -> nat)
      requires maxKeys > 0 && size > 0
      ensures Replayed() && history == [] && items == [] && this.maxKeys == maxKeys
      ensures fresh(sentinel) && fresh(hash) && fresh(hash.buckets)
    {
      this.maxKeys, nkeys, nodes, items, history := maxKeys, 0, [], [], [];
      sentinel := new Node([], 0);
      hash := new GenHash.HashTable(size, hashFunction);
    }

    // Dropping the node at `i` from the list, as sets of nodes.
    lemma Dropped(i: nat)
      requires Linked(sentinel, nodes) && i < |nodes|
      ensures Elements(nodes[..i] + nodes[i + 1..]) == Elements(nodes) - {nodes[i]}
    {
      forall n | n in nodes && n != nodes[i] ensures n in nodes[..i] + nodes[i + 1..] {
        var j :| 0 <= j < |nodes| && nodes[j] == n;
        if j < i { assert nodes[..i][j] == n; } else { assert nodes[i + 1..][j - i - 1] == n; }
      }
    }

    lemma DropShown(i: nat)
      requires Shows(nodes, items) && i < |nodes|
      ensures Shows(nodes[..i] + nodes[i + 1..], items[..i] + items[i + 1..])
    {
    }

    /** Dropping a node from the index. */
    method Forget(it: Node, ghost ns: set<Node>)
      requires hash.Valid() && Indexed(ns) && it in ns
      modifies hash, hash.buckets
      ensures hash.Valid() && Indexed(ns - {it})
    {
      var deleted := hash.Delete(it.key);
    }

    /** Taking the node at `i` off the list. */
    method Extract(it: Node, ghost i: nat)
      requires Linked(sentinel, nodes) && Shows(nodes, items) && i < |nodes| && nodes[i] == it
      modifies this`nodes, this`items, it.prev`next, it.next`prev
      ensures Linked(sentinel, nodes) && Shows(nodes, items) && |nodes| == |old(nodes)| - 1
      ensures Elements(nodes) == Elements(old(nodes)) - {it}
      ensures items == old(items)[..i] + old(items)[i + 1..]
    {
      Dropped(i);
      DropShown(i);
      Unlink(sentinel, nodes, i, it);
      nodes, items := nodes[..i] + nodes[i + 1..], items[..i] + items[i + 1..];
    }

    /** topkeys_item_delete */
    method ItemDelete(it: Node, ghost i: nat)
      requires Core() && i < |nodes| && nodes[i] == it && nkeys > 0
      modifies this`nkeys, this`nodes, this`items, hash, hash.buckets, it.prev`next, it.next`prev
      ensures Core() && Elements(nodes) == Elements(old(nodes)) - {it} && |nodes| == |old(nodes)| - 1
      ensures nkeys == old(nkeys) - 1 && items == old(items)[..i] + old(items)[i + 1..]
    {
      Forget(it, Elements(nodes));
      Extract(it, i);
      nkeys := nkeys - 1;
    }

    // The nodes beside one on the list are on it too, or the sentinel.
    lemma Neighbours(i: nat)
      requires Linked(sentinel, nodes)
      ensures sentinel.next in Elements(nodes) + {sentinel}
      ensures nodes != [] ==> sentinel.prev == nodes[|nodes| - 1]
      ensures i < |nodes| ==> {nodes[i].prev, nodes[i].next} <= Elements(nodes) + {sentinel}
    {
      var ring := Ring(sentinel, nodes);
      assert ring[0].next == ring[1];
      assert ring[|nodes|].next == ring[|nodes| + 1] && ring[|nodes| + 1].prev == ring[|nodes|];
      if i < |nodes| {
        assert ring[i].next == ring[i + 1] && ring[i + 1].prev == ring[i];
        assert ring[i + 1].next == ring[i + 2];
      }
    }

    /** Deleting the last item. */
    method DeleteLast()
      requires Core() && nodes != [] && nkeys > 0
      modifies this, hash, hash.buckets, sentinel, nodes
      ensures Core() && |nodes| == |old(nodes)| - 1 && nkeys == old(nkeys) - 1
      ensures Elements(nodes) <= Elements(old(nodes)) && items == old(items)[..|old(items)| - 1]
    {
      ghost var n := |items| - 1;
      ghost var was := items;
      Neighbours(n);
      ItemDelete(sentinel.prev, n);
      assert was[n + 1..] == [];
    }

    /** Counting one more key, and deleting the last item if that is one too many. */
    method MakeRoom()
      requires Valid()
      modifies this, hash, hash.buckets, sentinel, nodes
      ensures Core() && nkeys == |nodes| + 1 <= maxKeys && Elements(nodes) <= Elements(old(nodes))
      ensures items == if |old(items)| + 1 > maxKeys then old(items)[..|old(items)| - 1] else old(items)
    {
      nkeys := nkeys + 1;
      if nkeys > maxKeys { DeleteLast(); }
    }

    /** The list without the item about to go to its front. */
    ghost predicate Ready(it: Node)
      reads this, sentinel, nodes, hash, hash.buckets
    {
      && Linked(sentinel, nodes) && hash.Valid() && Indexed(Elements(nodes) + {it}) && Shows(nodes, items)
      && nkeys == |nodes| + 1 <= maxKeys && it !in nodes && it != sentinel
    }

    /** Indexing a node whose key is not in the index. */
    method AddToIndex(it: Node)
      requires hash.Valid() && Indexed(Elements(nodes)) && hash.Stack(it.key) == []
      modifies hash, hash.buckets
      ensures hash.Valid() && Indexed(Elements(nodes) + {it})
    {
      var t := hash.Update(it.key, it, 0);
    }

    // The index and the list agree on which item a key has, if any.
    lemma Agree(key: TopKeys.Key)
      requires Core()
      ensures var x := TopKeys.IndexOf(TopKeys.Keys(items), key);
        if x < |nodes| then hash.Stack(key) != [] && hash.Stack(key)[0].value == nodes[x] && nodes[x].key == key
        else hash.Stack(key) == []
    {
      var x := TopKeys.IndexOf(TopKeys.Keys(items), key);
      if x < |nodes| {
        assert nodes[x] in nodes;
      }
    }

    /** A new item in the index, with room made for it on the list. */
    method Create(key: TopKeys.Key, time: nat) returns (it: Node)
      requires Valid() && hash.Stack(key) == []
      modifies this, hash, hash.buckets, sentinel, nodes
      ensures Ready(it) && fresh(it) && Elements(nodes) <= Elements(old(nodes))
      ensures [ItemOf(it)] + items == TopKeys.Promote(old(items), key, time, maxKeys)
    {
      Agree(key);
      TopKeys.PromoteNew(items, key, time, maxKeys);
      it := new Node(key, time);
      MakeRoomFor(key);
      AddToIndex(it);
    }

    /** MakeRoom before a key that is not in the index, and stays out of it. */
    method MakeRoomFor(key: TopKeys.Key)
      requires Valid() && hash.Stack(key) == []
      modifies this, hash, hash.buckets, sentinel, nodes
      ensures Core() && nkeys == |nodes| + 1 <= maxKeys && Elements(nodes) <= Elements(old(nodes))
      ensures items == if |old(items)| + 1 > maxKeys then old(items)[..|old(items)| - 1] else old(items)
      ensures hash.Stack(key) == []
    {
      assert forall n | n in Elements(nodes) :: n.key != key;
      MakeRoom();
      Unindexed(key);
    }

    // A key of none of the nodes is not in the index.
    lemma Unindexed(key: TopKeys.Key)
      requires Core() && forall n | n in Elements(nodes) :: n.key != key
      ensures hash.Stack(key) == []
    {
    }

    /** Taking the item of a key off the list; it stays in the index. */
    method Detach(it: Node, key: TopKeys.Key, ghost time: nat)
      requires Valid() && hash.Stack(key) != [] && hash.Stack(key)[0].value == it
      modifies this`nodes, this`items, it.prev`next, it.next`prev
      ensures Ready(it) && it in old(nodes) && Elements(nodes) <= Elements(old(nodes))
      ensures [ItemOf(it)] + items == TopKeys.Promote(old(items), key, time, maxKeys)
    {
      Agree(key);
      ghost var x := TopKeys.IndexOf(TopKeys.Keys(items), key);
      TopKeys.PromoteFound(items, key, time, maxKeys);
      Extract(it, x);
      assert Elements(nodes) + {it} == Elements(old(nodes));
    }

    method PushFront(it: Node)
      requires Ready(it) && maxKeys > 0
      modifies this`nodes, this`items, it`next, it`prev, sentinel`next, sentinel.next`prev
      ensures Valid() && nodes == [it] + old(nodes) && items == [old(ItemOf(it))] + old(items)
    {
      InsertFront(sentinel, nodes, it);
      assert Elements([it] + nodes) == Elements(nodes) + {it};
      nodes, items := [it] + nodes, [ItemOf(it)] + items;
    }

    /** topkeys_item_get_or_create */
    method GetOrCreate(key: TopKeys.Key, time: nat) returns (it: Node)
      requires Valid()
      modifies this, hash, hash.buckets, sentinel, nodes
      ensures Valid() && nodes != [] && it == nodes[0] && (it in old(nodes) || fresh(it))
      ensures items == TopKeys.Promote(old(items), key, time, maxKeys)
    {
      Agree(key);
      var found := hash.Find(key);
      match found {
        case None =>
          it := Create(key, time);
        case Some(node) =>
          it := node;
          Neighbours(TopKeys.IndexOf(TopKeys.Keys(items), key));
          Detach(it, key, time);
      }
      Neighbours(0);
      PushFront(it);
    }

    method BumpFront(it: Node, op: TopKeys.Op)
      requires Valid() && nodes != [] && it == nodes[0]
      modifies it`counts, this`items
      ensures Valid() && nodes == old(nodes)
      ensures items == old(items)[0 := TopKeys.Bump(old(items)[0], op)]
    {
      it.counts := it.counts[op := it.counts[op] + 1];
      items := items[0 := TopKeys.Bump(items[0], op)];
    }

    method TouchItem(a: TopKeys.Access)
      requires Valid()
      modifies this, hash, hash.buckets, sentinel, nodes
      ensures Valid() && items == TopKeys.Touch(old(items), a, maxKeys)
    {
      TopKeys.TouchPromotes(items, a, maxKeys);
      var it := GetOrCreate(a.key, a.time);
      BumpFront(it, a.op);
    }

    /** The TK macro on this shard. */
    method Touch(key: TopKeys.Key, op: TopKeys.Op, time: nat)
      requires Replayed()
      modifies this, hash, hash.buckets, sentinel, nodes
      ensures Replayed() && history == old(history) + [TopKeys.Access(key, op, time)]
      ensures items == TopKeys.Touch(old(items), TopKeys.Access(key, op, time), maxKeys)
      ensures TopKeys.Keys(items) == TopKeys.Take(TopKeys.Recent(history), maxKeys)
    {
      ghost var h := history + [TopKeys.Access(key, op, time)];
      TopKeys.RunGrows(history, TopKeys.Access(key, op, time), maxKeys);
      TouchItem(TopKeys.Access(key, op, time));
      history := h;
      TopKeys.KeysAreMostRecent(history, maxKeys);
    }
  }
}
