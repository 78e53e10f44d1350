/**
 The receiver of chunked configurations in libconflate/rest.c: chunks go into a chain of buffers
 of one size, and a chunk that ends with the terminator delivers what the chain holds.
 */
module RestBuffer {
  type Byte = x: int | 0 <= x < 256
  type Bytes = seq<Byte>

  const NEWLINE: Byte := 10

  function Flatten(parts: seq<Bytes>): Bytes {
    if parts == [] then [] else Flatten(parts[..|parts| - 1]) + parts[|parts| - 1]
  }

  lemma {:induction false} FlattenAppend(a: seq<Bytes>, b: seq<Bytes>)
    ensures Flatten(a + b) == Flatten(a) + Flatten(b)
  {
    if b == [] {
      assert a + b == a;
    } else {
      FlattenAppend(a, b[..|b| - 1]);
      assert (a + b)[..|a + b| - 1] == a + b[..|b| - 1];
    }
  }

  /** pattern_ends_with for END_OF_CONFIG, four newlines. */
  predicate EndsWith(chunk: Bytes) {
    var n := |chunk|;
    n >= 4 && chunk[n - 4] == chunk[n - 3] == chunk[n - 2] == chunk[n - 1] == NEWLINE
  }

  /** Four newlines end the text. */
  ghost predicate Terminated(text: Bytes) { exists front: Bytes :: text == front + [10, 10, 10, 10] }

  lemma EndsWithIs(chunk: Bytes)
    ensures EndsWith(chunk) <==> Terminated(chunk)
  {
    if EndsWith(chunk) { assert chunk == chunk[..|chunk| - 4] + [10, 10, 10, 10]; }
  }

  // ----------------------------------------------------------------------------------------
  // What the chunks amount to

  /** The messages delivered, each as the chunks it was made of, and the chunks not delivered yet. */
  function Cut(chunks: seq<Bytes>): (seq<seq<Bytes>>, seq<Bytes>) {
    if chunks == [] then ([], [])
    else
      var (messages, pending) := Cut(chunks[..|chunks| - 1]);
      var chunk := chunks[|chunks| - 1];
      if EndsWith(chunk) then (messages + [pending + [chunk]], []) else (messages, pending + [chunk])
  }

  function Concat(groups: seq<seq<Bytes>>): seq<Bytes> {
    if groups == [] then [] else Concat(groups[..|groups| - 1]) + groups[|groups| - 1]
  }

  /** No chunk ends with the terminator. */
  ghost predicate NoneEnds(group: seq<Bytes>) { forall i | 0 <= i < |group| :: !Terminated(group[i]) }

  /** Only the last chunk ends with the terminator. */
  ghost predicate WholeMessage(group: seq<Bytes>) {
    group != [] && Terminated(group[|group| - 1]) && NoneEnds(group[..|group| - 1])
  }

  lemma ConcatStep(groups: seq<seq<Bytes>>, group: seq<Bytes>)
    ensures Concat(groups + [group]) == Concat(groups) + group
  {
    assert (groups + [group])[..|groups|] == groups;
  }

  lemma WholeStep(pending: seq<Bytes>, chunk: Bytes)
    requires NoneEnds(pending)
    ensures Terminated(chunk) ==> WholeMessage(pending + [chunk])
    ensures !Terminated(chunk) ==> NoneEnds(pending + [chunk])
  {
    assert (pending + [chunk])[..|pending|] == pending;
  }

  /** The groups and the rest are the chunks, cut exactly after the chunks that end with the terminator. */
  ghost predicate CutOf(messages: seq<seq<Bytes>>, pending: seq<Bytes>, chunks: seq<Bytes>) {
    && Concat(messages) + pending == chunks
    && (forall m | 0 <= m < |messages| :: WholeMessage(messages[m]))
    && NoneEnds(pending)
  }

  lemma CutOneMore(messages: seq<seq<Bytes>>, pending: seq<Bytes>, chunks: seq<Bytes>, chunk: Bytes)
    requires CutOf(messages, pending, chunks)
    ensures if Terminated(chunk) then CutOf(messages + [pending + [chunk]], [], chunks + [chunk])
            else CutOf(messages, pending + [chunk], chunks + [chunk])
  {
    WholeStep(pending, chunk);
    ConcatStep(messages, pending + [chunk]);
    assert Concat(messages) + (pending + [chunk]) == chunks + [chunk];
  }

  /** The chunks are cut exactly after those that end with the terminator. */
  lemma {:induction false} CutsAfterTerminators(chunks: seq<Bytes>)
    ensures CutOf(Cut(chunks).0, Cut(chunks).1, chunks)
  {
    if chunks != [] {
      var before, chunk := chunks[..|chunks| - 1], chunks[|chunks| - 1];
      CutsAfterTerminators(before);
      CutOneMore(Cut(before).0, Cut(before).1, before, chunk);
      EndsWithIs(chunk);
      assert chunks == before + [chunk];
    }
  }

  /** When all that was received ends with the terminator, everything has been delivered exactly if the
      last chunk is long enough to hold the terminator: one that chunks share is not seen. */
  lemma SharedTerminatorMissed(chunks: seq<Bytes>)
    requires chunks != [] && Terminated(Flatten(chunks))
    ensures Cut(chunks).1 == [] <==> |chunks[|chunks| - 1]| >= 4
  {
    EndsWithIs(Flatten(chunks));
    var all, last := Flatten(chunks), chunks[|chunks| - 1];
    if |last| >= 4 {
      var d := |all| - |last|;
      assert forall i | 0 <= i < |last| :: last[i] == all[d + i];
    }
  }

  // Two chunks that share a terminator.
  lemma SplitTerminatorMissed()
    ensures var chunks := [[1, 10, 10], [10, 10]];
      Terminated(Flatten(chunks)) && Cut(chunks).0 == [] && |Cut(chunks).1| == 2
  {
    var one: seq<Bytes> := [[1, 10, 10]];
    var chunks: seq<Bytes> := [[1, 10, 10], [10, 10]];
    assert one[..0] == [] && chunks[..1] == one;
    assert Flatten(one) == [1, 10, 10];
    assert Flatten(chunks) == [1] + [10, 10, 10, 10];
    assert Cut(one[..0]) == ([], []);
    assert !EndsWith(one[0]) && !EndsWith(chunks[1]);
    assert Cut(one).0 == [] && |Cut(one).1| == 1;
  }

  /** The messages as bytes. */
  function Messages(groups: seq<seq<Bytes>>): (r: seq<Bytes>)
    ensures |r| == |groups| && forall m | 0 <= m < |r| :: r[m] == Flatten(groups[m])
  { seq(|groups|, m requires 0 <= m < |groups| => Flatten(groups[m])) }

  /** The bytes delivered and the bytes held are those the chunks make. */
  predicate Reflects(delivered: seq<Bytes>, held: Bytes, chunks: seq<Bytes>) {
    delivered == Messages(Cut(chunks).0) && held == Flatten(Cut(chunks).1)
  }

  // One more chunk.
  lemma ReflectStep(delivered: seq<Bytes>, held: Bytes, chunks: seq<Bytes>, chunk: Bytes)
    requires Reflects(delivered, held, chunks)
    ensures if EndsWith(chunk) then Reflects(delivered + [held + chunk], [], chunks + [chunk])
            else Reflects(delivered, held + chunk, chunks + [chunk])
  {
    assert (chunks + [chunk])[..|chunks|] == chunks;
    var (messages, pending) := Cut(chunks);
    assert (pending + [chunk])[..|pending|] == pending;
  }

  // ----------------------------------------------------------------------------------------
  // The buffers

  class Buffer {
    const data: array<Byte>
    var used: nat
    var next: Buffer?

    constructor (size: nat)
      ensures fresh(data) && data.Length == size && used == 0 && next == null
    {
      data := new Byte[size];
      used, next := 0, null;
    }

    function Held(): Bytes
      requires used <= data.Length
      reads this, data
    { data[..used] }

    /** memcpy of a part of a chunk behind what the buffer holds. */
    method Append(chunk: Bytes)
      requires used + |chunk| <= data.Length
      modifies this`used, data
      ensures used == old(used) + |chunk| && Held() == old(Held()) + chunk
    {
      var i := 0;
      while i < |chunk|
        invariant 0 <= i <= |chunk| && data[..used + i] == old(Held()) + chunk[..i]
        modifies data
      {
        data[used + i] := chunk[i];
        i := i + 1;
      }
      used := used + |chunk|;
    }
  }

  function After(buffers: seq<Buffer>, i: nat): Buffer? { if i + 1 < |buffers| then buffers[i + 1] else null }

  /** What a buffer holds and which one follows. */
  ghost predicate Shown(b: Buffer, part: Bytes, next: Buffer?)
    reads b, b.data
  { b.used == |part| <= b.data.Length && b.data[..b.used] == part && b.next == next }

  /** The buffers of a chain, first to last, and what each holds; all but the last are full. */
  ghost predicate Chained(buffers: seq<Buffer>, parts: seq<Bytes>, size: nat, repr: set<object>)
    reads repr
  {
    && 0 < |buffers| == |parts|
    && (forall i | 0 <= i < |buffers| ::
          buffers[i] in repr && buffers[i].data in repr && buffers[i].data.Length == size)
    && (forall i, j | 0 <= i < j < |buffers| :: buffers[i] != buffers[j] && buffers[i].data != buffers[j].data)
    && (forall i | 0 <= i < |buffers| - 1 :: |parts[i]| == size)
    && forall i {:trigger parts[i]} | 0 <= i < |buffers| :: Shown(buffers[i], parts[i], After(buffers, i))
  }

  lemma FlattenEmpty(parts: seq<Bytes>)
    ensures Flatten(parts + [[]]) == Flatten(parts)
  {
    assert (parts + [[]])[..|parts|] == parts;
  }

  lemma FlattenLast(parts: seq<Bytes>, chunk: Bytes)
    requires parts != []
    ensures Flatten(parts[|parts| - 1 := parts[|parts| - 1] + chunk]) == Flatten(parts) + chunk
  {
    assert parts[|parts| - 1 := parts[|parts| - 1] + chunk][..|parts| - 1] == parts[..|parts| - 1];
  }

  class Receiver {
    const size: nat
    var head: Buffer
    var current: Buffer
    /** What the callback was given. */
    var delivered: seq<Bytes>
    ghost var buffers: seq<Buffer>
    ghost var parts: seq<Bytes>

    ghost var repr: set<object>

    ghost predicate Linked()
      reads this, repr
    {
      && size > 0 && this !in repr && Chained(buffers, parts, size, repr)
      && head == buffers[0] && current == buffers[|buffers| - 1]
    }

    /** The messages delivered are those the chunks make, and the chain holds the rest. */
    ghost predicate Valid(chunks: seq<Bytes>)
      reads this, repr
    { Linked() && Reflects(delivered, Flatten(parts), chunks) }

    constructor (size: nat)
      requires size > 0
      ensures Valid([]) && delivered == [] && this.size == size && fresh(repr)
    {
      this.size := size;
      var b := new Buffer(size);
      head, current, buffers, parts, delivered := b, b, [b], [[]], [];
      repr := {b, b.data};
    }

    /** Putting an empty buffer behind a full one. */
    method Attach(b: Buffer)
      requires Linked() && current.used == size
      requires b !in repr && b.data !in repr && this != b as object && b.data.Length == size
      requires Shown(b, [], null)
      modifies this`current, this`buffers, this`parts, this`repr, current`next
      ensures Linked() && current == b && Flatten(parts) == old(Flatten(parts)) && repr == old(repr) + {b, b.data}
    {
      ghost var n := |buffers| - 1;
      FlattenEmpty(parts);
      assert Shown(current, parts[n], null);
      current.next := b;
      assert Shown(buffers[n], parts[n], b);
      assert Shown(b, [], null);
      current, buffers, parts, repr := b, buffers + [b], parts + [[]], repr + {b, b.data};
    }

    /** A new buffer behind a full one. */
    method Grow()
      requires Linked() && current.used == size
      modifies this`current, this`buffers, this`parts, this`repr, current`next
      ensures Linked() && current.used == 0 && Flatten(parts) == old(Flatten(parts)) && fresh(repr - old(repr))
    {
      var b := new Buffer(size);
      Attach(b);
    }

    /** Filling the current buffer. */
    method Fill(chunk: Bytes)
      requires Linked() && current.used + |chunk| <= size
      modifies this`parts, current`used, current.data
      ensures Linked() && current.used == old(current.used) + |chunk| && Flatten(parts) == old(Flatten(parts)) + chunk
    {
      FlattenLast(parts, chunk);
      ghost var n := |buffers| - 1;
      assert Shown(current, parts[n], null);
      current.Append(chunk);
      assert Shown(current, parts[n] + chunk, null);
      parts := parts[n := parts[n] + chunk];
    }

    /** write_data_to_buffer */
    method WriteData(chunk: Bytes)
      requires Linked()
      modifies this`current, this`buffers, this`parts, this`repr, repr
      ensures Linked() && Flatten(parts) == old(Flatten(parts)) + chunk && fresh(repr - old(repr))
    {
      var written := 0;
      ghost var was := Flatten(parts);
      while written < |chunk|
        invariant Linked() && 0 <= written <= |chunk| && fresh(repr - old(repr))
        invariant Flatten(parts) == was + chunk[..written]
        decreases |chunk| - written, size == current.used
      {
        var toWrite := |chunk| - written;
        var space := size - current.used;
        if space == 0 {
          Grow();
        } else {
          if toWrite > space { toWrite := space; }
          Fill(chunk[written..written + toWrite]);
          assert chunk[..written + toWrite] == chunk[..written] + chunk[written..written + toWrite];
          written := written + toWrite;
        }
      }
    }

    /** The first walk adds up the sizes. */
    method Measure() returns (total: nat)
      requires Linked()
      ensures total == |Flatten(parts)|
    {
      total := 0;
      var cur: Buffer? := head;
      ghost var i := 0;
      while cur != null
        invariant 0 <= i <= |buffers| && cur == (if i < |buffers| then buffers[i] else null)
        invariant total == |Flatten(parts[..i])|
        decreases |buffers| - i
      {
        TakeStep(i);
        total := total + cur.used;
        cur, i := cur.next, i + 1;
      }
      assert parts[..i] == parts;
    }

    /** assemble_complete_response: the sizes are added up, then the buffers are copied one after another. */
    method Assemble() returns (response: Bytes)
      requires Linked()
      ensures response == Flatten(parts)
    {
      var total := Measure();
      var out := new Byte[total + 1];
      var ptr, cur: Buffer? := 0, head;
      ghost var i := 0;
      while cur != null
        invariant 0 <= i <= |buffers| && cur == (if i < |buffers| then buffers[i] else null)
        invariant ptr == |Flatten(parts[..i])| <= total && out[..ptr] == Flatten(parts[..i])
        decreases |buffers| - i
        modifies out
      {
        TakeStep(i);
        TakeFits(parts, i + 1);
        ptr := CopyPart(out, ptr, cur);
        cur, i := cur.next, i + 1;
      }
      assert parts[..i] == parts;
      out[total] := 0;
      response := out[..total];
    }

    lemma TakeStep(i: nat)
      requires Linked() && i < |buffers|
      ensures buffers[i].used <= buffers[i].data.Length && |buffers[i].Held()| == buffers[i].used
      ensures Flatten(parts[..i + 1]) == Flatten(parts[..i]) + buffers[i].Held()
      ensures buffers[i].next == if i + 1 < |buffers| then buffers[i + 1] else null
    {
      assert Shown(buffers[i], parts[i], After(buffers, i));
      assert parts[..i + 1][..i] == parts[..i];
    }

    static lemma TakeFits(parts: seq<Bytes>, i: nat)
      requires i <= |parts|
      ensures |Flatten(parts[..i])| <= |Flatten(parts)|
    {
      FlattenAppend(parts[..i], parts[i..]);
      assert parts == parts[..i] + parts[i..];
    }

    static method CopyPart(out: array<Byte>, ptr: nat, b: Buffer) returns (ptr': nat)
      requires b.used <= b.data.Length && ptr + b.used <= out.Length && out != b.data
      modifies out
      ensures ptr' == ptr + b.used && out[..ptr'] == old(out[..ptr]) + b.Held()
    {
      var k := 0;
      while k < b.used
        invariant 0 <= k <= b.used && out[..ptr + k] == old(out[..ptr]) + b.data[..k]
      {
        out[ptr + k] := b.data[k];
        k := k + 1;
      }
      ptr' := ptr + b.used;
    }

    /** process_new_config: the callback gets what the chain holds, and a new chain starts. */
    method Process()
      requires Linked()
      modifies this
      ensures Linked() && Flatten(parts) == [] && delivered == old(delivered) + [old(Flatten(parts))]
      ensures fresh(repr)
    {
      var response := Assemble();
      delivered := delivered + [response];
      var b := new Buffer(size);
      head, current, buffers, parts, repr := b, b, [b], [[]], {b, b.data};
    }

    /** handle_response, after the chunks received so far. */
    method HandleResponse(chunk: Bytes, ghost chunks: seq<Bytes>) returns (accepted: nat)
      requires Valid(chunks)
      modifies this, repr
      ensures Valid(chunks + [chunk]) && accepted == |chunk| && fresh(repr - old(repr))
    {
      ReflectStep(delivered, Flatten(parts), chunks, chunk);
      var endOfMessage := EndsWith(chunk);
      WriteData(chunk);
      if endOfMessage { Process(); }
      accepted := |chunk|;
    }
  }

  lemma {:induction false} MessagesAreConcat(groups: seq<seq<Bytes>>)
    ensures Flatten(Messages(groups)) == Flatten(Concat(groups))
  {
    if groups != [] {
      var before, last := groups[..|groups| - 1], groups[|groups| - 1];
      MessagesAreConcat(before);
      assert Messages(groups)[..|groups| - 1] == Messages(before);
      FlattenAppend(Concat(before), last);
    }
  }

  /** The messages delivered, followed by what is pending, are all the bytes received. */
  lemma BytesConserved(chunks: seq<Bytes>)
    ensures var (messages, pending) := Cut(chunks); Flatten(Messages(messages)) + Flatten(pending) == Flatten(chunks)
  {
    var (messages, pending) := Cut(chunks);
    CutsAfterTerminators(chunks);
    MessagesAreConcat(messages);
    FlattenAppend(Concat(messages), pending);
  }
}
