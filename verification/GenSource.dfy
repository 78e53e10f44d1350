/**
 The workload generator of membase-cli/pump_gen.py: an online controller that keeps the share of
 SETs at a given ratio.  Ratios are reals.
 */
module GenSource {
  import opened Prelude

  datatype Cmd = SetCmd | GetCmd
  datatype Msg = Msg(cmd: Cmd, key: nat)
  datatype Counters = Counters(ops: nat, sets: nat, gets: nat, items: nat)

  const START := Counters(0, 0, 0, 0)

  /** ratio * n, as repeated addition. */
  function Times(ratio: real, n: nat): real { if n == 0 then 0.0 else Times(ratio, n - 1) + ratio }

  lemma {:induction false} TimesIs(ratio: real, n: nat)
    ensures Times(ratio, n) == ratio * n as real
  {
    if n > 0 {
      TimesIs(ratio, n - 1);
      assert ratio * n as real == ratio * (n - 1) as real + ratio;
    }
  }

  /** The next operation is a SET: the share of SETs so far is at most the ratio. */
  predicate WantsSet(c: Counters, ratio: real) {
    c.sets as real <= Times(ratio, if c.ops == 0 then 1 else c.ops)
  }

  // The test as the code makes it, with a quotient.
  lemma QuotientTest(c: Counters, ratio: real)
    ensures WantsSet(c, ratio) <==> ratio >= c.sets as real / (if c.ops == 0 then 1 else c.ops) as real
  {
    var n := if c.ops == 0 then 1 else c.ops;
    TimesIs(ratio, n);
    Quotient(c.sets as real, n as real, ratio);
  }

  lemma Quotient(x: real, n: real, ratio: real)
    requires n > 0.0
    ensures ratio >= x / n <==> ratio * n >= x
  {
    var q := x / n;
    assert q * n == x;
    if ratio >= q { assert ratio * n >= q * n; } else { assert ratio * n < q * n; }
  }

  /** One round of the loop; None is a division by zero, with no item to refer to. */
  function Step(c: Counters, ratio: real, maxItems: int): Option<(Counters, Msg)> {
    if WantsSet(c, ratio) then
      if c.items < maxItems then Some((Counters(c.ops + 1, c.sets + 1, c.gets, c.items + 1), Msg(SetCmd, c.items)))
      else if c.items == 0 then None
      else Some((Counters(c.ops + 1, c.sets + 1, c.gets, c.items), Msg(SetCmd, (c.sets + 1) % c.items)))
    else if c.items == 0 then None
    else Some((Counters(c.ops + 1, c.sets, c.gets + 1, c.items), Msg(GetCmd, (c.gets + 1) % c.items)))
  }

  /** What holds of the counters after any number of operations. */
  predicate Balanced(c: Counters, ratio: real, maxItems: int) {
    && c.ops == c.sets + c.gets
    && c.items == (if c.sets < maxItems then c.sets else maxItems)
    && (c.ops > 0 ==> c.sets > 0)
    && -ratio <= c.sets as real - Times(ratio, c.ops) <= 1.0 - ratio
  }

  /** Each operation keeps the SETs within one of ratio * operations, and never fails when there may be items. */
  lemma StepBalanced(c: Counters, ratio: real, maxItems: int)
    requires 0.0 <= ratio <= 1.0 && maxItems > 0 && Balanced(c, ratio, maxItems)
    ensures var r := Step(c, ratio, maxItems);
      r.Some? && Balanced(r.value.0, ratio, maxItems) && r.value.0.ops == c.ops + 1 && r.value.1.key < r.value.0.items
  {
  }

  /** `key` is the item whose turn it is when the items are gone round for the `n`th time of asking. */
  ghost predicate Turn(n: nat, items: int, key: nat) { key < items && exists q: nat :: n == q * items + key }

  lemma TurnIs(n: nat, items: int)
    requires items > 0
    ensures Turn(n, items, n % items)
  {
    assert n == (n / items) * items + n % items;
  }

  /** A SET exactly when the SETs so far are at most the ratio of the operations so far; the SETs create the
      items in order and then go round them, and so do the GETs over the items there are. */
  lemma StepChooses(c: Counters, ratio: real, maxItems: int)
    requires maxItems > 0 && Balanced(c, ratio, maxItems) && Step(c, ratio, maxItems).Some?
    ensures var (c', msg) := Step(c, ratio, maxItems).value;
      && (msg.cmd == SetCmd <==> ratio >= c.sets as real / (if c.ops == 0 then 1 else c.ops) as real)
      && (msg.cmd == SetCmd ==> c' == c.(ops := c.ops + 1, sets := c.sets + 1, items := c'.items))
      && (msg.cmd == GetCmd ==> c' == c.(ops := c.ops + 1, gets := c.gets + 1))
      && (msg.cmd == SetCmd && c.sets < maxItems ==> msg.key == c.sets && c'.items == c.sets + 1)
      && (msg.cmd == SetCmd && c.sets >= maxItems ==> c'.items == maxItems && Turn(c'.sets, maxItems, msg.key))
      && (msg.cmd == GetCmd ==> Turn(c'.gets, c.items, msg.key))
  {
    QuotientTest(c, ratio);
    if c.items > 0 {
      TurnIs(c.sets + 1, c.items);
      TurnIs(c.gets + 1, c.items);
    }
  }

  ghost function Run(n: nat, ratio: real, maxItems: int): Option<Counters> {
    if n == 0 then Some(START)
    else match Run(n - 1, ratio, maxItems)
      case None => None
      case Some(c) => if Step(c, ratio, maxItems).Some? then Some(Step(c, ratio, maxItems).value.0) else None
  }

  /** After n operations -ratio <= sets - ratio * n <= 1 - ratio. */
  lemma {:induction false} RunBalanced(n: nat, ratio: real, maxItems: int)
    requires 0.0 <= ratio <= 1.0 && maxItems > 0
    ensures var r := Run(n, ratio, maxItems);
      && r.Some? && r.value.ops == n && Balanced(r.value, ratio, maxItems)
      && -ratio <= r.value.sets as real - ratio * n as real <= 1.0 - ratio
  {
    TimesIs(ratio, n);
    if n > 0 {
      RunBalanced(n - 1, ratio, maxItems);
      StepBalanced(Run(n - 1, ratio, maxItems).value, ratio, maxItems);
    }
  }

  /** The first operation divides by zero exactly when the ratio is negative, so that it is a GET, or no
      item may be created. */
  lemma FirstStepFails(ratio: real, maxItems: int)
    ensures Step(START, ratio, maxItems).None? <==> ratio < 0.0 || maxItems <= 0
  {
    assert Times(ratio, 1) == Times(ratio, 0) + ratio;
  }

  /** A generator that starts from zero divides by zero at its first operation or never. */
  lemma {:induction false} RunFails(n: nat, ratio: real, maxItems: int)
    requires n > 0
    ensures Run(n, ratio, maxItems).None? <==> ratio < 0.0 || maxItems <= 0
    ensures Run(n, ratio, maxItems).Some? ==> Run(n, ratio, maxItems).value.items > 0
  {
    if n == 1 {
      FirstStepFails(ratio, maxItems);
      assert Run(0, ratio, maxItems) == Some(START);
    } else {
      RunFails(n - 1, ratio, maxItems);
    }
  }

  /** total_msgs with exit-after-creates. */
  function Estimate(maxItems: nat, ratio: real): (est: int)
    requires ratio > 0.0
  { (maxItems as real / ratio).Floor }

  lemma {:induction false} TimesGrows(ratio: real, a: nat, b: nat)
    requires ratio >= 0.0 && a <= b
    ensures Times(ratio, a) <= Times(ratio, b)
  {
    if a < b { TimesGrows(ratio, a, b - 1); }
  }

  // The quotient, and the quotient rounded down, in terms of products.
  lemma QuotientBelow(x: real, ratio: real, k: real)
    requires ratio > 0.0
    ensures k <= x / ratio <==> ratio * k <= x
  {
    var q := x / ratio;
    assert q * ratio == x;
    if k <= q { assert k * ratio <= q * ratio; } else { assert k * ratio > q * ratio; }
  }

  lemma EstimateIs(maxItems: nat, ratio: real)
    requires ratio > 0.0
    ensures var est := Estimate(maxItems, ratio);
      est >= 0 && Times(ratio, est) <= maxItems as real < Times(ratio, est + 1)
  {
    var x, est := maxItems as real, Estimate(maxItems, ratio);
    QuotientBelow(x, ratio, 0.0);
    QuotientBelow(x, ratio, est as real);
    QuotientBelow(x, ratio, (est + 1) as real);
    TimesIs(ratio, est);
    TimesIs(ratio, est + 1);
  }

  /** If the operation from counters c to c' creates the last item, items - 1 SETs came before it, and
      the number of operations in all, c'.ops, is at most two above the estimate of total_msgs, which is
      itself less than 1 / ratio above it. */
  lemma TotalMsgs(c: Counters, c': Counters, ratio: real, maxItems: nat)
    requires 0.0 < ratio && Balanced(c, ratio, maxItems) && Balanced(c', ratio, maxItems)
    requires c'.ops == c.ops + 1 && c'.sets <= c.sets + 1 && c.items == maxItems - 1 && c'.items == maxItems
    ensures var est := Estimate(maxItems, ratio);
      c.sets == maxItems - 1 && c'.ops <= est + 2 && ratio * (est - c'.ops + 1) as real <= 1.0
  {
    var est := Estimate(maxItems, ratio);
    EstimateIs(maxItems, ratio);
    assert Times(ratio, c.ops) - ratio <= maxItems as real - 1.0 <= Times(ratio, c.ops);
    if c.ops >= est + 2 { TimesGrows(ratio, est + 2, c.ops); }
    TimesIs(ratio, est);
    TimesIs(ratio, c.ops);
    assert ratio * (est - c.ops) as real == ratio * est as real - ratio * c.ops as real;
  }

  /** The counters after n operations and the operations, unless one fails. */
  function Generate(c: Counters, n: nat, ratio: real, maxItems: int): Option<(Counters, seq<Msg>)> {
    if n == 0 then Some((c, []))
    else match Generate(c, n - 1, ratio, maxItems)
      case None => None
      case Some(g) =>
        match Step(g.0, ratio, maxItems)
        case None => None
        case Some(r) => Some((r.0, g.1 + [r.1]))
  }

  // One more operation.
  lemma GenerateMore(c: Counters, msgs: seq<Msg>, c1: Counters, c2: Counters, msg: Msg, ratio: real, maxItems: int)
    requires Generate(c, |msgs|, ratio, maxItems) == Some((c1, msgs)) && Step(c1, ratio, maxItems) == Some((c2, msg))
    ensures Generate(c, |msgs| + 1, ratio, maxItems) == Some((c2, msgs + [msg]))
  {
  }

  /** From balanced counters any number of operations succeed and name existing items only. */
  lemma {:induction false} GenerateBalanced(c: Counters, n: nat, ratio: real, maxItems: int)
    requires 0.0 <= ratio <= 1.0 && maxItems > 0 && Balanced(c, ratio, maxItems)
    ensures var g := Generate(c, n, ratio, maxItems);
      && g.Some? && Balanced(g.value.0, ratio, maxItems) && g.value.0.ops == c.ops + n && |g.value.1| == n
      && forall i | 0 <= i < n :: g.value.1[i].key < g.value.0.items
  {
    if n > 0 {
      GenerateBalanced(c, n - 1, ratio, maxItems);
      StepBalanced(Generate(c, n - 1, ratio, maxItems).value.0, ratio, maxItems);
    }
  }

  function Count(msgs: seq<Msg>, cmd: Cmd): nat {
    if msgs == [] then 0 else Count(msgs[..|msgs| - 1], cmd) + if msgs[|msgs| - 1].cmd == cmd then 1 else 0
  }

  /** What the message after some others is, from the numbers of SETs and GETs among them: a SET exactly
      when the SETs are at most the ratio of the messages, of the next new item while there is one, and
      otherwise of the items in turn, as a GET is of the items there are. */
  ghost predicate Chosen(before: seq<Msg>, msg: Msg, ratio: real, maxItems: int)
    requires maxItems > 0
  {
    var n, sets, gets := |before|, Count(before, SetCmd), Count(before, GetCmd);
    && (msg.cmd == SetCmd <==> ratio >= sets as real / (if n == 0 then 1 else n) as real)
    && (msg.cmd == SetCmd && sets < maxItems ==> msg.key == sets)
    && (msg.cmd == SetCmd && sets >= maxItems ==> Turn(sets + 1, maxItems, msg.key))
    && (msg.cmd == GetCmd ==> Turn(gets + 1, if sets < maxItems then sets else maxItems, msg.key))
  }

  lemma ChosenStep(c: Counters, before: seq<Msg>, ratio: real, maxItems: int)
    requires maxItems > 0 && Balanced(c, ratio, maxItems) && Step(c, ratio, maxItems).Some?
    requires c.ops == |before| && c.sets == Count(before, SetCmd) && c.gets == Count(before, GetCmd)
    ensures var (c', msg) := Step(c, ratio, maxItems).value;
      && Chosen(before, msg, ratio, maxItems)
      && c'.sets == Count(before + [msg], SetCmd) && c'.gets == Count(before + [msg], GetCmd)
  {
    StepChooses(c, ratio, maxItems);
    var msg := Step(c, ratio, maxItems).value.1;
    assert (before + [msg])[..|before|] == before;
  }

  /** Every message is the one its predecessors call for. */
  lemma {:induction false} GenerateChooses(n: nat, ratio: real, maxItems: int)
    requires 0.0 <= ratio <= 1.0 && maxItems > 0
    ensures var g := Generate(START, n, ratio, maxItems);
      && g.Some? && |g.value.1| == n
      && g.value.0.sets == Count(g.value.1, SetCmd) && g.value.0.gets == Count(g.value.1, GetCmd)
      && forall i | 0 <= i < n :: Chosen(g.value.1[..i], g.value.1[i], ratio, maxItems)
  {
    GenerateBalanced(START, n, ratio, maxItems);
    if n > 0 {
      GenerateChooses(n - 1, ratio, maxItems);
      GenerateBalanced(START, n - 1, ratio, maxItems);
      var (c, before) := Generate(START, n - 1, ratio, maxItems).value;
      ChosenStep(c, before, ratio, maxItems);
      var msgs := Generate(START, n, ratio, maxItems).value.1;
      assert msgs[..n - 1] == before;
      forall i | 0 <= i < n ensures Chosen(msgs[..i], msgs[i], ratio, maxItems) {
        if i < n - 1 { assert msgs[..i] == before[..i]; }
      }
    }
  }

  function TotalBytes(msgs: seq<Msg>, valueLength: nat -> nat): nat {
    if msgs == [] then 0 else TotalBytes(msgs[..|msgs| - 1], valueLength) + valueLength(msgs[|msgs| - 1].key)
  }

  /** What provide_batch gives: a batch, nothing more to send, or a division by zero. */
  datatype Reply = Batch(msgs: seq<Msg>) | Nothing | ZeroDivision

  class Generator {
    const ratio: real
    const maxItems: int
    const exitAfterCreates: bool
    var c: Counters
    var finished: bool

    /** What starting from zero with a ratio in [0, 1] and items to create gives and every batch keeps. */
    predicate InBalance()
      reads this
    { 0.0 <= ratio <= 1.0 && maxItems > 0 && Balanced(c, ratio, maxItems) }

    /** The counters may be preset. */
    constructor (ratio: real, maxItems: int, exitAfterCreates: bool, c: Counters)
      ensures this.c == c && !finished
      ensures this.ratio == ratio && this.maxItems == maxItems && this.exitAfterCreates == exitAfterCreates
      ensures c == START && 0.0 <= ratio <= 1.0 && maxItems > 0 ==> InBalance()
    {
      this.ratio, this.maxItems, this.exitAfterCreates := ratio, maxItems, exitAfterCreates;
      this.c, finished := c, false;
    }

    /** One round of the loop: the counters and the message, unless it divides by zero. */
    method NextOperation() returns (msg: Option<Msg>)
      modifies this`c
      ensures msg.None? <==> Step(old(c), ratio, maxItems).None?
      ensures msg.Some? ==> Step(old(c), ratio, maxItems) == Some((c, msg.value))
    {
      QuotientTest(c, ratio);
      var cmd, key := SetCmd, 0;
      if ratio >= c.sets as real / (if c.ops == 0 then 1 else c.ops) as real {
        c := c.(sets := c.sets + 1);
        if c.items < maxItems {
          key := c.items;
          c := c.(items := c.items + 1);
        } else {
          if c.items == 0 { return None; }
          key := c.sets % c.items;
        }
      } else {
        c := c.(gets := c.gets + 1);
        if c.items == 0 { return None; }
        cmd, key := GetCmd, c.gets % c.items;
      }
      c := c.(ops := c.ops + 1);
      return Some(Msg(cmd, key));
    }

    /** A generator in balance stays so and does not fail. */
    method Operate() returns (msg: Option<Msg>)
      modifies this`c
      ensures msg.None? <==> Step(old(c), ratio, maxItems).None?
      ensures msg.Some? ==> Step(old(c), ratio, maxItems) == Some((c, msg.value))
      ensures old(InBalance()) ==> InBalance() && msg.Some?
    {
      if InBalance() { StepBalanced(c, ratio, maxItems); }
      msg := NextOperation();
    }

    /** provide_batch: the loop adds operations until the batch is full or every item has been created. */
    method ProvideBatch(maxSize: int, maxBytes: int, valueLength: nat -> nat) returns (reply: Reply)
      modifies this
      ensures old(finished) ==> reply == Nothing && c == old(c) && finished
      ensures !old(finished) ==>
        && (reply == Nothing <==> maxSize <= 0 || maxBytes <= 0)
        && (reply == Nothing ==> c == old(c))
        && (finished <==> reply.Batch? && exitAfterCreates && c.items >= maxItems)
      ensures reply.Batch? ==>
        && Generate(old(c), |reply.msgs|, ratio, maxItems) == Some((c, reply.msgs))
        && 0 < |reply.msgs| <= maxSize
        && TotalBytes(reply.msgs[..|reply.msgs| - 1], valueLength) < maxBytes
        && (finished || |reply.msgs| == maxSize || TotalBytes(reply.msgs, valueLength) >= maxBytes)
      ensures reply == ZeroDivision ==> exists n :: 0 < n <= maxSize && Generate(old(c), n, ratio, maxItems) == None
      ensures old(InBalance()) ==> InBalance() && reply != ZeroDivision
    {
      if finished { return Nothing; }
      var msgs: seq<Msg>, bytes := [], 0;
      while |msgs| < maxSize && bytes < maxBytes
        invariant !finished && |msgs| <= (if maxSize < 0 then 0 else maxSize) && bytes == TotalBytes(msgs, valueLength)
        invariant Generate(old(c), |msgs|, ratio, maxItems) == Some((c, msgs))
        invariant msgs != [] ==> TotalBytes(msgs[..|msgs| - 1], valueLength) < maxBytes
        invariant msgs != [] && exitAfterCreates ==> c.items < maxItems
        invariant old(InBalance()) ==> InBalance()
        decreases maxSize - |msgs|
      {
        ghost var was := c;
        var msg := Operate();
        if msg == None {
          assert Generate(old(c), |msgs| + 1, ratio, maxItems) == None;
          return ZeroDivision;
        }
        GenerateMore(old(c), msgs, was, c, msg.value, ratio, maxItems);
        assert (msgs + [msg.value])[..|msgs|] == msgs;
        msgs, bytes := msgs + [msg.value], bytes + valueLength(msg.value.key);
        if exitAfterCreates && c.items >= maxItems {
          finished := true;
          return Batch(msgs);
        }
      }
      if |msgs| <= 0 { return Nothing; }
      return Batch(msgs);
    }
  }
}
