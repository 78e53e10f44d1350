/**
 The two threads that move batches from a source to a sink (membase-cli/pump.py and pump_mc.py):
 Pump.run on one side, MCSink.run on the other, with a one-slot handoff and a future for each
 batch.  Every read or write of shared state is a step of its own.
 */
module Pump {
  import opened Prelude

  type Batch = nat

  /** The worker_work slot's tuple; no batch asks the worker to end. */
  datatype Work = Work(batch: Option<Batch>, future: Option<nat>)
  datatype Future = Future(rv: Option<int>, done: bool)

  /** Where Pump.run is; a payload is a local variable.  A result other than 0 is an error. */
  datatype PumpPc =
    | Top
    | Provide
    | Await(batch: Option<Batch>)
    | ReadResult(batch: Option<Batch>)
    | CheckAlive(inHand: Batch)
    | WriteSlot(inHand: Batch)
    | SetGo
    | CloseCheck(rv: int)
    | CloseWrite(rv: int)
    | CloseSet(rv: int)
    | Returned(rv: int)

  /** Where MCSink.run is; `seen` is how many times go had been set when the wait ended. */
  datatype WorkerPc =
    | Loop
    | Wait
    | ReadSlot(seen: nat)
    | ClearSlot(work: Work, seen: nat)
    | ClearGo(work: Work, seen: nat)
    | Pulled(work: Work)
    | Scatter(batch: Batch, future: nat)
    | WriteResult(future: nat, rv: int)
    | SetDone(future: nat, rv: int)
    | Dead

  /** `provided` and `consumed` are what the source gave and what the sink finished with, with its
      result; `sets` counts the sets of go.  `overwritten` and `erased` record a batch lost from the
      slot and a set of go undone by the clear for an earlier one. */
  datatype State = State(
    p: PumpPc, future: Option<nat>, w: WorkerPc, slot: Option<Work>, go: bool, futures: seq<Future>, stop: bool,
    totSource: nat, totSink: nat, provided: seq<Batch>, consumed: seq<(Batch, int)>,
    sets: nat, overwritten: bool, erased: bool)

  /** One step of a thread, with what the outside world answers. */
  datatype Step =
    | PumpStep(answer: Provided)
    | WorkerStep(outcome: Outcome)
    | Stop
  datatype Provided = Failed(error: int) | NoBatch | Given(batch: Batch)
  /** scatter_gather: stored, to be retried, an error, or an exception that ends the thread. */
  datatype Outcome = Stored | Retry | Error(rv: int) | Crash

  const MISSING: int := -1

  ghost predicate Init(s: State) {
    s == State(Top, None, Loop, None, false, [], s.stop, 0, 0, [], [], 0, false, false)
  }

  predicate Enabled(s: State, step: Step) {
    match step
    case PumpStep(answer) =>
      (match s.p
       case Provide => answer.Failed? ==> answer.error != 0
       case Await(_) => s.future.None? || (s.future.value < |s.futures| && s.futures[s.future.value].done)
       case ReadResult(_) => s.future.Some? && s.future.value < |s.futures| && s.futures[s.future.value].rv.Some?
       case Returned(_) => false
       case _ => true)
    case WorkerStep(outcome) =>
      (match s.w
       case Wait => s.go
       case Scatter(_, _) => outcome.Error? ==> outcome.rv != 0
       case WriteResult(f, _) => f < |s.futures|
       case SetDone(f, _) => f < |s.futures|
       case Dead => false
       case _ => true)
    case Stop => true
  }

  /** After awaiting the last future, go on with the batch provided, or end. */
  function Onward(s: State, batch: Option<Batch>): State {
    if batch.Some? then s.(p := CheckAlive(batch.value), totSource := s.totSource + 1) else s.(p := CloseCheck(0))
  }

  /** Pump.done's last word. */
  function FinalResult(s: State, rv: int): int { if rv == 0 && s.totSource != s.totSink then MISSING else rv }

  function PutSlot(s: State, work: Work): State { s.(slot := Some(work), overwritten := s.overwritten || s.slot.Some?) }

  function PumpNext(s: State, answer: Provided): State
    requires Enabled(s, PumpStep(answer))
  {
    match s.p
    case Top => s.(p := if s.stop then CloseCheck(0) else Provide)
    case Provide =>
      (match answer
       case Failed(error) => s.(p := CloseCheck(error))
       case NoBatch => s.(p := Await(None))
       case Given(b) => s.(p := Await(Some(b)), provided := s.provided + [b]))
    case Await(batch) => if s.future.None? then Onward(s, batch) else s.(p := ReadResult(batch))
    case ReadResult(batch) =>
      var rv := s.futures[s.future.value].rv.value;
      if rv != 0 then s.(p := CloseCheck(rv)) else Onward(s.(totSink := s.totSink + 1), batch)
    case CheckAlive(b) => s.(p := if s.w == Dead then CloseCheck(MISSING) else WriteSlot(b))
    case WriteSlot(b) =>
      var f := |s.futures|;
      PutSlot(s, Work(Some(b), Some(f))).(p := SetGo, future := Some(f), futures := s.futures + [Future(None, false)])
    case SetGo => s.(p := Top, go := true, sets := s.sets + 1)
    case CloseCheck(rv) => s.(p := if s.w == Dead then Returned(FinalResult(s, rv)) else CloseWrite(rv))
    case CloseWrite(rv) => PutSlot(s, Work(None, None)).(p := CloseSet(rv))
    case CloseSet(rv) => s.(p := Returned(FinalResult(s, rv)), go := true, sets := s.sets + 1)
  }

  function WorkerNext(s: State, outcome: Outcome): State
    requires Enabled(s, WorkerStep(outcome))
  {
    match s.w
    case Loop => s.(w := if s.stop then Dead else Wait)
    case Wait => s.(w := ReadSlot(s.sets))
    case ReadSlot(seen) => s.(w := if s.slot.Some? then ClearSlot(s.slot.value, seen) else Dead)
    case ClearSlot(work, seen) => s.(w := ClearGo(work, seen), slot := None)
    case ClearGo(work, seen) => s.(w := Pulled(work), go := false, erased := s.erased || s.sets != seen)
    case Pulled(work) =>
      s.(w := if work.batch.Some? && work.future.Some? then Scatter(work.batch.value, work.future.value) else Dead)
    case Scatter(b, f) =>
      (match outcome
       case Stored => s.(w := WriteResult(f, 0), consumed := s.consumed + [(b, 0)])
       case Retry => s
       case Error(rv) => s.(w := WriteResult(f, rv), consumed := s.consumed + [(b, rv)])
       case Crash => s.(w := Dead))
    case WriteResult(f, rv) => s.(w := SetDone(f, rv), futures := s.futures[f := s.futures[f].(rv := Some(rv))])
    case SetDone(f, rv) =>
      s.(w := if rv == 0 then Loop else Dead, futures := s.futures[f := s.futures[f].(done := true)])
  }

  function Next(s: State, step: Step): State
    requires Enabled(s, step)
  {
    match step
    case PumpStep(answer) => PumpNext(s, answer)
    case WorkerStep(outcome) => WorkerNext(s, outcome)
    case Stop => s.(stop := true)
  }

  ghost predicate Run(states: seq<State>, steps: seq<Step>) {
    && |states| == |steps| + 1
    && Init(states[0])
    && forall i | 0 <= i < |steps| :: Enabled(states[i], steps[i]) && states[i + 1] == Next(states[i], steps[i])
  }

  // ----------------------------------------------------------------------------------------
  // The invariant

  /** An end that cannot return 0: an error, or a batch not accounted for. */
  predicate Dirty(s: State) {
    match s.p
    case CloseCheck(rv) => rv != 0 || s.totSource != s.totSink
    case CloseWrite(rv) => rv != 0 || s.totSource != s.totSink
    case CloseSet(rv) => rv != 0 || s.totSource != s.totSink
    case Returned(rv) => rv != 0
    case _ => false
  }

  function AllStored(batches: seq<Batch>): (r: seq<(Batch, int)>)
    ensures |r| == |batches| && forall i | 0 <= i < |r| :: r[i] == (batches[i], 0)
  { seq(|batches|, i requires 0 <= i < |batches| => (batches[i], 0)) }

  /** The batches pushed: all that were provided but the one in hand. */
  function Pushed(s: State): seq<Batch>
    requires |s.futures| <= |s.provided|
  { s.provided[..|s.futures|] }

  /** Everything pushed is finished with, and the slot is free. */
  predicate Settled(s: State)
    requires |s.futures| <= |s.provided|
  { s.slot == None && !s.go && s.w in {Loop, Wait, Dead} && s.consumed == AllStored(Pushed(s)) }

  /** `work` is in the slot and go is not yet set for it. */
  predicate Written(s: State, work: Work) { s.slot == Some(work) && !s.go && s.w in {Loop, Wait, Dead} }

  /** `work` has been pushed and is being handed over or has been pulled. */
  predicate Handed(s: State, work: Work) {
    match s.w
    case Loop => s.slot == Some(work) && s.go
    case Wait => s.slot == Some(work) && s.go
    case ReadSlot(seen) => s.slot == Some(work) && s.go && seen == s.sets
    case ClearSlot(x, seen) => x == work && s.slot == Some(work) && s.go && seen == s.sets
    case ClearGo(x, seen) => x == work && s.slot == None && s.go && seen == s.sets
    case Pulled(x) => x == work && s.slot == None && !s.go
    case Scatter(b, f) => work == Work(Some(b), Some(f)) && s.slot == None && !s.go
    case WriteResult(_, _) => false
    case SetDone(_, _) => false
    case Dead => (s.slot == None && !s.go) || (s.slot == Some(work) && s.go)
  }

  /** The last future, once the worker has a result for it. */
  predicate Finished(s: State)
    requires 0 < |s.futures| <= |s.provided|
  {
    var f := |s.futures| - 1;
    && s.slot == None && !s.go && |s.consumed| == f + 1
    && s.consumed == AllStored(s.provided[..f]) + [(s.provided[f], s.consumed[f].1)]
    && var rv := s.consumed[f].1;
      match s.w
      case WriteResult(x, r) => x == f && r == rv && s.futures[f] == Future(None, false)
      case SetDone(x, r) => x == f && r == rv && s.futures[f] == Future(Some(rv), false)
      case Loop => rv == 0 && s.futures[f] == Future(Some(rv), true)
      case Wait => rv == 0 && s.futures[f] == Future(Some(rv), true)
      case Dead => s.futures[f] == Future(Some(rv), true)
      case _ => false
  }

  /** The last batch pushed has not been awaited. */
  predicate Pending(s: State)
    requires 0 < |s.futures| <= |s.provided|
  {
    var f := |s.futures| - 1;
    || Finished(s)
    || (&& Handed(s, Work(Some(s.provided[f]), Some(f)))
        && s.futures[f] == Future(None, false)
        && s.consumed == AllStored(s.provided[..f]))
  }

  predicate InLoop(s: State, inHand: seq<Batch>) {
    && |s.provided| == |s.futures| + |inHand| && s.provided[|s.futures|..] == inHand
    && s.totSource == |s.futures|
    && (if s.future.None? then s.futures == [] && s.totSink == 0 && Settled(s)
        else s.future.value == |s.futures| - 1 && |s.futures| > 0 && s.totSink == |s.futures| - 1 && Pending(s))
  }

  function InHand(batch: Option<Batch>): seq<Batch> { if batch.Some? then [batch.value] else [] }

  /** Everything pushed is stored and counted, and `b` is next. */
  predicate Ready(s: State, b: Batch)
    requires |s.futures| <= |s.provided|
  {
    s.provided == Pushed(s) + [b] && s.totSource == |s.futures| + 1 && s.totSink == |s.futures| && Settled(s)
  }

  predicate Clean(s: State) {
    && !s.overwritten && !s.erased && |s.futures| <= |s.provided|
    && match s.p
       case Top => InLoop(s, [])
       case Provide => InLoop(s, [])
       case Await(batch) => InLoop(s, InHand(batch))
       case ReadResult(batch) =>
         && InLoop(s, InHand(batch)) && s.future.Some? && s.futures[s.future.value].done
       case CheckAlive(b) => Ready(s, b)
       case WriteSlot(b) => Ready(s, b)
       case SetGo =>
         var n := |s.futures|;
         && n > 0 && |s.provided| == n && s.totSource == n && s.totSink == n - 1 && s.future == Some(n - 1)
         && s.futures[n - 1] == Future(None, false)
         && Written(s, Work(Some(s.provided[n - 1]), Some(n - 1))) && s.consumed == AllStored(s.provided[..n - 1])
       case CloseCheck(rv) => s.provided == Pushed(s) && Settled(s)
       case CloseWrite(rv) => s.provided == Pushed(s) && Settled(s)
       case CloseSet(rv) =>
         s.provided == Pushed(s) && s.consumed == AllStored(s.provided) && Written(s, Work(None, None))
       case Returned(rv) =>
         s.provided == Pushed(s) && s.consumed == AllStored(s.provided) && (Settled(s) || Handed(s, Work(None, None)))
  }

  predicate Inv(s: State) { Dirty(s) || Clean(s) }

  // ----------------------------------------------------------------------------------------
  // Each step keeps it

  lemma TopKeeps(s: State, answer: Provided)
    requires s.p.Top? && Clean(s) && Enabled(s, PumpStep(answer))
    ensures Inv(PumpNext(s, answer))
  {
    assert s.provided[|s.futures|..] == [];
    assert Pushed(s) == s.provided;
  }

  lemma AppendKeeps(s: State, b: Batch)
    requires InLoop(s, [])
    ensures InLoop(s.(provided := s.provided + [b]), [b])
  {
    var s' := s.(provided := s.provided + [b]);
    assert Pushed(s') == Pushed(s) == s.provided;
    if s.future.Some? {
      var f := |s.futures| - 1;
      assert s'.provided[..f] == s.provided[..f] && s'.provided[f] == s.provided[f];
    }
  }

  lemma NoBatchKeeps(s: State)
    requires s.p.Provide? && Clean(s)
    ensures Clean(s.(p := Await(None)))
  {
    assert InHand(None) == [];
  }

  lemma ProvideKeeps(s: State, answer: Provided)
    requires s.p.Provide? && Clean(s) && Enabled(s, PumpStep(answer))
    ensures Inv(PumpNext(s, answer))
  {
    match answer
    case Given(b) => AppendKeeps(s, b);
    case NoBatch => NoBatchKeeps(s);
    case Failed(_) =>
  }

  lemma OnwardKeeps(s: State, batch: Option<Batch>)
    requires !s.overwritten && !s.erased && |s.futures| <= |s.provided| && Settled(s)
    requires |s.provided| == |s.futures| + |InHand(batch)| && s.provided[|s.futures|..] == InHand(batch)
    requires s.totSource == s.totSink == |s.futures|
    ensures Clean(Onward(s, batch))
  {
    assert s.provided == Pushed(s) + s.provided[|s.futures|..];
  }

  lemma ReadResultKeeps(s: State, answer: Provided)
    requires s.p.ReadResult? && Clean(s) && Enabled(s, PumpStep(answer))
    ensures Inv(PumpNext(s, answer))
  {
    var f := |s.futures| - 1;
    assert Finished(s);
    if s.futures[f].rv.value == 0 {
      assert s.provided[..f] + [s.provided[f]] == Pushed(s);
      assert s.consumed == AllStored(Pushed(s));
      OnwardKeeps(s.(totSink := s.totSink + 1), s.p.batch);
    }
  }

  lemma WriteSlotKeeps(s: State, answer: Provided)
    requires s.p.WriteSlot? && Clean(s) && Enabled(s, PumpStep(answer))
    ensures Inv(PumpNext(s, answer))
  {
    assert s.provided[..|s.futures|] == Pushed(s);
    assert s.provided[|s.futures|] == s.p.inHand;
  }

  lemma SetGoKeeps(s: State, answer: Provided)
    requires s.p.SetGo? && Clean(s) && Enabled(s, PumpStep(answer))
    ensures Inv(PumpNext(s, answer))
  {
    assert s.provided[|s.futures|..] == [];
  }

  lemma CloseKeeps(s: State, answer: Provided)
    requires s.p.CheckAlive? || s.p.CloseCheck? || s.p.CloseWrite? || s.p.CloseSet?
    requires Inv(s) && Enabled(s, PumpStep(answer))
    ensures Inv(PumpNext(s, answer))
  {
  }

  lemma PumpKeeps(s: State, answer: Provided)
    requires Inv(s) && Enabled(s, PumpStep(answer))
    ensures Inv(PumpNext(s, answer))
  {
    if s.p.Top? { TopKeeps(s, answer); }
    else if s.p.Provide? { ProvideKeeps(s, answer); }
    else if s.p.Await? {
      if s.future.None? { OnwardKeeps(s, s.p.batch); }
    }
    else if s.p.ReadResult? { ReadResultKeeps(s, answer); }
    else if s.p.WriteSlot? { WriteSlotKeeps(s, answer); }
    else if s.p.SetGo? { SetGoKeeps(s, answer); }
    else { CloseKeeps(s, answer); }
  }

  lemma InLoopKeeps(s: State, inHand: seq<Batch>, outcome: Outcome)
    requires InLoop(s, inHand) && !s.erased && Enabled(s, WorkerStep(outcome))
    ensures var s' := WorkerNext(s, outcome);
      && InLoop(s', inHand) && !s'.erased && s'.overwritten == s.overwritten
      && s'.p == s.p && s'.future == s.future && |s'.futures| == |s.futures| && s'.provided == s.provided
      && (forall f | 0 <= f < |s.futures| && s.futures[f].done :: s'.futures[f].done)
  {
    if s.future.Some? { PendingKeeps(s, outcome); }
  }

  // With nothing being handed over the worker only loops, waits or ends.
  lemma RestingKeeps(s: State, outcome: Outcome)
    requires s.w in {Loop, Wait, Dead} && !s.go && Enabled(s, WorkerStep(outcome))
    ensures var s' := WorkerNext(s, outcome); s' == s.(w := s'.w) && s'.w in {Loop, Wait, Dead}
  {
  }

  lemma WorkerKeeps(s: State, outcome: Outcome)
    requires Inv(s) && Enabled(s, WorkerStep(outcome))
    ensures Inv(WorkerNext(s, outcome))
  {
    if Dirty(s) {
    } else if s.p.Top? || s.p.Provide? {
      InLoopKeeps(s, [], outcome);
    } else if s.p.Await? || s.p.ReadResult? {
      InLoopKeeps(s, InHand(s.p.batch), outcome);
    } else {
      EndKeeps(s, outcome);
    }
  }

  lemma EndKeeps(s: State, outcome: Outcome)
    requires Clean(s) && Enabled(s, WorkerStep(outcome))
    requires !s.p.Top? && !s.p.Provide? && !s.p.Await? && !s.p.ReadResult?
    ensures Clean(WorkerNext(s, outcome))
  {
    if s.p.Returned? && Handed(s, Work(None, None)) {
      HandedKeeps(s, Work(None, None), outcome);
    } else {
      RestingKeeps(s, outcome);
    }
  }

  // Handing over work that is a wish to end.
  lemma HandedKeeps(s: State, work: Work, outcome: Outcome)
    requires Handed(s, work) && Enabled(s, WorkerStep(outcome)) && work.batch.None?
    ensures var s' := WorkerNext(s, outcome);
      && Handed(s', work)
      && s' == s.(w := s'.w, slot := s'.slot, go := s'.go)
  {
  }

  // The worker's progress on the last batch: pulling it,
  lemma PullingKeeps(s: State, outcome: Outcome)
    requires 0 < |s.futures| <= |s.provided| && Pending(s) && !s.erased && Enabled(s, WorkerStep(outcome))
    requires s.w.Loop? || s.w.Wait? || s.w.ReadSlot? || s.w.ClearSlot? || s.w.ClearGo?
    ensures var s' := WorkerNext(s, outcome);
      Pending(s') && !s'.erased && s' == s.(w := s'.w, slot := s'.slot, go := s'.go)
  {
  }

  // and storing it.
  lemma StoringKeeps(s: State, outcome: Outcome)
    requires 0 < |s.futures| <= |s.provided| && Pending(s) && !s.erased && Enabled(s, WorkerStep(outcome))
    requires s.w.Pulled? || s.w.Scatter? || s.w.WriteResult? || s.w.SetDone?
    ensures var s' := WorkerNext(s, outcome);
      && |s'.futures| == |s.futures| && Pending(s')
      && s' == s.(w := s'.w, futures := s'.futures, consumed := s'.consumed)
      && (forall f | 0 <= f < |s.futures| && s.futures[f].done :: s'.futures[f].done)
  {
  }

  lemma PendingKeeps(s: State, outcome: Outcome)
    requires 0 < |s.futures| <= |s.provided| && Pending(s) && !s.erased && Enabled(s, WorkerStep(outcome))
    ensures var s' := WorkerNext(s, outcome);
      && |s'.futures| == |s.futures| && Pending(s') && !s'.erased
      && s' == s.(w := s'.w, slot := s'.slot, go := s'.go, futures := s'.futures, consumed := s'.consumed)
      && (forall f | 0 <= f < |s.futures| && s.futures[f].done :: s'.futures[f].done)
  {
    if s.w.Pulled? || s.w.Scatter? || s.w.WriteResult? || s.w.SetDone? {
      StoringKeeps(s, outcome);
    } else {
      PullingKeeps(s, outcome);
    }
  }

  lemma StopKeeps(s: State)
    requires Inv(s)
    ensures Inv(s.(stop := true))
  {
  }

  // The step between two consecutive states.
  lemma StepAt(states: seq<State>, steps: seq<Step>, i: nat)
    requires Run(states, steps) && i < |steps|
    ensures Enabled(states[i], steps[i]) && states[i + 1] == Next(states[i], steps[i])
  {
  }

  lemma {:induction false} RunInv(states: seq<State>, steps: seq<Step>, i: nat)
    requires Run(states, steps) && i < |states|
    ensures Inv(states[i])
  {
    if i > 0 {
      RunInv(states, steps, i - 1);
      var s, step := states[i - 1], steps[i - 1];
      assert states[i - 1 + 1] == Next(s, step);
      match step {
        case PumpStep(answer) => PumpKeeps(s, answer);
        case WorkerStep(outcome) => WorkerKeeps(s, outcome);
        case Stop => StopKeeps(s);
      }
    }
  }

  // ----------------------------------------------------------------------------------------
  // What every run gives

  /** When Pump.run has returned 0, the sink has stored each batch that the source provided, once and
      in order; no batch was lost from the slot, and no clear of go undid a later set. */
  lemma ExactlyOnceInOrder(states: seq<State>, steps: seq<Step>, i: nat)
    requires Run(states, steps) && i < |states| && states[i].p == Returned(0)
    ensures states[i].consumed == AllStored(states[i].provided)
    ensures !states[i].overwritten && !states[i].erased
  {
    RunInv(states, steps, i);
  }

  /** Until an end that cannot return 0, the sink has gone through a prefix of what was provided, at
      most one batch behind what was pushed, and only its last result can be an error. */
  lemma AlwaysAPrefix(states: seq<State>, steps: seq<Step>, i: nat)
    requires Run(states, steps) && i < |states| && !Dirty(states[i])
    ensures var s := states[i];
      && !s.overwritten && !s.erased
      && |s.futures| - 1 <= |s.consumed| <= |s.futures| <= |s.provided| <= |s.futures| + 1
      && (forall k | 0 <= k < |s.consumed| :: s.consumed[k].0 == s.provided[k])
      && (forall k | 0 <= k < |s.consumed| - 1 :: s.consumed[k].1 == 0)
  {
    RunInv(states, steps, i);
  }

  // ----------------------------------------------------------------------------------------
  // What ends with an error can lose

  /** The worker between the end of its wait and its clear of go. */
  predicate Pulling(w: WorkerPc) { w.ReadSlot? || w.ClearSlot? || w.ClearGo? }

  /** Until Pump.run has returned, go has not been set since the end of the worker's wait. */
  predicate SeenOk(s: State) {
    Pulling(s.w) ==> s.w.seen <= s.sets && (!s.p.Returned? ==> s.w.seen == s.sets)
  }

  lemma SeenKeeps(s: State, step: Step)
    requires Inv(s) && SeenOk(s) && Enabled(s, step)
    ensures SeenOk(Next(s, step))
  {
    match step
    case PumpStep(answer) => SeenKeptByPump(s, answer);
    case WorkerStep(_) =>
    case Stop =>
  }

  lemma SeenKeptByPump(s: State, answer: Provided)
    requires Inv(s) && SeenOk(s) && Enabled(s, PumpStep(answer))
    ensures SeenOk(PumpNext(s, answer))
  {
    if s.p.SetGo? { assert !Pulling(s.w); }
  }

  lemma {:induction false} RunSeen(states: seq<State>, steps: seq<Step>, i: nat)
    requires Run(states, steps) && i < |states|
    ensures SeenOk(states[i])
  {
    if i > 0 {
      RunSeen(states, steps, i - 1);
      RunInv(states, steps, i - 1);
      StepAt(states, steps, i - 1);
      SeenKeeps(states[i - 1], steps[i - 1]);
    }
  }

  /** The slot is overwritten exactly where the close of an end that cannot return 0 writes it while a
      batch is in it. */
  lemma OverwrittenIff(states: seq<State>, steps: seq<Step>, i: nat)
    requires Run(states, steps) && i < |steps| && !states[i].overwritten
    ensures states[i + 1].overwritten <==> steps[i].PumpStep? && states[i].p.CloseWrite? && states[i].slot.Some?
    ensures states[i + 1].overwritten ==> Dirty(states[i])
  {
    RunInv(states, steps, i);
    assert states[i + 1] == Next(states[i], steps[i]);
  }

  /** A clear of go undoes a later set exactly where the worker clears it after a set that its wait did
      not see; that set is the last one of an end with an error. */
  lemma ErasedIff(states: seq<State>, steps: seq<Step>, i: nat)
    requires Run(states, steps) && i < |steps| && !states[i].erased
    ensures states[i + 1].erased <==>
      steps[i].WorkerStep? && states[i].w.ClearGo? && states[i].w.seen < states[i].sets
    ensures states[i + 1].erased ==> states[i].p.Returned? && Dirty(states[i])
  {
    RunInv(states, steps, i);
    RunSeen(states, steps, i);
    assert states[i + 1] == Next(states[i], steps[i]);
  }

  /** Some run leads to the state. */
  ghost predicate Reachable(s: State) { exists states, steps :: Run(states, steps) && states[|steps|] == s }

  lemma ReachInit(s: State)
    requires Init(s)
    ensures Reachable(s)
  {
    var steps: seq<Step> := [];
    assert Run([s], steps) && [s][|steps|] == s;
  }

  lemma ReachNext(s: State, step: Step) returns (s': State)
    requires Reachable(s) && Enabled(s, step)
    ensures s' == Next(s, step) && Reachable(s')
  {
    s' := Next(s, step);
    var states, steps :| Run(states, steps) && states[|steps|] == s;
    var states', steps' := states + [s'], steps + [step];
    forall i | 0 <= i < |steps'|
      ensures Enabled(states'[i], steps'[i]) && states'[i + 1] == Next(states'[i], steps'[i])
    {
      if i < |steps| { assert Enabled(states[i], steps[i]) && states[i + 1] == Next(states[i], steps[i]); }
    }
    assert Run(states', steps') && states'[|steps'|] == s';
  }

  // The first batch is pushed before the worker has taken a step.
  lemma ReachPushed(b: Batch) returns (s: State)
    ensures Reachable(s) && s.p == Provide && s.w == Loop && s.slot == Some(Work(Some(b), Some(0)))
    ensures s.totSource == 1 && s.totSink == 0 && s.future == Some(0) && s.futures == [Future(None, false)]
    ensures s.provided == [b] && s.consumed == []
  {
    s := State(Top, None, Loop, None, false, [], false, 0, 0, [], [], 0, false, false);
    ReachInit(s);
    s := ReachNext(s, PumpStep(NoBatch));
    s := ReachNext(s, PumpStep(Given(b)));
    s := ReachNext(s, PumpStep(NoBatch));
    s := ReachNext(s, PumpStep(NoBatch));
    s := ReachNext(s, PumpStep(NoBatch));
    s := ReachNext(s, PumpStep(NoBatch));
    s := ReachNext(s, PumpStep(NoBatch));
  }

  /** Whatever the batch and the error, some run overwrites the batch in the slot and returns the error:
      the source fails before the worker has pulled. */
  lemma ErrorExitOverwrites(b: Batch, error: int) returns (s: State)
    requires error != 0
    ensures Reachable(s) && s.overwritten && s.slot == Some(Work(None, None)) && s.consumed == []
    ensures s.provided == [b] && s.p == Returned(error)
  {
    s := ReachPushed(b);
    s := ReachNext(s, PumpStep(Failed(error)));
    s := ReachNext(s, PumpStep(NoBatch));
    s := ReachNext(s, PumpStep(NoBatch));
    s := ReachNext(s, PumpStep(NoBatch));
  }

  // ----------------------------------------------------------------------------------------
  // When Pump.run waits for ever

  /** Pump.run awaits a future that a dead worker has not completed. */
  predicate Stuck(s: State) {
    s.p.Await? && s.future.Some? && s.future.value < |s.futures| && !s.futures[s.future.value].done && s.w == Dead
  }

  lemma {:induction false} StuckForEver(states: seq<State>, steps: seq<Step>, i: nat, j: nat)
    requires Run(states, steps) && i <= j < |states| && Stuck(states[i])
    ensures Stuck(states[j])
    decreases j
  {
    if i < j {
      StuckForEver(states, steps, i, j - 1);
      assert Enabled(states[j - 1], steps[j - 1]) && states[j - 1 + 1] == Next(states[j - 1], steps[j - 1]);
    }
  }

  /** While Pump.run awaits a batch, it or the worker can move unless it is stuck: a live worker is never
      asleep on a go that nobody will set. */
  lemma WaitingMoves(states: seq<State>, steps: seq<Step>, i: nat)
    requires Run(states, steps) && i < |states| && states[i].p.Await?
    ensures (exists step: Step :: !step.Stop? && Enabled(states[i], step)) <==> !Stuck(states[i])
  {
    RunInv(states, steps, i);
    var s := states[i];
    if s.future.None? || s.futures[s.future.value].done {
      assert Enabled(s, PumpStep(NoBatch));
    } else if s.w != Dead {
      assert Enabled(s, WorkerStep(Stored));
    }
  }

  /** The worker's ends without a word to its future: the stop flag and an exception. */
  predicate EndsEarly(s: State, step: Step) {
    step.WorkerStep? && ((s.w.Loop? && s.stop) || (s.w.Scatter? && step.outcome == Crash))
  }

  /** Before an end with an error, a live worker ends exactly where it sees the stop flag, an exception
      ends it, it reports an error, or it is told to end. */
  lemma WorkerEnds(states: seq<State>, steps: seq<Step>, i: nat)
    requires Run(states, steps) && i < |steps| && !Dirty(states[i]) && states[i].w != Dead
    ensures var s := states[i];
      states[i + 1].w == Dead <==>
        || EndsEarly(s, steps[i])
        || (steps[i].WorkerStep? && s.w.SetDone? && s.w.rv != 0)
        || (steps[i].WorkerStep? && s.w.Pulled? && s.w.work.batch == None)
  {
    RunInv(states, steps, i);
    assert Enabled(states[i], steps[i]) && states[i + 1] == Next(states[i], steps[i]);
  }

  predicate Closing(p: PumpPc) { p.CloseCheck? || p.CloseWrite? || p.CloseSet? || p.Returned? }

  /** The last thing the sink did was to report an error for the last batch pushed. */
  predicate Reported(s: State) {
    |s.consumed| == |s.futures| > 0 && s.consumed[|s.consumed| - 1].1 != 0
  }

  lemma ReportedKeeps(s: State, step: Step)
    requires Inv(s) && Enabled(s, step) && s.w == Dead && Reported(s) && !Closing(s.p) && !Closing(Next(s, step).p)
    ensures Reported(Next(s, step))
  {
    if s.p.WriteSlot? { assert false; }
  }

  lemma LiveDies(s: State, step: Step)
    requires Inv(s) && Enabled(s, step) && s.w != Dead && !Closing(s.p) && Next(s, step).w == Dead
    ensures EndsEarly(s, step) || Reported(Next(s, step))
  {
  }

  lemma NotClosingBefore(s: State, step: Step)
    requires Enabled(s, step) && !Closing(Next(s, step).p)
    ensures !Closing(s.p)
  {
  }

  // A worker that is dead while Pump.run goes on has ended early or has reported an error.
  lemma {:induction false} DeadSince(states: seq<State>, steps: seq<Step>, i: nat)
    requires Run(states, steps) && i < |states| && states[i].w == Dead && !Closing(states[i].p)
    ensures Reported(states[i]) || exists k | 0 <= k < i :: EndsEarly(states[k], steps[k])
  {
    if i > 0 {
      var s, step := states[i - 1], steps[i - 1];
      RunInv(states, steps, i - 1);
      assert states[i - 1 + 1] == Next(s, step);
      NotClosingBefore(s, step);
      if s.w != Dead {
        LiveDies(s, step);
      } else {
        DeadSince(states, steps, i - 1);
        if Reported(s) { ReportedKeeps(s, step); }
      }
    }
  }

  lemma DeadKept(s: State, step: Step)
    requires s.w == Dead && Enabled(s, step)
    ensures Next(s, step).w == Dead
  {
  }

  lemma DeadNext(states: seq<State>, steps: seq<Step>, i: nat)
    requires Run(states, steps) && i < |steps| && states[i].w == Dead
    ensures states[i + 1].w == Dead
  {
    StepAt(states, steps, i);
    DeadKept(states[i], steps[i]);
  }

  lemma {:induction false} DeadStays(states: seq<State>, steps: seq<Step>, i: nat, j: nat)
    requires Run(states, steps) && i <= j < |states| && states[i].w == Dead
    ensures states[j].w == Dead
    decreases j
  {
    if i < j {
      DeadStays(states, steps, i, j - 1);
      DeadNext(states, steps, j - 1);
    }
  }

  /** Pump.run waits for ever on a future that is not done if and only if the worker has seen the stop
      flag or was ended by an exception. */
  lemma StuckIff(states: seq<State>, steps: seq<Step>, i: nat)
    requires Run(states, steps) && i < |states| && states[i].p.Await?
    ensures var s := states[i];
      Stuck(s) <==>
        && s.future.Some? && s.future.value < |s.futures| && !s.futures[s.future.value].done
        && exists k | 0 <= k < i :: EndsEarly(states[k], steps[k])
  {
    var s := states[i];
    RunInv(states, steps, i);
    if Stuck(s) {
      DeadSince(states, steps, i);
    } else if k :| 0 <= k < i && EndsEarly(states[k], steps[k]) {
      assert states[k + 1] == Next(states[k], steps[k]);
      DeadStays(states, steps, k + 1, i);
    }
  }

  /** Whatever the first batch, some run is stuck: the stop flag is set while the batch is in the slot. */
  lemma StopStrands(b: Batch) returns (s: State)
    ensures Reachable(s) && Stuck(s) && s.provided == [b] && s.consumed == []
  {
    s := ReachPushed(b);
    s := ReachNext(s, Stop);
    s := ReachNext(s, WorkerStep(Stored));
    s := ReachNext(s, PumpStep(NoBatch));
  }

  // ----------------------------------------------------------------------------------------
  // Every transfer can succeed

  /** The batches are all stored; the last one has not been awaited, and the source is asked for more. */
  ghost function StoredState(batches: seq<Batch>): State {
    var n := |batches|;
    State(Provide, if n == 0 then None else Some(n - 1), Loop, None, false,
          seq(n, _ => Future(Some(0), true)), false, n, if n == 0 then 0 else n - 1,
          batches, AllStored(batches), n, false, false)
  }

  /** One more batch has been pushed, and the source is asked for more. */
  ghost function PushedState(batches: seq<Batch>, b: Batch): State {
    var n, s := |batches|, StoredState(batches);
    s.(future := Some(n), slot := Some(Work(Some(b), Some(n))), go := true,
       futures := s.futures + [Future(None, false)], totSource := n + 1, totSink := n,
       provided := batches + [b], sets := n + 1)
  }

  /** The source has given a batch, and the one before it has been awaited. */
  ghost function GivenState(batches: seq<Batch>, b: Batch): State {
    var n := |batches|;
    StoredState(batches).(p := CheckAlive(b), totSource := n + 1, totSink := n, provided := batches + [b])
  }

  lemma GiveMore(batches: seq<Batch>, b: Batch)
    requires Reachable(StoredState(batches))
    ensures Reachable(GivenState(batches, b))
  {
    var s := StoredState(batches);
    s := ReachNext(s, PumpStep(Given(b)));
    s := ReachNext(s, PumpStep(NoBatch));
    if batches != [] { s := ReachNext(s, PumpStep(NoBatch)); }
    assert s == GivenState(batches, b);
  }

  lemma PushMore(batches: seq<Batch>, b: Batch)
    requires Reachable(GivenState(batches, b))
    ensures Reachable(PushedState(batches, b).(p := Top)) && Reachable(PushedState(batches, b))
  {
    var s := GivenState(batches, b);
    s := ReachNext(s, PumpStep(NoBatch));
    s := ReachNext(s, PumpStep(NoBatch));
    s := ReachNext(s, PumpStep(NoBatch));
    assert s == PushedState(batches, b).(p := Top);
    s := ReachNext(s, PumpStep(NoBatch));
  }

  // The worker pulls the work,
  lemma PullWork(s: State, work: Work)
    requires Reachable(s) && s.w == Loop && !s.stop && s.slot == Some(work) && s.go && !s.erased
    ensures Reachable(s.(w := Pulled(work), slot := None, go := false))
  {
    var s' := ReachNext(s, WorkerStep(Stored));
    s' := ReachNext(s', WorkerStep(Stored));
    s' := ReachNext(s', WorkerStep(Stored));
    s' := ReachNext(s', WorkerStep(Stored));
    s' := ReachNext(s', WorkerStep(Stored));
  }

  // and stores the batch.
  lemma StoreWork(s: State, b: Batch, f: nat)
    requires Reachable(s) && s.w == Pulled(Work(Some(b), Some(f))) && f < |s.futures|
    ensures Reachable(
      s.(w := Loop, consumed := s.consumed + [(b, 0)], futures := s.futures[f := Future(Some(0), true)]))
  {
    var s' := ReachNext(s, WorkerStep(Stored));
    s' := ReachNext(s', WorkerStep(Stored));
    s' := ReachNext(s', WorkerStep(Stored));
    s' := ReachNext(s', WorkerStep(Stored));
    assert s'.futures == s.futures[f := Future(Some(0), true)];
  }

  lemma StoreMore(batches: seq<Batch>, b: Batch, p: PumpPc)
    requires Reachable(PushedState(batches, b).(p := p))
    ensures Reachable(StoredState(batches + [b]).(p := p))
  {
    var s, n := PushedState(batches, b).(p := p), |batches|;
    PullWork(s, Work(Some(b), Some(n)));
    StoreWork(s.(w := Pulled(s.slot.value), slot := None, go := false), b, n);
    assert AllStored(batches + [b]) == AllStored(batches) + [(b, 0)];
    assert s.futures[n := Future(Some(0), true)] == StoredState(batches + [b]).futures;
  }

  lemma {:induction false} AllCanBeStored(batches: seq<Batch>)
    ensures Reachable(StoredState(batches))
    decreases |batches|
  {
    if batches == [] {
      var s := State(Top, None, Loop, None, false, [], false, 0, 0, [], [], 0, false, false);
      ReachInit(s);
      s := ReachNext(s, PumpStep(NoBatch));
      assert s == StoredState([]);
    } else {
      var front, b := batches[..|batches| - 1], batches[|batches| - 1];
      assert batches == front + [b];
      AllCanBeStored(front);
      GiveMore(front, b);
      PushMore(front, b);
      StoreMore(front, b, Provide);
    }
  }

  /** Whatever the batches, some run stores them all and returns 0. */
  lemma TransferSucceeds(batches: seq<Batch>) returns (s: State)
    ensures Reachable(s) && s.p == Returned(0)
    ensures s.provided == batches && s.consumed == AllStored(batches)
  {
    AllCanBeStored(batches);
    var n := |batches|;
    s := StoredState(batches);
    s := ReachNext(s, PumpStep(NoBatch));
    s := ReachNext(s, PumpStep(NoBatch));
    if n > 0 { s := ReachNext(s, PumpStep(NoBatch)); }
    assert s == StoredState(batches).(p := CloseCheck(0), totSink := n);
    s := ReachClosed(s, 0);
  }

  // Closing with a live worker.
  lemma ReachClosed(s: State, rv: int) returns (s': State)
    requires Reachable(s) && s.p == CloseCheck(rv) && s.w != Dead
    ensures Reachable(s') && s'.p == Returned(FinalResult(s, rv))
    ensures s'.provided == s.provided && s'.consumed == s.consumed
  {
    s' := ReachNext(s, PumpStep(NoBatch));
    s' := ReachNext(s', PumpStep(NoBatch));
    s' := ReachNext(s', PumpStep(NoBatch));
  }

  /** Whatever the first batch, some run stores it and yet returns an error for missing messages: the stop
      flag is seen before the batch has been awaited. */
  lemma StopReportsMissing(b: Batch) returns (s: State)
    ensures Reachable(s) && s.p == Returned(-1) && s.provided == [b] && s.consumed == AllStored([b])
  {
    AllCanBeStored([]);
    GiveMore([], b);
    PushMore([], b);
    StoreMore([], b, Top);
    assert [] + [b] == [b];
    s := StoredState([b]).(p := Top);
    s := ReachNext(s, Stop);
    s := ReachNext(s, PumpStep(NoBatch));
    s := ReachClosed(s, 0);
  }

  // ----------------------------------------------------------------------------------------
  // What the result says

  /** The step ends Pump.run's loop, and Pump.run will return `rv`: an error of the source, one that the
      sink has reported for the last batch, a worker found dead before a push, the stop flag seen with
      a batch pushed, which the totals then miss; or 0, for the stop flag seen before any push and for
      the end of the source after the last batch has been awaited. */
  ghost predicate Leaves(s: State, step: Step, rv: int) {
    && step.PumpStep?
    && match s.p
       case Provide => step.answer == Failed(rv)
       case ReadResult(batch) =>
         || (rv != 0 && 0 < |s.consumed| <= |s.provided|
             && s.consumed[|s.consumed| - 1] == (s.provided[|s.consumed| - 1], rv))
         || (rv == 0 && batch == None && s.consumed == AllStored(s.provided))
       case CheckAlive(_) => s.w == Dead && rv == -1
       case Top => s.stop && rv == if s.provided == [] then 0 else -1
       case Await(batch) => s.provided == [] && batch == None && rv == 0
       case _ => false
  }

  /** What Pump.run is going to return, once it has left its loop. */
  function WillReturn(s: State): Option<int> {
    match s.p
    case CloseCheck(rv) => Some(FinalResult(s, rv))
    case CloseWrite(rv) => Some(FinalResult(s, rv))
    case CloseSet(rv) => Some(FinalResult(s, rv))
    case Returned(rv) => Some(rv)
    case _ => None
  }

  lemma LeavesStep(s: State, step: Step, rv: int)
    requires Inv(s) && Enabled(s, step) && WillReturn(s) == None
    ensures WillReturn(Next(s, step)) == Some(rv) <==> Leaves(s, step, rv)
  {
    if step.PumpStep? { LeavesPump(s, step.answer, rv); }
  }

  lemma LeavesPump(s: State, answer: Provided, rv: int)
    requires Inv(s) && Enabled(s, PumpStep(answer)) && WillReturn(s) == None
    ensures WillReturn(PumpNext(s, answer)) == Some(rv) <==> Leaves(s, PumpStep(answer), rv)
  {
    if s.p.ReadResult? { LeavesRead(s, answer, rv); }
  }

  lemma LeavesRead(s: State, answer: Provided, rv: int)
    requires Inv(s) && Enabled(s, PumpStep(answer)) && s.p.ReadResult?
    ensures WillReturn(PumpNext(s, answer)) == Some(rv) <==> Leaves(s, PumpStep(answer), rv)
  {
  }

  lemma ReturnKept(s: State, step: Step, rv: int)
    requires Enabled(s, step) && WillReturn(s).Some?
    ensures WillReturn(Next(s, step)) == WillReturn(s) && !Leaves(s, step, rv)
  {
  }

  /** One of the first `i` steps has left the loop for `rv`. */
  ghost predicate LeftFor(states: seq<State>, steps: seq<Step>, i: nat, rv: int)
    requires i <= |steps| < |states|
  { exists k | 0 <= k < i :: Leaves(states[k], steps[k], rv) }

  lemma LeftMore(states: seq<State>, steps: seq<Step>, i: nat, rv: int)
    requires i < |steps| < |states|
    ensures LeftFor(states, steps, i + 1, rv) <==> LeftFor(states, steps, i, rv) || Leaves(states[i], steps[i], rv)
  {
  }

  lemma ResultStep(s: State, step: Step, rv: int)
    requires Inv(s) && Enabled(s, step)
    ensures WillReturn(Next(s, step)) == Some(rv) <==> WillReturn(s) == Some(rv) || Leaves(s, step, rv)
  {
    if WillReturn(s).Some? { ReturnKept(s, step, rv); } else { LeavesStep(s, step, rv); }
  }

  /** Pump.run returns `rv` exactly when some step has left the loop for it. */
  lemma {:induction false} ResultIs(states: seq<State>, steps: seq<Step>, i: nat, rv: int)
    requires Run(states, steps) && i < |states|
    ensures WillReturn(states[i]) == Some(rv) <==> exists k | 0 <= k < i :: Leaves(states[k], steps[k], rv)
    ensures states[i].p == Returned(rv) ==> exists k | 0 <= k < i :: Leaves(states[k], steps[k], rv)
  {
    if i > 0 {
      ResultIs(states, steps, i - 1, rv);
      RunInv(states, steps, i - 1);
      StepAt(states, steps, i - 1);
      ResultStep(states[i - 1], steps[i - 1], rv);
      LeftMore(states, steps, i - 1, rv);
    }
    assert LeftFor(states, steps, i, rv) <==> WillReturn(states[i]) == Some(rv);
  }

  // ----------------------------------------------------------------------------------------
  // What else can be returned

  /** Whatever the first batch and the error, some run returns the error that the sink reports for it. */
  lemma SinkErrorReturned(b: Batch, rv: int) returns (s: State)
    requires rv != 0
    ensures Reachable(s) && s.p == Returned(rv) && s.provided == [b] && s.consumed == [(b, rv)] && s.w == Dead
  {
    s := ReachReported(b, rv);
    s := ReachNext(s, PumpStep(NoBatch));
    s := ReachNext(s, PumpStep(NoBatch));
    s := ReachNext(s, PumpStep(NoBatch));
    s := ReachNext(s, PumpStep(NoBatch));
  }

  lemma ReachReported(b: Batch, rv: int) returns (s: State)
    requires rv != 0
    ensures Reachable(s) && s.p == Provide && s.w == Dead && s.provided == [b] && s.consumed == [(b, rv)]
    ensures s.future == Some(0) && s.futures == [Future(Some(rv), true)]
  {
    s := ReachPulled(b);
    s := ReachNext(s, WorkerStep(Retry));
    s := ReachNext(s, WorkerStep(Error(rv)));
    s := ReachNext(s, WorkerStep(Stored));
    s := ReachNext(s, WorkerStep(Stored));
  }

  lemma ReachPulled(b: Batch) returns (s: State)
    ensures Reachable(s) && s.p == Provide && s.w == Scatter(b, 0) && s.provided == [b] && s.consumed == []
    ensures s.future == Some(0) && s.futures == [Future(None, false)]
  {
    AllCanBeStored([]);
    GiveMore([], b);
    PushMore([], b);
    var t := PushedState([], b);
    PullWork(t, Work(Some(b), Some(0)));
    s := t.(w := Pulled(t.slot.value), slot := None, go := false);
    s := ReachNext(s, WorkerStep(Stored));
  }

  /** Nothing is pushed to a worker that Pump.run finds dead: the batch in hand stays where it is, and the
      close leaves the slot and go alone. */
  lemma DeadGetsNothing(states: seq<State>, steps: seq<Step>, i: nat)
    requires Run(states, steps) && i < |steps| && steps[i].PumpStep? && states[i].w == Dead
    requires states[i].p.CheckAlive? || states[i].p.CloseCheck?
    ensures var s, s' := states[i], states[i + 1];
      && s' == s.(p := s'.p)
      && s'.p == if s.p.CheckAlive? then CloseCheck(-1) else Returned(FinalResult(s, s.p.rv))
  {
    StepAt(states, steps, i);
  }
}
