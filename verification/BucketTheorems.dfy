/**
 What the bucket lifecycle protocol guarantees in every state of every run: any interleaving of
 any number of worker threads, connections and buckets, with bucket deletions and the global
 shutdown racing each other.
 */
module BucketTheorems {
  import opened Prelude
  import opened Sums
  import opened BucketModel
  import opened BucketLocal
  import opened BucketHandle
  import opened BucketInv

  // ----------------------------------------------------------------------------------------
  // Clients inside an engine

  /** Thread `t` has `h` from get_engine_handle or try_get_engine_handle (or is the winning
      DELETE) and has not yet decremented `clients`. */
  predicate Holding(s: State, t: Tid, h: Hid) { t in s.th && PhaseOf(s.th[t], h).Live? }

  // A thread inside an engine keeps it from being stopped, destroyed and freed.
  lemma HeldIsAlive(r: seq<State>, i: nat, t: Tid, h: Hid)
    requires Run(r) && i < |r| && Holding(r[i], t, h)
    ensures h in r[i].m.hs
    ensures var b := r[i].m.hs[h]; (b.state == RUNNING || b.state == STOPPING) && b.destroyed == 0 && !b.freed
  {
    RunInv(r, i);
    assert ThreadOk(r[i].m, t, r[i].th[t]);
    assert HandleOk(r[i], h);
    HeldInState(r[i], t, h);
  }

  lemma HeldInState(s: State, t: Tid, h: Hid)
    requires h in s.m.hs && Holding(s, t, h) && BucketOk(s.m, h) && ClientOk(s, h) && (s.m.closing ==> NoClients(s))
    ensures var b := s.m.hs[h];
      (b.state == RUNNING || b.state == STOPPING) && b.destroyed == 0 && !b.freed
  {
  }

  // A STOPPING bucket has a client inside, or a thread on its way to the compare-and-swap.
  lemma NoLostShutdown(r: seq<State>, i: nat, h: Hid) returns (t: Tid)
    requires Run(r) && i < |r| && h in r[i].m.hs && r[i].m.hs[h].state == STOPPING
    ensures t in r[i].th
    ensures r[i].m.hs[h].clients > 0 || OnTheWay(PhaseOf(r[i].th[t], h))
    ensures !PhaseOf(r[i].th[t], h).Away?
  {
    RunInv(r, i);
    assert HandleOk(r[i], h);
    t := StoppingInState(r[i], h);
  }

  lemma StoppingInState(s: State, h: Hid) returns (t: Tid)
    requires h in s.m.hs && ClientOk(s, h) && s.m.hs[h].state == STOPPING
    ensures t in s.th && !PhaseOf(s.th[t], h).Away?
    ensures s.m.hs[h].clients > 0 || OnTheWay(PhaseOf(s.th[t], h))
  {
    if s.m.hs[h].clients > 0 {
      t := SumWitness(s.th, InsideW(h));
    } else {
      t :| t in s.th && OnTheWay(PhaseOf(s.th[t], h));
    }
  }

  // When no operation is in flight, no bucket is left STOPPING.
  lemma QuiescentNotStopping(r: seq<State>, i: nat, h: Hid)
    requires Run(r) && i < |r| && h in r[i].m.hs && NoClients(r[i])
    ensures r[i].m.hs[h].state != STOPPING
  {
    if r[i].m.hs[h].state == STOPPING {
      var t := NoLostShutdown(r, i, h);
      assert false;
    }
  }

  // ----------------------------------------------------------------------------------------
  // References

  // The reference count is exactly the number of references, at every step.
  lemma RefcountIsExact(r: seq<State>, i: nat, h: Hid)
    requires Run(r) && i < |r| && h in r[i].m.hs
    ensures r[i].m.hs[h].refcount
         == One(h in r[i].m.table) + One(r[i].m.cfg.dflt == Some(h))
            + Sum(r[i].m.es, ConnW(h)) + Sum(r[i].th, ThreadW(h))
    ensures r[i].m.hs[h].clients == Sum(r[i].th, InsideW(h))
  {
    RunInv(r, i);
    assert HandleOk(r[i], h);
  }

  /** The next step of the thread reads or writes a field of `h`. */
  predicate Dereferences(th: Thread, h: Hid) {
    match th
    case Find(_, fp) => !fp.Lookup? && !fp.Link? && fp.h == h
    case SetHandle(_, found, sp) => (sp.TestRunning? || sp.RetainNew?) && found == Some(h)
    case Rel(_, found, rp) => (rp.Prev? && rp.prev == Some(h)) || (rp.Last? && found == Some(h))
    case Pair(_, g, pp) => g == h
    case Rc(_, g) => g == h
    case Sd(g, dp) => g == h && !dp.Uncount? && !dp.Dead? && !dp.Skipped?
    case _ => false
  }

  lemma DereferencedIsReferenced(s: State, t: Tid, h: Hid)
    requires Inv(s) && t in s.th && Dereferences(s.th[t], h) && !s.th[t].Sd?
    ensures RootRefs(s.m, h) > 0 || Sum(s.m.es, ConnW(h)) > 0 || Sum(s.th, ThreadW(h)) > 0
  {
    var th := s.th[t];
    assert ThreadOk(s.m, t, th) && StageOk(s.m, t, th);
    SumDrop(s.th, t, ThreadW(h));
    if th.Pair? || th.Rc? {
      SumDrop(s.m.es, th.op.c, ConnW(h));
      if th.op.c in s.m.es { assert ConnOk(s.m, th.op.c); }
    }
  }

  // Outside the global shutdown, no thread touches a handle that has been freed.
  lemma NoUseAfterFree(r: seq<State>, i: nat, t: Tid, h: Hid)
    requires Run(r) && i < |r| && t in r[i].th && Dereferences(r[i].th[t], h) && !r[i].m.inProgress
    ensures h in r[i].m.hs && !r[i].m.hs[h].freed
  {
    RunInv(r, i);
    assert ThreadOk(r[i].m, t, r[i].th[t]) && StageOk(r[i].m, t, r[i].th[t]);
    assert HandleOk(r[i], h);
    if !r[i].th[t].Sd? { DereferencedIsReferenced(r[i], t, h); }
  }

  // Once a bucket is unlinked and its count is zero, it stays so.
  lemma {:induction false} ZeroIsAbsorbing(r: seq<State>, i: nat, j: nat, h: Hid)
    requires Run(r) && i <= j < |r| && h in r[i].m.hs
    requires h !in r[i].m.table && r[i].m.cfg.dflt != Some(h) && r[i].m.hs[h].refcount == 0
    ensures h in r[j].m.hs && h !in r[j].m.table && r[j].m.cfg.dflt != Some(h) && r[j].m.hs[h].refcount == 0
    decreases j
  {
    if i < j {
      ZeroIsAbsorbing(r, i, j - 1, h);
      NextKeepsGone(r, j - 1, h);
    }
  }

  lemma NextKeepsGone(r: seq<State>, i: nat, h: Hid)
    requires Run(r) && i + 1 < |r| && Gone(r[i].m, h)
    ensures Gone(r[i + 1].m, h)
  {
    RunInv(r, i);
    var t, ch := StepAt(r, i);
    FactsOf(r[i], t, ch);
    GoneKept(r[i], t, ch, h);
  }

  // The step between two consecutive states.
  lemma StepAt(r: seq<State>, i: nat) returns (t: Tid, ch: Choice)
    requires Run(r) && i + 1 < |r|
    ensures Enabled(r[i], t, ch) && Defined(r[i].m, r[i].th[t]) && r[i + 1] == Step(r[i], t, ch)
  {
    assert StepsAt(r, i);
    t, ch :| Enabled(r[i], t, ch) && Defined(r[i].m, r[i].th[t]) && r[i + 1] == Step(r[i], t, ch);
  }

  // No connection is ever disconnected but kept for its reservations: the state that the comment
  // on `refcount` reserves for such connections is never reached.
  lemma ConnectedUntilReleased(r: seq<State>, i: nat, c: Cookie)
    requires Run(r) && i < |r| && c in r[i].m.es
    ensures r[i].m.es[c].connected
    ensures r[i].m.es[c].resv > 0 ==> r[i].m.es[c].peh.Some?
    ensures r[i].m.es[c].peh.Some? && !r[i].m.inProgress ==>
              r[i].m.es[c].peh.value in r[i].m.hs && !r[i].m.hs[r[i].m.es[c].peh.value].freed
  {
    RunInv(r, i);
    assert ConnOk(r[i].m, c);
    if r[i].m.es[c].peh.Some? {
      var h := r[i].m.es[c].peh.value;
      assert HandleOk(r[i], h);
      SumDrop(r[i].m.es, c, ConnW(h));
    }
  }

  // ----------------------------------------------------------------------------------------
  // The shutdown thread and the condition variables

  // A sleeping shutdown thread has something to wait for, and somebody will wake it: global
  // shutdown has not begun, and either a reference is left or a thread that dropped the last one
  // has yet to broadcast.  A sleeping bucket_destroy waits for a counted shutdown thread.
  lemma NoLostWakeup(r: seq<State>, i: nat, t: Tid)
    requires Run(r) && i < |r|
    ensures t in r[i].m.refWait ==>
      && t in r[i].th && r[i].th[t].Sd? && r[i].th[t].h in r[i].m.hs && !r[i].m.inProgress
      && (r[i].m.hs[r[i].th[t].h].refcount > 0 || exists u :: u in r[i].th && DropsZero(r[i].th[u], r[i].th[t].h))
    ensures t in r[i].m.dstWait ==>
      r[i].m.counter > 0 && exists u :: u in r[i].th && Counted(r[i].th[u])
  {
    RunInv(r, i);
    if t in r[i].th { assert WaitOk(r[i], t); }
    if t in r[i].m.dstWait {
      var u := SumWitness(r[i].th, CountedW());
    }
  }

  // bucket_destroy, once past its wait: no counted shutdown thread runs, now or later.
  lemma GlobalBarrier(r: seq<State>, i: nat, j: nat, g: Tid)
    requires Run(r) && i <= j < |r| && PastWait(r[i], g)
    ensures PastWait(r[j], g) && r[j].m.inProgress && r[j].m.counter == 0
    ensures forall u | u in r[j].th :: !Counted(r[j].th[u])
  {
    PastWaitStays(r, i, j, g);
    RunInv(r, j);
    assert GdOk(r[j].m, r[j].th[g].gp);
    forall u | u in r[j].th ensures !Counted(r[j].th[u]) {
      if Counted(r[j].th[u]) { CountedPositive(r[j], u); }
    }
  }

  /** bucket_destroy is past its wait. */
  predicate PastWait(s: State, g: Tid) {
    g in s.th && s.th[g].Gd? && (s.th[g].gp.GWalk? || s.th[g].gp.GFree? || s.th[g].gp.GDone?)
  }

  lemma {:induction false} PastWaitStays(r: seq<State>, i: nat, j: nat, g: Tid)
    requires Run(r) && i <= j < |r| && PastWait(r[i], g)
    ensures PastWait(r[j], g)
    decreases j
  {
    if i < j {
      PastWaitStays(r, i, j - 1, g);
      var t, ch := StepAt(r, j - 1);
    }
  }

  // The engine of a bucket is destroyed at most once, whoever does it; when bucket_destroy has
  // finished, every bucket's engine has been destroyed exactly once.
  lemma DestroyedOnce(r: seq<State>, i: nat, h: Hid)
    requires Run(r) && i < |r| && h in r[i].m.hs
    ensures r[i].m.hs[h].destroyed <= 1
    ensures r[i].m.cfg.dflt != Some(h) ==>
      (r[i].m.hs[h].destroyed == 0 <==> h in r[i].m.table && !r[i].m.closing && r[i].m.hs[h].pe)
    ensures (exists g :: g in r[i].th && r[i].th[g] == Gd(GDone)) && r[i].m.cfg.dflt != Some(h) ==>
      r[i].m.hs[h].destroyed == 1
  {
    RunInv(r, i);
    assert HandleOk(r[i], h);
    if g :| g in r[i].th && r[i].th[g] == Gd(GDone) { assert GdOk(r[i].m, r[i].th[g].gp); }
  }

  // ----------------------------------------------------------------------------------------
  // DELETE

  lemma RecordOf(r: seq<State>, i: nat, h: Hid)
    requires Run(r) && i < |r| && h in r[i].m.hs
    ensures BucketOk(r[i].m, h) && ClientOk(r[i], h) && KillerOk(r[i], h)
    ensures var k := r[i].m.hs[h].killer; k.Some? ==> StageOk(r[i].m, k.value, r[i].th[k.value])
  {
    RunInv(r, i);
    assert HandleOk(r[i], h);
    var k := r[i].m.hs[h].killer;
    if k.Some? { assert StageOk(r[i].m, k.value, r[i].th[k.value]); }
  }

  lemma SpawnedOnce(s: State, h: Hid)
    requires h in s.m.hs && BucketOk(s.m, h) && ClientOk(s, h) && KillerOk(s, h)
    requires s.m.hs[h].killer.Some? ==> StageOk(s.m, s.m.hs[h].killer.value, s.th[s.m.hs[h].killer.value])
    ensures s.m.hs[h].spawns <= 1 && s.m.hs[h].notified <= 1
    ensures s.m.hs[h].notified == 1 ==> h !in s.m.table
    ensures s.m.hs[h].killer.Some? ==> Recorded(s.m.hs[h])
  {
  }

  // At most one DELETE wins and at most one shutdown thread is started per bucket; from STOPPED
  // on, the winner's cookie and force flag are recorded; the winner is notified at most once and
  // only after the name is unlinked.
  lemma DeleteCompletion(r: seq<State>, i: nat, h: Hid)
    requires Run(r) && i < |r| && h in r[i].m.hs
    ensures var b := r[i].m.hs[h];
      && b.wins <= 1 && b.spawns <= 1 && b.notified <= 1
      && (b.wins == 0 <==> b.winner.None?)
      && (b.state == STOPPED || b.spawns == 1 ==>
            b.winner.Some? && b.cookie == Some(b.winner.value.cookie) && b.force == b.winner.value.force)
      && (b.notified == 1 ==> h !in r[i].m.table && b.destroyed == 1)
  {
    RecordOf(r, i, h);
    SpawnedOnce(r[i], h);
  }

  // The table never holds two handles of one name, so the shutdown thread's genhash_delete_all
  // removes exactly its own handle: the assertions `upd == 1` and "no longer found" hold.
  lemma UnlinksExactlyOne(r: seq<State>, i: nat, t: Tid)
    requires Run(r) && i < |r| && t in r[i].th && r[i].th[t].Sd? && r[i].th[t].dp.Unlink?
    ensures r[i].th[t].h in r[i].m.hs
    ensures SameName(r[i].m, r[i].m.hs[r[i].th[t].h].name) == {r[i].th[t].h}
  {
    RunInv(r, i);
    assert StageOk(r[i].m, t, r[i].th[t]);
    NoOneElse(r[i], r[i].th[t].h);
  }

  function Rank(st: BState): nat { match st case RUNNING => 0 case STOPPING => 1 case STOPPED => 2 case NULL => 3 }

  predicate Forward(m: Shared, m': Shared, h: Hid) {
    && h in m.hs && h in m'.hs
    && Rank(m.hs[h].state) <= Rank(m'.hs[h].state)
    && m.hs[h].wins <= m'.hs[h].wins && m.hs[h].spawns <= m'.hs[h].spawns
    && (m.hs[h].winner.Some? ==> m'.hs[h].winner == m.hs[h].winner)
    && (h in m'.table ==> h in m.table)
  }

  lemma ForwardOf(m: Shared, t: Tid, th: Thread, ch: Choice, o: Out, h: Hid)
    requires HandlePre(m, t, th, h) && HandleStep(m, t, th, ch, o, h) && PhaseMove(m, th, o, h)
    ensures Forward(m, o.m, h)
  {
  }

  lemma NextMovesForward(r: seq<State>, i: nat, h: Hid)
    requires Run(r) && i + 1 < |r| && h in r[i].m.hs
    ensures Forward(r[i].m, r[i + 1].m, h)
  {
    RunInv(r, i);
    var t, ch := StepAt(r, i);
    StagePreOf(r[i], t, ch);
    PreOf(r[i], t, ch, h);
    HandleMove(r[i].m, t, r[i].th[t], ch, h);
    ForwardOf(r[i].m, t, r[i].th[t], ch, StepOut(r[i].m, t, r[i].th[t], ch), h);
  }

  // A bucket's state only moves forward: RUNNING, STOPPING, STOPPED, NULL; the winning DELETE is
  // never replaced, and an unlinked bucket is never linked again.
  lemma {:induction false} StateMovesForward(r: seq<State>, i: nat, j: nat, h: Hid)
    requires Run(r) && i <= j < |r| && h in r[i].m.hs
    ensures Forward(r[i].m, r[j].m, h)
    decreases j
  {
    if i < j {
      StateMovesForward(r, i, j - 1, h);
      NextMovesForward(r, j - 1, h);
    }
  }

  // ----------------------------------------------------------------------------------------
  // The assertions of the code

  /** The assert() calls that the next step of the thread makes. */
  predicate Asserts(m: Shared, th: Thread)
    requires Defined(m, th)
  {
    match th
    case Find(_, fp) =>
      && (fp.DefState? ==> m.hs[fp.h].state == RUNNING)  // retaining the default engine succeeds
      && (fp.Retain? || fp.DefRetain? ==> m.hs[fp.h].refcount >= 0)
    case SetHandle(op, found, sp) =>
      && (if sp.NewEs? then op.c !in m.es else op.c in m.es && m.es[op.c].resv == 0)
      && (sp.RetainNew? && found.Some? ==> m.hs[found.value].refcount >= 0)
    case Rel(_, found, rp) =>
      && (rp.Prev? && rp.prev.Some? ==> m.hs[rp.prev.value].refcount > 0)
      && (rp.Last? && found.Some? ==> m.hs[found.value].refcount > 0)
    case Begin(op) => op.c in m.es && m.es[op.c].peh.None? ==> m.es[op.c].connected && m.es[op.c].resv == 0
    case Pair(op, h, pp) =>
      && m.hs[h].clients >= 0 && (pp.ResRef? ==> m.hs[h].refcount >= 0)
      && (pp.EndDecr? ==> m.hs[h].clients > 0)
      && (pp.MaybeState? ==> m.hs[h].state != RUNNING)
      && (pp.DelUnbind? && m.es[op.c].peh == Some(h) ==> m.es[op.c].resv == 0)
      && (pp.DisClear? ==> m.es[op.c].resv == 0)  // so the count it computes is 0
    case Rc(op, _) => m.es[op.c].resv > 0 && m.es[op.c].peh.Some?
    case Sd(h, dp) =>
      && (dp.DestroyEngine? ==> m.hs[h].state == STOPPED)
      && (dp.Unlink? ==> SameName(m, m.hs[h].name) == {h})
      && (dp.Drop? ==> m.hs[h].refcount > 0)
    case _ => true
  }

  lemma CountsPositive(s: State, t: Tid, h: Hid)
    requires t in s.th && h in s.m.hs && RefOk(s, h) && ClientOk(s, h)
    ensures ThreadRefs(s.th[t], h) > 0 ==> s.m.hs[h].refcount > 0
    ensures s.m.hs[h].refcount >= 0 && s.m.hs[h].clients >= InsideW(h)(s.th[t])
  {
    SumDrop(s.th, t, ThreadW(h));
    SumDrop(s.th, t, InsideW(h));
  }

  lemma AssertsOf(m: Shared, t: Tid, th: Thread)
    requires ThreadOk(m, t, th) && StageOk(m, t, th) && Defined(m, th)
    requires th.Find? && th.fp.DefState? ==> BucketOk(m, th.fp.h)
    requires th.Find? && (th.fp.Retain? || th.fp.DefRetain?) ==> m.hs[th.fp.h].refcount >= 0
    requires th.SetHandle? && th.found.Some? ==> m.hs[th.found.value].refcount >= 0
    requires th.Rel? && th.rp.Prev? && th.rp.prev.Some? ==> m.hs[th.rp.prev.value].refcount > 0
    requires th.Rel? && th.rp.Last? && th.found.Some? ==> m.hs[th.found.value].refcount > 0
    requires th.Begin? && th.op.c in m.es ==> ConnOk(m, th.op.c)
    requires th.Pair? || th.Sd? ==> CountsOk(m, th, th.h)
    requires th.Sd? && th.dp.Unlink? ==> SameName(m, m.hs[th.h].name) == {th.h}
    ensures Asserts(m, th)
  {
  }

  predicate CountsOk(m: Shared, th: Thread, h: Hid) {
    && h in m.hs
    && m.hs[h].refcount >= 0 && (ThreadRefs(th, h) > 0 ==> m.hs[h].refcount > 0)
    && m.hs[h].clients >= One(PhaseOf(th, h).Entered? || PhaseOf(th, h).Live?)
    && (PhaseOf(th, h).Way2? ==> m.hs[h].state != RUNNING)
  }

  lemma CountsOf(s: State, t: Tid, h: Hid)
    requires Inv(s) && t in s.th && h in s.m.hs
    ensures CountsOk(s.m, s.th[t], h)
  {
    assert HandleOk(s, h);
    CountsPositive(s, t, h);
  }

  // Every assertion holds, and everything a step dereferences exists.
  lemma AssertionsHold(r: seq<State>, i: nat, t: Tid)
    requires Run(r) && i < |r| && t in r[i].th
    ensures Defined(r[i].m, r[i].th[t]) && Asserts(r[i].m, r[i].th[t])
  {
    RunInv(r, i);
    var s, th := r[i], r[i].th[t];
    LocalDefined(s, t);
    assert ThreadOk(s.m, t, th) && StageOk(s.m, t, th);
    if th.Rel? {
      if th.rp.Prev? && th.rp.prev.Some? { CountsOf(s, t, th.rp.prev.value); }
      if th.rp.Last? && th.found.Some? { CountsOf(s, t, th.found.value); }
    } else if th.Pair? || th.Sd? {
      CountsOf(s, t, th.h);
      if th.Sd? && th.dp.Unlink? { NoOneElse(s, th.h); }
    } else if th.Find? && !th.fp.Lookup? && !th.fp.Link? {
      assert HandleOk(s, th.fp.h);
      CountsOf(s, t, th.fp.h);
    } else if th.SetHandle? && th.found.Some? {
      CountsOf(s, t, th.found.value);
    }
    if th.Begin? && th.op.c in s.m.es { assert ConnOk(s.m, th.op.c); }
    AssertsOf(s.m, t, th);
  }

  // ----------------------------------------------------------------------------------------
  // Progress

  /** A thread that waits for nobody: idle, finished, or asleep on a condition variable. */
  predicate AtRest(s: State, t: Tid)
    requires t in s.th
  {
    var th := s.th[t];
    th.Idle? || t in s.m.refWait || t in s.m.dstWait || (th.Sd? && (th.dp.Dead? || th.dp.Skipped?)) || th == Gd(GDone)
  }

  /** The mutex that the next step of the thread waits for is held by another thread. */
  predicate Blocked(m: Shared, th: Thread) {
    (m.eng.Some? && NeedsEng(th)) || (m.shut.Some? && NeedsShut(th))
  }

  predicate NeedsEng(th: Thread) { (th.Find? && (th.fp.Lookup? || th.fp.Link?)) || (th.Sd? && th.dp.Unlink?) }

  predicate NeedsShut(th: Thread) {
    || (th.Rel? && (th.rp.PrevZero? || th.rp.LastZero?))
    || (th.Sd? && (th.dp.Enter? || th.dp.DropZero? || th.dp.Wait? || th.dp.Uncount?))
    || (th.Gd? && (th.gp.GEnter? || th.gp.GTest?))
  }

  predicate Finished(th: Thread) { th.Idle? || (th.Sd? && (th.dp.Dead? || th.dp.Skipped?)) || th == Gd(GDone) }

  lemma FreshKey(keys: set<nat>) returns (n: nat)
    ensures n !in keys
  {
    n := 0;
    var rest := keys;
    while rest != {}
      invariant forall k | k in keys && k !in rest :: k < n
      decreases rest
    {
      var k :| k in rest;
      rest := rest - {k};
      n := if k < n then n else k + 1;
    }
  }

  lemma CanMove(s: State, u: Tid) returns (ch: Choice)
    requires u in s.th && !Finished(s.th[u]) && !Blocked(s.m, s.th[u])
    requires s.th[u] == Gd(GWalk) ==> NoClients(s)
    ensures Enabled(s, u, ch)
  {
    var h := FreshKey(s.m.hs.Keys);
    var t := FreshKey(s.th.Keys);
    var found := Some(h);
    if s.th[u].Find? && s.th[u].fp.Lookup? {
      var same := SameName(s.m, OpName(s.m, s.th[u].op));
      if same == {} { found := None; } else { var g :| g in same; found := Some(g); }
    }
    ch := Choice(found, true, t, Destroy);
  }

  // No deadlock: as long as some thread is neither idle, finished nor asleep, such a thread can take
  // its next step.
  lemma NoDeadlock(r: seq<State>, i: nat, t: Tid) returns (u: Tid, ch: Choice)
    requires Run(r) && i < |r| && t in r[i].th && !AtRest(r[i], t)
    ensures Enabled(r[i], u, ch) && !AtRest(r[i], u)
  {
    RunInv(r, i);
    u := t;
    if r[i].th[t] == Gd(GWalk) && !NoClients(r[i]) { u :| u in r[i].th && IsClient(r[i].th[u]); }
    assert WaitOk(r[i], u);
    u := Unblocked(r[i], u);
    ch := CanMove(r[i], u);
  }

  // Whoever holds a mutex that another thread waits for can move, or the holder of the other can.
  lemma Unblocked(s: State, t: Tid) returns (u: Tid)
    requires LocalInv(s) && (forall v | v in s.th :: WaitOk(s, v))
    requires t in s.th && !AtRest(s, t) && (s.th[t] == Gd(GWalk) ==> NoClients(s))
    ensures u in s.th && !AtRest(s, u) && !Blocked(s.m, s.th[u]) && (s.th[u] == Gd(GWalk) ==> NoClients(s))
  {
    u := t;
    if s.m.eng.Some? && NeedsEng(s.th[u]) {
      u := s.m.eng.value;
      assert ThreadOk(s.m, u, s.th[u]) && WaitOk(s, u);
    }
    if s.m.shut.Some? && NeedsShut(s.th[u]) {
      u := s.m.shut.value;
      assert ThreadOk(s.m, u, s.th[u]) && WaitOk(s, u);
    }
  }
}
