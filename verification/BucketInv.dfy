/**
 The inductive invariant of the bucket lifecycle protocol, and that every step keeps it.
 */
module BucketInv {
  import opened Prelude
  import opened Sums
  import opened BucketModel
  import opened BucketLocal
  import opened BucketHandle

  // ----------------------------------------------------------------------------------------
  // Weights: what the counters count

  ghost function ThreadW(h: Hid): Thread -> nat { th => ThreadRefs(th, h) }
  ghost function ConnW(h: Hid): Conn -> nat { e => ConnRefs(e, h) }
  ghost function InsideW(h: Hid): Thread -> nat { th => One(PhaseOf(th, h).Entered? || PhaseOf(th, h).Live?) }
  ghost function CountedW(): Thread -> nat { th => One(Counted(th)) }

  /** A shutdown thread that bucket_destroy has to wait for. */
  predicate Counted(th: Thread) { th.Sd? && !th.dp.Enter? && !th.dp.Dead? && !th.dp.Skipped? }

  predicate OnTheWay(p: Phase) { p.Way1? || p.Way2? || p.Way3? || p.Way4? }

  /** The thread dropped the last reference to `h` and has yet to broadcast. */
  predicate DropsZero(th: Thread, h: Hid) {
    (th.Rel? && (th.rp.PrevZero? || th.rp.LastZero?) && th.rp.rel == h) || (th.Sd? && th.h == h && th.dp.DropZero?)
  }

  // ----------------------------------------------------------------------------------------
  // The invariant, bucket by bucket

  /** The reference count is the number of references: the table's, the permanent one of the
      default engine, the connections' and the threads'. */
  ghost predicate RefOk(s: State, h: Hid)
    requires h in s.m.hs
  { s.m.hs[h].refcount == RootRefs(s.m, h) + Sum(s.m.es, ConnW(h)) + Sum(s.th, ThreadW(h)) }

  ghost predicate ClientOk(s: State, h: Hid)
    requires h in s.m.hs
  {
    var b := s.m.hs[h];
    && b.clients == Sum(s.th, InsideW(h))
    && (forall t | t in s.th && PhaseOf(s.th[t], h).Live? :: b.state == RUNNING || b.state == STOPPING)
    && (forall t | t in s.th && PhaseOf(s.th[t], h) in {Way2, Way3, Way4} :: b.state != RUNNING)
    && (forall t, u | t in s.th && u in s.th && PhaseOf(s.th[t], h).Way4? :: !PhaseOf(s.th[u], h).Live?)
    && (b.state == STOPPING ==> b.clients > 0 || exists t :: t in s.th && OnTheWay(PhaseOf(s.th[t], h)))
  }

  ghost predicate KillerOk(s: State, h: Hid)
    requires h in s.m.hs
  {
    var b := s.m.hs[h];
    && (b.killer.Some? ==> b.killer.value in s.th && Kills(s.th[b.killer.value], h))
    && (Recorded(b) || (b.winner.value.tid in s.th && Recording(s.th[b.winner.value.tid], h)))
  }

  ghost predicate HandleOk(s: State, h: Hid)
    requires h in s.m.hs
  { BucketOk(s.m, h) && RefOk(s, h) && ClientOk(s, h) && KillerOk(s, h) }

  ghost predicate NamesOk(m: Shared) {
    forall h, g | h in m.table && g in m.table && h in m.hs && g in m.hs && m.hs[h].name == m.hs[g].name :: h == g
  }

  /** bucket_destroy: at most one, and what it has waited for. */
  ghost predicate GlobalOk(s: State) {
    && s.m.counter == Sum(s.th, CountedW())
    && (forall t, u | t in s.th && u in s.th && s.th[t].Gd? && s.th[u].Gd? :: t == u)
    && (forall t | t in s.th && s.th[t].Gd? :: GdOk(s.m, s.th[t].gp))
    && (s.m.closing ==> s.m.inProgress && s.m.counter == 0 && NoClients(s) && exists t :: t in s.th && s.th[t].Gd?)
  }

  predicate GdOk(m: Shared, gp: GdPc) {
    && (!gp.GEnter? ==> m.inProgress)
    && (gp.GWalk? || gp.GFree? || gp.GDone? ==> m.counter == 0)
    && (m.closing <==> gp.GFree? || gp.GDone?)
  }

  /** A shutdown thread may sleep on refcount_cond. */
  ghost predicate Awaited(s: State, h: Hid) {
    h in s.m.hs && (s.m.hs[h].refcount > 0 || exists u :: u in s.th && DropsZero(s.th[u], h))
  }

  ghost predicate WaitOk(s: State, t: Tid)
    requires t in s.th
  {
    var th := s.th[t];
    && (t in s.m.refWait ==> th.Sd? && th.dp.Asleep? && !s.m.inProgress)
    && (th.Sd? && (th.dp.TestProgress? || t in s.m.refWait) ==> Awaited(s, th.h))
    && (th.Sd? && (th.dp.Leave? || th.dp.Free?) ==> s.m.inProgress || Gone(s.m, th.h))
    && (t in s.m.dstWait ==> th == Gd(GAsleep) && s.m.counter > 0)
  }

  /** No reference is left, and the table cannot hand out another. */
  predicate Gone(m: Shared, h: Hid) { h in m.hs && RootRefs(m, h) == 0 && m.hs[h].refcount == 0 }

  ghost predicate Inv(s: State) {
    && LocalInv(s)
    && (forall t | t in s.th :: StageOk(s.m, t, s.th[t]) && WaitOk(s, t))
    && (forall h | h in s.m.hs :: HandleOk(s, h) && (s.m.hs[h].freed ==> s.m.inProgress || Gone(s.m, h)))
    && NamesOk(s.m) && GlobalOk(s)
    && s.m.refWait <= s.th.Keys && s.m.dstWait <= s.th.Keys
  }

  // ----------------------------------------------------------------------------------------
  // What the parts of the invariant give a step

  lemma NoOneElse(s: State, h: Hid)
    requires Inv(s) && h in s.m.hs && h in s.m.table
    ensures SameName(s.m, s.m.hs[h].name) == {h}
  {
  }

  lemma UnlinkingIsCounted(s: State, k: Tid, h: Hid)
    requires k in s.th && h in s.m.hs && Kills(s.th[k], h) && StageOk(s.m, k, s.th[k])
    requires h in s.m.table && !s.m.hs[h].pe && !s.m.closing
    ensures Sum(s.th, CountedW()) > 0
  {
    SumDrop(s.th, k, CountedW());
  }

  lemma WalkFindsEngines(s: State, t: Tid, h: Hid)
    requires Inv(s) && t in s.th && s.th[t] == Gd(GWalk) && h in s.m.table
    ensures h in s.m.hs && s.m.hs[h].pe
  {
    assert HandleOk(s, h) && GdOk(s.m, s.th[t].gp);
    if !s.m.hs[h].pe {
      var k := s.m.hs[h].killer.value;
      assert StageOk(s.m, k, s.th[k]);
      UnlinkingIsCounted(s, k, h);
    }
  }

  lemma PreOf(s: State, t: Tid, ch: Choice, h: Hid)
    requires Inv(s) && Enabled(s, t, ch) && h in s.m.hs
    ensures ThreadOk(s.m, t, s.th[t]) && StageOk(s.m, t, s.th[t]) && Defined(s.m, s.th[t])
    ensures HandlePre(s.m, t, s.th[t], h)
  {
    var th := s.th[t];
    assert ThreadOk(s.m, t, th) && StageOk(s.m, t, th) && HandleOk(s, h);
    LocalDefined(s, t);
    if Serves(th).Some? && Serves(th).value in s.m.es { assert ConnOk(s.m, Serves(th).value); }
    assert ClientOk(s, h) && KillerOk(s, h);
    if th.Gd? {
      assert GdOk(s.m, th.gp);
      if th.gp.GWalk? && h in s.m.table { WalkFindsEngines(s, t, h); }
    }
  }

  lemma StagePreOf(s: State, t: Tid, ch: Choice)
    requires Inv(s) && Enabled(s, t, ch)
    ensures StagePre(s.m, t, s.th[t], ch)
  {
    var th := s.th[t];
    assert ThreadOk(s.m, t, th) && StageOk(s.m, t, th);
    LocalDefined(s, t);
    if th.Pair? || th.Sd? { assert HandleOk(s, th.h); }
    if th.Sd? && th.dp.Unlink? { NoOneElse(s, th.h); }
    if th.Find? && th.fp.Lookup? && ch.h.Some? { assert HandleOk(s, ch.h.value); }
    if th.Idle? { StartOf(s, t, ch); }
  }

  lemma StartOf(s: State, t: Tid, ch: Choice)
    requires LocalInv(s) && Enabled(s, t, ch) && s.th[t].Idle?
    ensures StartOk(s.m, ch.op)
  {
    if ch.op.ReleaseCookie? { assert ConnOk(s.m, ch.op.c); }
  }

  // ----------------------------------------------------------------------------------------
  // Counters after a step

  // Only the stepping thread, and a spawned one, change their weight.
  lemma ThreadSumStep(s: State, t: Tid, ch: Choice, th': Thread, w: Thread -> nat)
    requires t in s.th && (Spawns(s.th[t]) ==> ch.tid !in s.th && w(Sd(s.th[t].h, Enter)) == 0)
    ensures Sum(Spawned(s, t, ch)[t := th'], w) + w(s.th[t]) == Sum(s.th, w) + w(th')
  {
    SumPut(Spawned(s, t, ch), t, th', w);
    if Spawns(s.th[t]) { SumPut(s.th, ch.tid, Sd(s.th[t].h, Enter), w); }
  }

  // Only the connection that the step works on changes.
  lemma ConnSumStep(m: Shared, t: Tid, th: Thread, m': Shared, w: Conn -> nat)
    requires MemFrame(m, t, th, m') && DomOk(m)
    ensures Sum(m'.es, w) + At(m.es, StepCookie(th), w) == Sum(m.es, w) + At(m'.es, StepCookie(th), w)
  {
    var c := StepCookie(th);
    forall d | d != c ensures (d in m.es <==> d in m'.es) && (d in m.es ==> m'.es[d] == m.es[d]) {
      FrameOf(m, t, th, m', d);
    }
    assert m.es - {c} == m'.es - {c};
    SumChange(m.es, m'.es, c, w);
  }

  lemma RefAfter(s: State, t: Tid, ch: Choice, h: Hid)
    requires Enabled(s, t, ch) && Defined(s.m, s.th[t]) && h in s.m.hs && RefOk(s, h) && DomOk(s.m)
    requires s.th[t].Idle? ==> StartOk(s.m, ch.op)
    requires MemFrame(s.m, t, s.th[t], StepOut(s.m, t, s.th[t], ch).m)
    requires RefStep(s.m, s.th[t], StepOut(s.m, t, s.th[t], ch), h)
    ensures RefOk(Step(s, t, ch), h)
  {
    var o := StepOut(s.m, t, s.th[t], ch);
    ThreadSumStep(s, t, ch, o.th, ThreadW(h));
    ConnSumStep(s.m, t, s.th[t], o.m, ConnW(h));
  }

  lemma Unreferenced(s: State, h: Hid)
    requires LocalInv(s) && h !in s.m.hs
    ensures Sum(s.m.es, ConnW(h)) == 0 && Sum(s.th, ThreadW(h)) == 0 && Sum(s.th, InsideW(h)) == 0
    ensures forall t | t in s.th :: PhaseOf(s.th[t], h).Away?
  {
    forall c | c in s.m.es ensures ConnRefs(s.m.es[c], h) == 0 { assert ConnOk(s.m, c); }
    forall t | t in s.th ensures ThreadRefs(s.th[t], h) == 0 && PhaseOf(s.th[t], h).Away? {
      assert ThreadOk(s.m, t, s.th[t]);
    }
    SumZero(s.m.es, ConnW(h));
    SumZero(s.th, ThreadW(h));
    SumZero(s.th, InsideW(h));
  }

  // ----------------------------------------------------------------------------------------
  // Clients after a step

  /** One thread moves from phase `p` to `p'`; no other thread's phase changes. */
  ghost predicate PhasesMove(th: map<Tid, Thread>, th': map<Tid, Thread>, t: Tid, h: Hid) {
    && t in th && t in th'
    && (forall u | u in th :: u in th')
    && (forall u | u in th && u != t :: PhaseOf(th'[u], h) == PhaseOf(th[u], h))
    && (forall u | u in th' && u !in th :: PhaseOf(th'[u], h).Away?)
  }

  lemma ClientMove(s: State, s': State, t: Tid, h: Hid)
    requires h in s.m.hs && h in s'.m.hs && ClientOk(s, h) && PhasesMove(s.th, s'.th, t, h)
    requires PhaseStep(s.m.hs[h], PhaseOf(s.th[t], h), s'.m.hs[h], PhaseOf(s'.th[t], h))
    requires s'.m.hs[h].clients == Sum(s'.th, InsideW(h))
    requires s'.m.hs[h].state == NULL ==> forall u | u in s.th :: !PhaseOf(s.th[u], h).Live?
    ensures ClientOk(s', h)
  {
    var b, b' := s.m.hs[h], s'.m.hs[h];
    var p, p' := PhaseOf(s.th[t], h), PhaseOf(s'.th[t], h);
    if p.Way3? && b.clients == 0 {
      forall u | u in s.th ensures !PhaseOf(s.th[u], h).Live? { SumDrop(s.th, u, InsideW(h)); }
    }
    if b'.state == STOPPING && b'.clients <= 0 {
      SumDrop(s'.th, t, InsideW(h));
      if OnTheWay(p') {
        assert t in s'.th && OnTheWay(PhaseOf(s'.th[t], h));
      } else {
        var u :| u in s.th && OnTheWay(PhaseOf(s.th[u], h));
        assert u != t && u in s'.th && OnTheWay(PhaseOf(s'.th[u], h));
      }
    }
  }

  lemma PhasesStep(s: State, t: Tid, ch: Choice, h: Hid)
    requires Enabled(s, t, ch) && Defined(s.m, s.th[t]) && (s.th[t].Idle? ==> StartOk(s.m, ch.op))
    ensures PhasesMove(s.th, Step(s, t, ch).th, t, h)
  {
  }

  lemma ClientSum(s: State, t: Tid, ch: Choice, h: Hid)
    requires Enabled(s, t, ch) && Defined(s.m, s.th[t]) && (s.th[t].Idle? ==> StartOk(s.m, ch.op))
    requires h in s.m.hs && s.m.hs[h].clients == Sum(s.th, InsideW(h))
    requires PhaseMove(s.m, s.th[t], StepOut(s.m, t, s.th[t], ch), h)
    ensures Step(s, t, ch).m.hs[h].clients == Sum(Step(s, t, ch).th, InsideW(h))
  {
    ThreadSumStep(s, t, ch, StepOut(s.m, t, s.th[t], ch).th, InsideW(h));
  }

  lemma ClientAfter(s: State, t: Tid, ch: Choice, h: Hid)
    requires Enabled(s, t, ch) && Defined(s.m, s.th[t]) && (s.th[t].Idle? ==> StartOk(s.m, ch.op))
    requires h in s.m.hs && ClientOk(s, h) && (s.m.closing ==> NoClients(s))
    requires PhaseMove(s.m, s.th[t], StepOut(s.m, t, s.th[t], ch), h)
    requires HandleStep(s.m, t, s.th[t], ch, StepOut(s.m, t, s.th[t], ch), h)
    ensures ClientOk(Step(s, t, ch), h)
  {
    ClientSum(s, t, ch, h);
    PhasesStep(s, t, ch, h);
    ClientMove(s, Step(s, t, ch), t, h);
  }

  // ----------------------------------------------------------------------------------------
  // The record of a deletion after a step

  // The step of `t` leaves the stage of another thread `u` as it is.
  lemma StageOther(m: Shared, t: Tid, th: Thread, ch: Choice, o: Out, u: Tid, ot: Thread)
    requires u != t && StageOk(m, u, ot) && o.m.cfg == m.cfg && (m.inProgress ==> o.m.inProgress)
    requires (ot.Pair? || ot.Sd? || (ot.Find? && (ot.fp.ReadState? || ot.fp.Retain?))) ==>
               HandlesIn(ot, m.hs) && var h := if ot.Find? then ot.fp.h else ot.h;
               HandleStep(m, t, th, ch, o, h) && (th.Sd? && th.dp.Free? && th.h == h ==> m.hs[h].killer == Some(t))
    requires (m.closing ==> !IsClient(ot)) && (o.m.closing ==> !IsClient(ot) && !Counted(ot))
    requires EngPc(ot) ==> !(th.Sd? && th.dp.Unlink?)
    requires th.Pair? && (th.pp.DelCookie? || th.pp.DelForce?) ==> StageOk(m, t, th)
    ensures StageOk(o.m, u, ot)
  {
  }

  lemma KillerAfter(s: State, t: Tid, ch: Choice, h: Hid)
    requires Enabled(s, t, ch) && Defined(s.m, s.th[t]) && (s.th[t].Idle? ==> StartOk(s.m, ch.op))
    requires h in s.m.hs && KillerOk(s, h)
    requires HandleStep(s.m, t, s.th[t], ch, StepOut(s.m, t, s.th[t], ch), h)
    ensures KillerOk(Step(s, t, ch), h)
  {
  }

  // ----------------------------------------------------------------------------------------
  // Sleeping threads after a step

  // A count that falls to zero leaves a thread with a broadcast to make.
  lemma ZeroDrop(m: Shared, t: Tid, th: Thread, ch: Choice, h: Hid)
    requires th.Rel? || th.Sd? || th.Gd?
    requires Ready(m, th, ch) && Defined(m, th) && h in m.hs && m.hs[h].refcount > 0
    requires th.Gd? && th.gp.GFree? ==> m.closing
    ensures var o := StepOut(m, t, th, ch);
      h in o.m.hs && (o.m.hs[h].refcount > 0 || DropsZero(o.th, h) || m.closing)
  {
    if th.Rel? { ZeroDropRel(m, th, h); } else if th.Gd? { ZeroDropGd(m, t, th, h); }
    else if th.dp.Drop? { ZeroDropSd(m, t, th, h); } else { NoDropSd(m, t, th, h); }
  }

  lemma ZeroDropSd(m: Shared, t: Tid, th: Thread, h: Hid)
    requires th.Sd? && th.dp.Drop? && Defined(m, th) && h in m.hs && m.hs[h].refcount > 0
    ensures var o := StepSd(m, t, th); h in o.m.hs && (o.m.hs[h].refcount > 0 || DropsZero(o.th, h))
  {
  }

  lemma NoDropSd(m: Shared, t: Tid, th: Thread, h: Hid)
    requires th.Sd? && !th.dp.Drop? && Defined(m, th) && h in m.hs
    ensures var o := StepSd(m, t, th); h in o.m.hs && o.m.hs[h].refcount == m.hs[h].refcount
  {
  }

  lemma ZeroDropRel(m: Shared, th: Thread, h: Hid)
    requires th.Rel? && Defined(m, th) && h in m.hs && m.hs[h].refcount > 0
    ensures var o := StepRel(m, th); h in o.m.hs && (o.m.hs[h].refcount > 0 || DropsZero(o.th, h))
  {
  }

  lemma ZeroDropGd(m: Shared, t: Tid, th: Thread, h: Hid)
    requires th.Gd? && Defined(m, th) && h in m.hs && m.hs[h].refcount > 0
    requires th.gp.GFree? ==> m.closing
    ensures var o := StepGd(m, t, th); h in o.m.hs && (o.m.hs[h].refcount > 0 || m.closing)
  {
  }

  lemma NoDrop(m: Shared, t: Tid, th: Thread, ch: Choice, h: Hid)
    requires !th.Rel? && !th.Sd? && !th.Gd? && !th.Pair?
    requires Ready(m, th, ch) && Defined(m, th) && h in m.hs && (th.Idle? ==> StartOk(m, ch.op))
    ensures var o := StepOut(m, t, th, ch); h in o.m.hs && o.m.hs[h].refcount >= m.hs[h].refcount
  {
  }

  lemma NoDropPair(m: Shared, t: Tid, th: Thread, ch: Choice, h: Hid)
    requires th.Pair? && Ready(m, th, ch) && Defined(m, th) && h in m.hs
    ensures var o := StepOut(m, t, th, ch); h in o.m.hs && o.m.hs[h].refcount >= m.hs[h].refcount
  {
    if EndPc(th.pp) { NoDropEnd(m, t, th, ch, h); }
  }

  lemma NoDropEnd(m: Shared, t: Tid, th: Thread, ch: Choice, h: Hid)
    requires th.Pair? && EndPc(th.pp) && Defined(m, th) && h in m.hs
    ensures var o := StepEnd(m, t, th, ch); h in o.m.hs && o.m.hs[h].refcount == m.hs[h].refcount
  {
  }

  lemma AwaitedAfter(s: State, t: Tid, ch: Choice, h: Hid)
    requires Enabled(s, t, ch) && Defined(s.m, s.th[t]) && (s.th[t].Idle? ==> StartOk(s.m, ch.op))
    requires Awaited(s, h) && !DropsZero(s.th[t], h) && !s.m.closing
    requires s.th[t].Gd? ==> GdOk(s.m, s.th[t].gp)
    requires LocalStep(s.m, t, s.th[t], ch, StepOut(s.m, t, s.th[t], ch))
    ensures Awaited(Step(s, t, ch), h)
  {
    var th, s' := s.th[t], Step(s, t, ch);
    if s.m.hs[h].refcount > 0 {
      if th.Rel? || th.Sd? || th.Gd? { ZeroDrop(s.m, t, th, ch, h); }
      else if th.Pair? { NoDropPair(s.m, t, th, ch, h); } else { NoDrop(s.m, t, th, ch, h); }
      assert t in s'.th && s'.th[t] == StepOut(s.m, t, th, ch).th;
    } else {
      var v :| v in s.th && DropsZero(s.th[v], h);
      assert v != t && v in s'.th && DropsZero(s'.th[v], h);
    }
  }

  lemma GoneUnowned(s: State, t: Tid, h: Hid)
    requires t in s.th && Gone(s.m, h) && RefOk(s, h)
    ensures Unowned(s.m, s.th[t], h)
  {
    SumDrop(s.th, t, ThreadW(h));
    SumDrop(s.m.es, StepCookie(s.th[t]), ConnW(h));
  }

  lemma GoneStays(s: State, t: Tid, ch: Choice, h: Hid)
    requires Enabled(s, t, ch) && Defined(s.m, s.th[t]) && (s.th[t].Idle? ==> StartOk(s.m, ch.op))
    requires Gone(s.m, h) && RefOk(s, h)
    requires ThreadOk(s.m, t, s.th[t]) && StageOk(s.m, t, s.th[t]) && HandlePre(s.m, t, s.th[t], h)
    ensures Gone(Step(s, t, ch).m, h)
  {
    GoneUnowned(s, t, h);
    RefMove(s.m, t, s.th[t], ch, h);
  }

  /** What a step of `t` does to the wait sets and the flags. */
  predicate WaitFrame(m: Shared, t: Tid, th: Thread, o: Out) {
    && (m.inProgress ==> o.m.inProgress)
    && (o.m.inProgress && !m.inProgress ==> o.m.refWait == {})
    && (o.m.refWait <= m.refWait || (th.Sd? && th.dp.TestProgress? && !m.inProgress && o.m.refWait == m.refWait + {t}))
    && (((th.Rel? && (th.rp.PrevZero? || th.rp.LastZero?)) || (th.Sd? && th.dp.DropZero?)) ==>
          m.shut.None? && o.m.refWait == {})
    && (o.m.dstWait <= m.dstWait || (th.Gd? && o.m.dstWait == m.dstWait + {t} && m.counter != 0))
    && (o.m.counter != m.counter ==> th.Sd?)
    && (o.m.counter < m.counter && m.inProgress && o.m.counter == 0 ==> o.m.dstWait == {})
  }

  lemma WaitMoveShutdown(m: Shared, t: Tid, th: Thread, ch: Choice)
    requires th.Sd? || th.Gd? || th.Rel?
    requires Ready(m, th, ch) && Defined(m, th)
    ensures WaitFrame(m, t, th, StepOut(m, t, th, ch))
  {
  }

  lemma WaitMoveClient(m: Shared, t: Tid, th: Thread, ch: Choice)
    requires !th.Sd? && !th.Gd? && !th.Rel?
    requires Ready(m, th, ch) && Defined(m, th) && (th.Idle? ==> StartOk(m, ch.op))
    ensures WaitFrame(m, t, th, StepOut(m, t, th, ch))
  {
    if th.Pair? { WaitMovePair(m, t, th, ch); }
  }

  lemma WaitMovePair(m: Shared, t: Tid, th: Thread, ch: Choice)
    requires th.Pair? && Ready(m, th, ch) && Defined(m, th)
    ensures WaitFrame(m, t, th, StepOut(m, t, th, ch))
  {
    if EndPc(th.pp) { WaitMoveEnd(m, t, th, ch); }
  }

  lemma WaitMoveEnd(m: Shared, t: Tid, th: Thread, ch: Choice)
    requires th.Pair? && EndPc(th.pp) && Defined(m, th)
    ensures WaitFrame(m, t, th, StepEnd(m, t, th, ch))
  {
  }

  // ----------------------------------------------------------------------------------------
  // One step, all together

  /** Everything the families of steps say about one step of `t`. */
  ghost predicate StepFacts(s: State, t: Tid, ch: Choice)
    requires Enabled(s, t, ch) && Defined(s.m, s.th[t]) && (s.th[t].Idle? ==> StartOk(s.m, ch.op))
  {
    var o := StepOut(s.m, t, s.th[t], ch);
    && LocalStep(s.m, t, s.th[t], ch, o) && WaitFrame(s.m, t, s.th[t], o)
    && StageOk(o.m, t, o.th) && (Spawns(s.th[t]) ==> StageOk(o.m, ch.tid, Sd(s.th[t].h, Enter)))
    && (forall h | h in s.m.hs ::
          HandleStep(s.m, t, s.th[t], ch, o, h) && PhaseMove(s.m, s.th[t], o, h) && RefStep(s.m, s.th[t], o, h))
  }

  lemma FactsOf(s: State, t: Tid, ch: Choice)
    requires Inv(s) && Enabled(s, t, ch)
    ensures Defined(s.m, s.th[t]) && (s.th[t].Idle? ==> StartOk(s.m, ch.op))
    ensures StepFacts(s, t, ch) && LocalInv(Step(s, t, ch))
  {
    var m, th := s.m, s.th[t];
    StagePreOf(s, t, ch);
    LocalNext(s, t, ch);
    if th.Sd? || th.Gd? || th.Rel? { WaitMoveShutdown(m, t, th, ch); } else { WaitMoveClient(m, t, th, ch); }
    StageMove(m, t, th, ch);
    forall h | h in m.hs
      ensures var o := StepOut(m, t, th, ch);
        HandleStep(m, t, th, ch, o, h) && PhaseMove(m, th, o, h) && RefStep(m, th, o, h)
    {
      PreOf(s, t, ch, h);
      HandleMove(m, t, th, ch, h);
      RefMove(m, t, th, ch, h);
    }
  }

  lemma HandleAfter(s: State, t: Tid, ch: Choice, h: Hid)
    requires Inv(s) && Enabled(s, t, ch) && h in s.m.hs
    requires Defined(s.m, s.th[t]) && (s.th[t].Idle? ==> StartOk(s.m, ch.op)) && StepFacts(s, t, ch)
    ensures h in Step(s, t, ch).m.hs && HandleOk(Step(s, t, ch), h)
  {
    assert HandleOk(s, h);
    RefAfter(s, t, ch, h);
    ClientAfter(s, t, ch, h);
    KillerAfter(s, t, ch, h);
  }

  lemma FreedAfter(s: State, t: Tid, ch: Choice, h: Hid)
    requires Inv(s) && Enabled(s, t, ch) && h in s.m.hs
    requires Defined(s.m, s.th[t]) && (s.th[t].Idle? ==> StartOk(s.m, ch.op)) && StepFacts(s, t, ch)
    requires Step(s, t, ch).m.hs[h].freed
    ensures Step(s, t, ch).m.inProgress || Gone(Step(s, t, ch).m, h)
  {
    assert HandleOk(s, h) && WaitOk(s, t);
    if !s.m.inProgress {
      assert Gone(s.m, h);
      PreOf(s, t, ch, h);
      GoneStays(s, t, ch, h);
    }
  }

  // The bucket that create_bucket links.
  lemma NewHandle(s: State, t: Tid, ch: Choice, h: Hid)
    requires Inv(s) && Enabled(s, t, ch) && Defined(s.m, s.th[t]) && (s.th[t].Idle? ==> StartOk(s.m, ch.op))
    requires h !in s.m.hs && h in Step(s, t, ch).m.hs
    ensures HandleOk(Step(s, t, ch), h) && !Step(s, t, ch).m.hs[h].freed
  {
    OnlyLinkAdds(s.m, t, s.th[t], ch, h);
    Unreferenced(s, h);
    assert !s.m.closing;
    NewHandleOk(s, t, ch, h);
  }

  lemma NewHandleOk(s: State, t: Tid, ch: Choice, h: Hid)
    requires Enabled(s, t, ch) && Defined(s.m, s.th[t]) && s.th[t].Find? && !s.m.closing
    requires h !in s.m.hs && s.m.cfg.dflt != Some(h)
    requires Sum(s.m.es, ConnW(h)) == 0 && Sum(s.th, ThreadW(h)) == 0 && Sum(s.th, InsideW(h)) == 0
    requires forall u | u in s.th :: PhaseOf(s.th[u], h).Away?
    requires StepOut(s.m, t, s.th[t], ch) == Out(
      SetB(s.m, h, NewBucket(OpName(s.m, s.th[t].op))).(table := s.m.table + {h}), AfterCreate(s.th[t].op, Some(h)))
    ensures HandleOk(Step(s, t, ch), h) && !Step(s, t, ch).m.hs[h].freed
  {
    var o := StepOut(s.m, t, s.th[t], ch);
    ThreadSumStep(s, t, ch, o.th, ThreadW(h));
    ThreadSumStep(s, t, ch, o.th, InsideW(h));
  }

  lemma OnlyLinkAdds(m: Shared, t: Tid, th: Thread, ch: Choice, h: Hid)
    requires Ready(m, th, ch) && Defined(m, th) && (th.Idle? ==> StartOk(m, ch.op))
    requires h !in m.hs && h in StepOut(m, t, th, ch).m.hs
    ensures th.Find? && th.fp.Link? && ch.h == Some(h) && ch.ok && SameName(m, OpName(m, th.op)) == {}
    ensures StepOut(m, t, th, ch) ==
      Out(SetB(m, h, NewBucket(OpName(m, th.op))).(table := m.table + {h}), AfterCreate(th.op, Some(h)))
  {
  }

  lemma NamesAfter(s: State, t: Tid, ch: Choice, h: Hid, g: Hid)
    requires NamesOk(s.m) && DomOk(s.m) && Enabled(s, t, ch)
    requires Defined(s.m, s.th[t]) && (s.th[t].Idle? ==> StartOk(s.m, ch.op))
    requires h in s.m.hs ==> HandleStep(s.m, t, s.th[t], ch, StepOut(s.m, t, s.th[t], ch), h)
    requires g in s.m.hs ==> HandleStep(s.m, t, s.th[t], ch, StepOut(s.m, t, s.th[t], ch), g)
    requires var m' := Step(s, t, ch).m;
      h in m'.table && g in m'.table && h in m'.hs && g in m'.hs && m'.hs[h].name == m'.hs[g].name
    ensures h == g
  {
    if h !in s.m.hs {
      OnlyLinkAdds(s.m, t, s.th[t], ch, h);
    } else if g !in s.m.hs {
      OnlyLinkAdds(s.m, t, s.th[t], ch, g);
    }
  }

  // ----------------------------------------------------------------------------------------
  // The other threads after a step

  lemma CountedPositive(s: State, u: Tid)
    requires u in s.th && Counted(s.th[u])
    ensures Sum(s.th, CountedW()) > 0
  {
    SumDrop(s.th, u, CountedW());
  }

  lemma StagesAfter(s: State, t: Tid, ch: Choice, u: Tid)
    requires Enabled(s, t, ch) && Defined(s.m, s.th[t]) && (s.th[t].Idle? ==> StartOk(s.m, ch.op))
    requires StepFacts(s, t, ch) && u in Step(s, t, ch).th
    requires StageOk(s.m, t, s.th[t]) && (u in s.th ==> ThreadOk(s.m, u, s.th[u]) && StageOk(s.m, u, s.th[u]))
    requires s.m.closing || Step(s, t, ch).m.closing ==> NoClients(s) && s.m.counter == 0
    requires s.m.counter == Sum(s.th, CountedW())
    ensures StageOk(Step(s, t, ch).m, u, Step(s, t, ch).th[u])
  {
    if u != t && u in s.th {
      if Counted(s.th[u]) { CountedPositive(s, u); }
      StageOther(s.m, t, s.th[t], ch, StepOut(s.m, t, s.th[t], ch), u, s.th[u]);
    }
  }

  // The final walk begins with no client and no counted shutdown thread.
  lemma ClosingNeedsIdle(s: State, t: Tid, ch: Choice)
    requires Inv(s) && Enabled(s, t, ch)
    requires Defined(s.m, s.th[t]) && (s.th[t].Idle? ==> StartOk(s.m, ch.op))
    ensures StepOut(s.m, t, s.th[t], ch).m.closing ==> NoClients(s) && s.m.counter == 0
  {
    if s.th[t].Gd? { assert GdOk(s.m, s.th[t].gp); }
    ClosingStep(s.m, t, s.th[t], ch);
  }

  lemma ClosingStep(m: Shared, t: Tid, th: Thread, ch: Choice)
    requires Ready(m, th, ch) && Defined(m, th) && (th.Idle? ==> StartOk(m, ch.op))
    ensures var o := StepOut(m, t, th, ch); o.m.closing ==> m.closing || th == Gd(GWalk)
  {
  }

  lemma WaitOwnShutdown(s: State, t: Tid, ch: Choice)
    requires Enabled(s, t, ch) && s.th[t].Sd? && Defined(s.m, s.th[t])
    requires StageOk(s.m, t, s.th[t]) && WaitOk(s, t) && s.th[t].h in s.m.hs
    requires BucketOk(s.m, s.th[t].h) && RefOk(s, s.th[t].h)
    requires s.th[t].dp.TestProgress? ==> Awaited(Step(s, t, ch), s.th[t].h)
    ensures WaitOk(Step(s, t, ch), t)
  {
  }

  lemma WaitOwnOther(s: State, t: Tid, ch: Choice)
    requires Enabled(s, t, ch) && Defined(s.m, s.th[t]) && (s.th[t].Idle? ==> StartOk(s.m, ch.op))
    requires !s.th[t].Sd? && WaitOk(s, t) && WaitFrame(s.m, t, s.th[t], StepOut(s.m, t, s.th[t], ch))
    requires s.m.counter >= 0
    ensures WaitOk(Step(s, t, ch), t)
  {
    var th, o := s.th[t], StepOut(s.m, t, s.th[t], ch);
    assert o.th.Sd? ==> false;
    assert t in o.m.dstWait ==> th.Gd?;
  }

  lemma WaitOther(s: State, t: Tid, ch: Choice, u: Tid)
    requires Enabled(s, t, ch) && Defined(s.m, s.th[t]) && (s.th[t].Idle? ==> StartOk(s.m, ch.op))
    requires WaitFrame(s.m, t, s.th[t], StepOut(s.m, t, s.th[t], ch))
    requires u in s.th && u != t && WaitOk(s, u) && ThreadOk(s.m, u, s.th[u])
    requires s.th[u].Sd? && Awaited(s, s.th[u].h) && Awaiting(s, t, ch, u) ==> Awaited(Step(s, t, ch), s.th[u].h)
    requires s.th[u].Sd? && (s.th[u].dp.Leave? || s.th[u].dp.Free?) && Gone(s.m, s.th[u].h) ==>
               Gone(Step(s, t, ch).m, s.th[u].h)
    requires s.th[u].Gd? ==> !s.th[t].Gd? && (s.th[u].gp.GAsleep? ==> s.m.inProgress)
    ensures WaitOk(Step(s, t, ch), u)
  {
  }

  /** `u` sleeps, or is about to, on the reference count of its bucket. */
  predicate Awaiting(s: State, t: Tid, ch: Choice, u: Tid)
    requires Enabled(s, t, ch) && Defined(s.m, s.th[t]) && (s.th[t].Idle? ==> StartOk(s.m, ch.op)) && u in s.th
  { s.th[u].Sd? && (s.th[u].dp.TestProgress? || u in Step(s, t, ch).m.refWait) }

  lemma AwaitedKept(s: State, t: Tid, ch: Choice, u: Tid)
    requires Enabled(s, t, ch) && Defined(s.m, s.th[t]) && (s.th[t].Idle? ==> StartOk(s.m, ch.op))
    requires StepFacts(s, t, ch) && u in s.th && u != t && GlobalOk(s) && ThreadOk(s.m, u, s.th[u])
    requires Awaiting(s, t, ch, u) && Awaited(s, s.th[u].h) && (u in s.m.refWait ==> s.th[u].dp.Asleep?)
    ensures Awaited(Step(s, t, ch), s.th[u].h)
  {
    CountedPositive(s, u);
    if s.th[t].Gd? { assert GdOk(s.m, s.th[t].gp); }
    AwaitedAfter(s, t, ch, s.th[u].h);
  }

  lemma GoneKept(s: State, t: Tid, ch: Choice, h: Hid)
    requires Inv(s) && Enabled(s, t, ch) && Defined(s.m, s.th[t]) && (s.th[t].Idle? ==> StartOk(s.m, ch.op))
    requires Gone(s.m, h)
    ensures Gone(Step(s, t, ch).m, h)
  {
    assert HandleOk(s, h);
    PreOf(s, t, ch, h);
    GoneStays(s, t, ch, h);
  }

  lemma WaitAfter(s: State, t: Tid, ch: Choice, u: Tid)
    requires Enabled(s, t, ch) && Defined(s.m, s.th[t]) && (s.th[t].Idle? ==> StartOk(s.m, ch.op))
    requires Inv(s) && StepFacts(s, t, ch) && u in s.th && u != t
    ensures WaitOk(Step(s, t, ch), u)
  {
    var ot := s.th[u];
    assert WaitOk(s, u) && ThreadOk(s.m, u, ot);
    if Awaiting(s, t, ch, u) && Awaited(s, ot.h) { AwaitedKept(s, t, ch, u); }
    if ot.Sd? && Gone(s.m, ot.h) { GoneKept(s, t, ch, ot.h); }
    if ot.Gd? { assert GdOk(s.m, ot.gp); }
    WaitOther(s, t, ch, u);
  }

  // ----------------------------------------------------------------------------------------
  // bucket_destroy after a step

  /** What a step of `t` does to the global shutdown. */
  predicate GlobalFrame(m: Shared, th: Thread, ch: Choice, o: Out) {
    && (o.th.Gd? && !(th.Idle? && ch.op.Destroy?) ==> th.Gd? && GdOk(o.m, o.th.gp))
    && (o.th.Gd? && th.Idle? ==> o.th.gp.GEnter? && ch.op.Destroy?)
    && o.m.counter + One(Counted(th)) == m.counter + One(Counted(o.th))
    && (m.inProgress ==> o.m.inProgress && o.m.counter <= m.counter)
    && (m.closing != o.m.closing ==> th == Gd(GWalk) && o.m.closing)
    && (th.Gd? ==> o.th.Gd?)
  }

  lemma GlobalMoveShutdown(m: Shared, t: Tid, th: Thread, ch: Choice)
    requires th.Idle? || th.Sd? || th.Gd?
    requires Ready(m, th, ch) && Defined(m, th) && (th.Idle? ==> StartOk(m, ch.op))
    requires m.counter >= 0 && (th.Gd? ==> GdOk(m, th.gp))
    ensures GlobalFrame(m, th, ch, StepOut(m, t, th, ch))
  {
  }

  lemma GlobalMoveClient(m: Shared, t: Tid, th: Thread, ch: Choice)
    requires !th.Idle? && !th.Sd? && !th.Gd?
    requires Ready(m, th, ch) && Defined(m, th)
    ensures GlobalFrame(m, th, ch, StepOut(m, t, th, ch))
  {
    if th.Pair? { GlobalMovePair(m, t, th, ch); }
  }

  lemma GlobalMovePair(m: Shared, t: Tid, th: Thread, ch: Choice)
    requires th.Pair? && Ready(m, th, ch) && Defined(m, th)
    ensures GlobalFrame(m, th, ch, StepOut(m, t, th, ch))
  {
  }

  lemma GlobalAfter(s: State, t: Tid, ch: Choice)
    requires Enabled(s, t, ch) && Defined(s.m, s.th[t]) && (s.th[t].Idle? ==> StartOk(s.m, ch.op))
    requires GlobalOk(s) && GlobalFrame(s.m, s.th[t], ch, StepOut(s.m, t, s.th[t], ch))
    requires s.m.closing || s.th[t].Gd? ==> !IsClient(StepOut(s.m, t, s.th[t], ch).th)
    ensures GlobalOk(Step(s, t, ch))
  {
    var s' := Step(s, t, ch);
    ThreadSumStep(s, t, ch, StepOut(s.m, t, s.th[t], ch).th, CountedW());
    assert t in s'.th && (s.m.closing != s'.m.closing ==> s'.th[t].Gd?);
    if s.m.closing {
      var g :| g in s.th && s.th[g].Gd?;
      assert g in s'.th && s'.th[g].Gd?;
    }
  }

  // ----------------------------------------------------------------------------------------
  // The invariant holds in every state of every run

  lemma InvNext(s: State, t: Tid, ch: Choice)
    requires Inv(s) && Enabled(s, t, ch) && Defined(s.m, s.th[t])
    ensures Inv(Step(s, t, ch))
  {
    FactsOf(s, t, ch);
    var s' := Step(s, t, ch);
    forall u | u in s'.th ensures StageOk(s'.m, u, s'.th[u]) && WaitOk(s', u) {
      ThreadAfter(s, t, ch, u);
    }
    forall h | h in s'.m.hs ensures HandleOk(s', h) && (s'.m.hs[h].freed ==> s'.m.inProgress || Gone(s'.m, h)) {
      if h in s.m.hs {
        HandleAfter(s, t, ch, h);
        if s'.m.hs[h].freed { FreedAfter(s, t, ch, h); }
      } else {
        NewHandle(s, t, ch, h);
      }
    }
    forall h, g | h in s'.m.table && g in s'.m.table && h in s'.m.hs && g in s'.m.hs
                  && s'.m.hs[h].name == s'.m.hs[g].name
      ensures h == g
    {
      NamesAfter(s, t, ch, h, g);
    }
    GlobalNext(s, t, ch);
  }

  lemma ThreadAfter(s: State, t: Tid, ch: Choice, u: Tid)
    requires Enabled(s, t, ch) && Defined(s.m, s.th[t]) && (s.th[t].Idle? ==> StartOk(s.m, ch.op))
    requires Inv(s) && StepFacts(s, t, ch) && u in Step(s, t, ch).th
    ensures StageOk(Step(s, t, ch).m, u, Step(s, t, ch).th[u]) && WaitOk(Step(s, t, ch), u)
  {
    StageAfter(s, t, ch, u);
    if u == t { WaitOwn(s, t, ch); } else if u in s.th { WaitAfter(s, t, ch, u); }
  }

  lemma StageAfter(s: State, t: Tid, ch: Choice, u: Tid)
    requires Enabled(s, t, ch) && Defined(s.m, s.th[t]) && (s.th[t].Idle? ==> StartOk(s.m, ch.op))
    requires Inv(s) && StepFacts(s, t, ch) && u in Step(s, t, ch).th
    ensures StageOk(Step(s, t, ch).m, u, Step(s, t, ch).th[u])
  {
    assert StageOk(s.m, t, s.th[t]);
    if u in s.th { assert ThreadOk(s.m, u, s.th[u]) && StageOk(s.m, u, s.th[u]); }
    ClosingNeedsIdle(s, t, ch);
    StagesAfter(s, t, ch, u);
  }

  lemma WaitOwn(s: State, t: Tid, ch: Choice)
    requires Enabled(s, t, ch) && Defined(s.m, s.th[t]) && (s.th[t].Idle? ==> StartOk(s.m, ch.op))
    requires Inv(s) && StepFacts(s, t, ch)
    ensures WaitOk(Step(s, t, ch), t)
  {
    assert StageOk(s.m, t, s.th[t]) && WaitOk(s, t);
    if s.th[t].Sd? {
      assert HandleOk(s, s.th[t].h);
      if s.th[t].dp.TestProgress? {
        CountedPositive(s, t);
        AwaitedAfter(s, t, ch, s.th[t].h);
      }
      WaitOwnShutdown(s, t, ch);
    } else {
      WaitOwnOther(s, t, ch);
    }
  }

  lemma GlobalNext(s: State, t: Tid, ch: Choice)
    requires Enabled(s, t, ch) && Defined(s.m, s.th[t]) && (s.th[t].Idle? ==> StartOk(s.m, ch.op))
    requires Inv(s) && StepFacts(s, t, ch)
    ensures GlobalOk(Step(s, t, ch))
    ensures Step(s, t, ch).m.refWait <= Step(s, t, ch).th.Keys && Step(s, t, ch).m.dstWait <= Step(s, t, ch).th.Keys
  {
    var th := s.th[t];
    if th.Gd? { assert GdOk(s.m, th.gp); }
    if th.Idle? || th.Sd? || th.Gd? { GlobalMoveShutdown(s.m, t, th, ch); } else { GlobalMoveClient(s.m, t, th, ch); }
    if th.Sd? { StaysShutdown(s.m, t, th, ch); }
    GlobalAfter(s, t, ch);
  }

  lemma StaysShutdown(m: Shared, t: Tid, th: Thread, ch: Choice)
    requires th.Sd? && Ready(m, th, ch) && Defined(m, th)
    ensures StepOut(m, t, th, ch).th.Sd?
  {
  }

  lemma InitInv(s: State)
    requires Init(s)
    ensures Inv(s)
  {
    SumZero(s.th, CountedW());
    forall h | h in s.m.hs ensures HandleOk(s, h) {
      SumZero(s.th, ThreadW(h));
      SumZero(s.th, InsideW(h));
      SumZero(s.m.es, ConnW(h));
    }
  }

  // Every state of every run satisfies the invariant.
  lemma {:induction false} RunInv(r: seq<State>, i: nat)
    requires Run(r) && i < |r|
    ensures Inv(r[i])
  {
    if i == 0 {
      InitInv(r[0]);
    } else {
      RunInv(r, i - 1);
      assert StepsAt(r, i - 1);
      NextInv(r[i - 1], r[i]);
    }
  }

  lemma NextInv(s: State, s': State)
    requires Inv(s) && Next(s, s')
    ensures Inv(s')
  {
    var t, ch :| Enabled(s, t, ch) && Defined(s.m, s.th[t]) && s' == Step(s, t, ch);
    InvNext(s, t, ch);
  }
}
