/**
 The local layer of the invariant: which operation can be at which program counter, what a
 thread relies on in the connection it serves, and who holds which mutex.
 */
module BucketLocal {
  import opened Prelude
  import opened BucketModel

  predicate SetOp(op: Op) { op.Connect? || op.Select? }

  predicate PairOp(op: Op, pp: PairPc) {
    match pp
    case GetIncr | GetState | InEngine => op.Call? || op.Disconnect?
    case ResState | ResRef | ResEs => op.Call?
    case DelIncr | DelCas | DelCookie | DelForce | DelUnbind => op.Delete?
    case DisCheck | DisClear => op.Disconnect?
    case _ => op.Call? || op.Disconnect? || op.Delete?
  }

  /** Which operation can be at which program counter. */
  predicate Shape(th: Thread) {
    match th
    case Find(op, fp) =>
      && (fp.Lookup? || fp.ReadState? || fp.Retain? ==> SetOp(op) || op.Delete?)
      && (fp.Link? ==> SetOp(op) || op.Create?)
      && (fp.DefState? || fp.DefRetain? ==> op.Connect?)
    case SetHandle(op, found, sp) => SetOp(op) && (sp.NewEs? ==> op.Connect?) && (sp.RetainNew? ==> found.Some?)
    case Rel(op, found, rp) =>
      && (rp.Prev? || rp.PrevZero? ==>
            SetOp(op) || op.Delete? || ((op.Disconnect? || op.ReleaseCookie?) && found.None?))
      && (rp.Last? || rp.LastZero? ==> SetOp(op) || op.Delete? || op.Create?)
      && (rp.LastZero? ==> found.None?)
    case Begin(op) => op.Call? || op.Disconnect?
    case Pair(op, _, pp) => PairOp(op, pp)
    case Rc(op, _) => op.ReleaseCookie?
    case _ => true
  }

  /** What a thread relies on in the connections. */
  predicate CookieOk(m: Shared, th: Thread) {
    match th
    case Find(op, fp) =>
      && (op.Connect? ==> op.c !in m.es)
      && (op.Select? ==> op.c in m.es && m.es[op.c].resv == 0)
      && (op.Delete? && fp.Lookup? ==> MayDelete(m, op.c, op.name))
      && (op.Delete? && (fp.ReadState? || fp.Retain?) ==> MayUnbind(m, op.c, fp.h))
      && (fp.DefState? || fp.DefRetain? ==> m.cfg.dflt == Some(fp.h))
    case SetHandle(op, _, sp) =>
      SetOp(op) ==> if sp.NewEs? then op.c !in m.es else op.c in m.es && m.es[op.c].resv == 0
    case Begin(op) => op.Call? ==> op.c in m.es
    case Pair(op, h, pp) =>
      && (op.Delete? ==> MayUnbind(m, op.c, h))
      && (op.Disconnect? ==> op.c in m.es && m.es[op.c].peh == Some(h) && (pp.DisClear? ==> m.es[op.c].resv == 0))
      && (op.Call? ==> op.c in m.es && BoundOrDefault(m, op.c, h)
                       && (pp.ResState? || pp.ResRef? || pp.ResEs? ==> m.es[op.c].peh == Some(h)))
    case Rc(op, h) => op.ReleaseCookie? ==> op.c in m.es && m.es[op.c].resv > 0 && m.es[op.c].peh == Some(h)
    case _ => true
  }

  /** Deleting `h` does not take it from a reserved connection. */
  predicate MayUnbind(m: Shared, c: Cookie, h: Hid) {
    c in m.es && (m.es[c].resv == 0 || m.es[c].peh != Some(h))
  }

  predicate BoundOrDefault(m: Shared, c: Cookie, h: Hid)
    requires c in m.es
  { m.es[c].peh == Some(h) || (m.es[c].peh.None? && m.cfg.dflt == Some(h)) }

  predicate EngPc(th: Thread) {
    (th.Find? && (th.fp.ReadState? || th.fp.Retain?)) ||
    (th.Sd? && (th.dp.Drop? || th.dp.DropZero? || th.dp.SetNull?))
  }

  predicate ShutPc(th: Thread) { th.Sd? && (th.dp.TestRef? || th.dp.TestProgress? || th.dp.Leave?) }

  predicate LocksOk(m: Shared, t: Tid, th: Thread) {
    && (EngPc(th) <==> m.eng == Some(t))
    && (ShutPc(th) <==> m.shut == Some(t))
  }

  predicate ThreadOk(m: Shared, t: Tid, th: Thread) {
    Shape(th) && CookieOk(m, th) && HandlesIn(th, m.hs) && LocksOk(m, t, th)
  }

  predicate ConnOk(m: Shared, c: Cookie)
    requires c in m.es
  {
    && m.es[c].connected
    && OptIn(m.es[c].peh, m.hs)
    && (m.es[c].resv > 0 ==> m.es[c].peh.Some?)
  }

  ghost predicate DomOk(m: Shared) {
    && (forall h | h in m.table :: h in m.hs)
    && OptIn(m.cfg.dflt, m.hs)
    && (forall c | c in m.es :: ConnOk(m, c))
  }

  ghost predicate LocalInv(s: State) {
    && DomOk(s.m)
    && (forall t | t in s.th :: ThreadOk(s.m, t, s.th[t]))
    && (forall t, u | t in s.th && u in s.th && t != u && Serves(s.th[t]).Some? :: Serves(s.th[t]) != Serves(s.th[u]))
    && (forall c | c in s.m.es :: |Releasing(s, c)| <= s.m.es[c].resv)
    && OptTh(s.m.eng, s) && OptTh(s.m.shut, s)
  }

  ghost predicate OptTh(o: Option<Tid>, s: State) { o.Some? ==> o.value in s.th }

  lemma DefinedOf(m: Shared, t: Tid, th: Thread)
    requires ThreadOk(m, t, th) && DomOk(m)
    ensures Defined(m, th)
  {
    if th.Idle? {
      forall c | c in m.es && m.es[c].resv > 0 ensures m.es[c].peh.Some? { assert ConnOk(m, c); }
    }
  }

  // Every step has the locals and map entries that it dereferences.
  lemma LocalDefined(s: State, t: Tid)
    requires LocalInv(s) && t in s.th
    ensures Defined(s.m, s.th[t])
  {
    DefinedOf(s.m, t, s.th[t]);
  }

  // ----------------------------------------------------------------------------------------
  // Preservation: a step changes one thread and what that thread is entitled to change

  predicate LockFrame(l: Option<Tid>, l': Option<Tid>, t: Tid) {
    l' == l || ((l == None || l == Some(t)) && (l' == None || l' == Some(t)))
  }

  /** What a step of a thread may do to the connection `c`. */
  predicate EsFrame(m: Shared, th: Thread, m': Shared, c: Cookie) {
    if Serves(th) == Some(c) then
      && (c in m.es && m.es[c].resv > 0 ==>
            c in m'.es && m'.es[c].peh == m.es[c].peh && m'.es[c].resv >= m.es[c].resv)
      && (c in m'.es ==> ConnOk(m', c) && (m'.es[c].resv > 0 ==> c in m.es))
    else if th.Rc? && th.op == ReleaseCookie(c) then
      c in m.es && c in m'.es && m.es[c].resv > 0 && m'.es[c] == m.es[c].(resv := m.es[c].resv - 1)
    else
      (c in m.es <==> c in m'.es) && (c in m.es ==> m'.es[c] == m.es[c])
  }

  /** What a step of thread `t` may do to the shared memory. */
  ghost predicate MemFrame(m: Shared, t: Tid, th: Thread, m': Shared) {
    && LockFrame(m.eng, m'.eng, t) && LockFrame(m.shut, m'.shut, t)
    && (forall h | h in m.hs :: h in m'.hs && m'.hs[h].name == m.hs[h].name) && (forall h | h in m'.table :: h in m'.hs)
    && m'.cfg == m.cfg
    && (if m'.es == m.es then !th.Rc? else forall c :: EsFrame(m, th, m', c))
  }

  // What CanStart says about the connection.
  predicate StartOk(m: Shared, op: Op) {
    && (op.Connect? ==> op.c !in m.es)
    && (op.Select? ==> op.c in m.es && m.es[op.c].resv == 0)
    && (op.Delete? ==> MayDelete(m, op.c, op.name))
    && (op.Call? ==> op.c in m.es)
    && (op.ReleaseCookie? ==> op.c in m.es && m.es[op.c].resv > 0 && m.es[op.c].peh.Some?)
  }

  // The shutdown thread up to its wait, and the wait.
  predicate SdFirst(dp: SdPc) {
    dp.Enter? || dp.DestroyEngine? || dp.Unlink? || dp.Drop? || dp.DropZero? || dp.SetNull? || dp.Notify?
  }

  predicate SdWaits(dp: SdPc) { dp.Wait? || dp.TestRef? || dp.TestProgress? || dp.Asleep? }

  lemma FrameOf(m: Shared, t: Tid, th: Thread, m': Shared, c: Cookie)
    requires MemFrame(m, t, th, m') && DomOk(m)
    ensures EsFrame(m, th, m', c)
  {
    if m'.es == m.es && c in m.es { assert ConnOk(m, c); }
  }

  predicate NextServes(th: Thread, th': Thread, ch: Choice) {
    && (Serves(th').Some? && Serves(th') != Serves(th) ==>
          th.Idle? && !ch.op.Create? && !ch.op.ReleaseCookie? && !ch.op.Destroy? && Serves(th') == Some(ch.op.c))
    && (th'.Rc? ==> th.Idle? && ch.op.ReleaseCookie? && th'.op == ch.op)
  }

  /** The facts about one step from which the local invariant follows. */
  ghost predicate LocalStep(m: Shared, t: Tid, th: Thread, ch: Choice, o: Out) {
    ThreadOk(o.m, t, o.th) && MemFrame(m, t, th, o.m) && NextServes(th, o.th, ch)
  }

  // The step of one thread does not disturb another.
  lemma OtherThreadAfter(m: Shared, t: Tid, th: Thread, m': Shared, u: Tid, ot: Thread)
    requires u != t && MemFrame(m, t, th, m') && DomOk(m) && ThreadOk(m, u, ot)
    requires Serves(ot).Some? ==> Serves(th) != Serves(ot)
    requires th.Rc? && ot.Rc? && th.op == ot.op && ot.op.ReleaseCookie? ==> ot.op.c in m.es && m.es[ot.op.c].resv >= 2
    ensures ThreadOk(m', u, ot)
  {
    if Serves(ot).Some? { FrameOf(m, t, th, m', Serves(ot).value); }
    if ot.Rc? { FrameOf(m, t, th, m', ot.op.c); }
  }

  lemma ReleasingAfter(s: State, t: Tid, th': Thread, n: Tid, h: Hid, c: Cookie)
    requires t in s.th && (n in s.th ==> n == t)
    ensures Releasing(State(s.m, s.th[t := th']), c) == ReleasingPut(s, t, th', c)
    ensures n != t ==> Releasing(State(s.m, s.th[n := Sd(h, Enter)][t := th']), c) == ReleasingPut(s, t, th', c)
  {
  }

  function ReleasingPut(s: State, t: Tid, th': Thread, c: Cookie): set<Tid> {
    Releasing(s, c) - {t} + if th'.Rc? && th'.op == ReleaseCookie(c) then {t} else {}
  }

  lemma NoneReleasing(s: State, c: Cookie)
    requires (forall t | t in s.th :: ThreadOk(s.m, t, s.th[t])) && c !in s.m.es
    ensures Releasing(s, c) == {}
  {
    if u :| u in Releasing(s, c) {
      assert false;
    }
  }

  lemma ReleasingBound(s: State, t: Tid, th': Thread, m': Shared, ch: Choice, c: Cookie)
    requires t in s.th && EsFrame(s.m, s.th[t], m', c) && NextServes(s.th[t], th', ch) && c in m'.es
    requires if c in s.m.es then |Releasing(s, c)| <= s.m.es[c].resv else Releasing(s, c) == {}
    requires s.th[t].Idle? && ch.op == ReleaseCookie(c) ==>
               c in s.m.es && m'.es == s.m.es && |Releasing(s, c)| < s.m.es[c].resv
    ensures |ReleasingPut(s, t, th', c)| <= m'.es[c].resv
  {
    var R := Releasing(s, c);
    assert t in R ==> |R - {t}| == |R| - 1;
    assert t !in R ==> R - {t} == R;
  }

  lemma AtLeastTwo<T>(A: set<T>, x: T, y: T)
    requires x in A && y in A && x != y
    ensures |A| >= 2
  {
    assert |A - {x} - {y}| == |A| - 2;
  }

  lemma OthersAfter(s: State, t: Tid, ch: Choice, u: Tid)
    requires LocalInv(s) && Enabled(s, t, ch) && Defined(s.m, s.th[t])
    requires LocalStep(s.m, t, s.th[t], ch, StepOut(s.m, t, s.th[t], ch))
    requires u in s.th && u != t
    ensures ThreadOk(Step(s, t, ch).m, u, s.th[u])
  {
    var th, ot := s.th[t], s.th[u];
    assert ThreadOk(s.m, u, ot);
    if th.Rc? && ot.Rc? && th.op == ot.op && ot.op.ReleaseCookie? {
      AtLeastTwo(Releasing(s, ot.op.c), t, u);
    }
    OtherThreadAfter(s.m, t, th, StepOut(s.m, t, th, ch).m, u, ot);
  }

  lemma ReleasingStep(s: State, t: Tid, ch: Choice, c: Cookie)
    requires LocalInv(s) && Enabled(s, t, ch) && Defined(s.m, s.th[t])
    requires LocalStep(s.m, t, s.th[t], ch, StepOut(s.m, t, s.th[t], ch)) && c in Step(s, t, ch).m.es
    ensures |Releasing(Step(s, t, ch), c)| <= Step(s, t, ch).m.es[c].resv && ConnOk(Step(s, t, ch).m, c)
  {
    var th, o := s.th[t], StepOut(s.m, t, s.th[t], ch);
    FrameOf(s.m, t, th, o.m, c);
    if c !in s.m.es { NoneReleasing(s, c); } else { assert ConnOk(s.m, c); }
    ReleasingBound(s, t, o.th, o.m, ch, c);
    ReleasingAfter(s, t, o.th, if Spawns(th) then ch.tid else t, if Spawns(th) then th.h else 0, c);
  }

  lemma ThreadsAfter(s: State, t: Tid, ch: Choice)
    requires LocalInv(s) && Enabled(s, t, ch) && Defined(s.m, s.th[t])
    requires LocalStep(s.m, t, s.th[t], ch, StepOut(s.m, t, s.th[t], ch))
    ensures forall u | u in Step(s, t, ch).th :: ThreadOk(Step(s, t, ch).m, u, Step(s, t, ch).th[u])
  {
    var s' := Step(s, t, ch);
    forall u | u in s'.th ensures ThreadOk(s'.m, u, s'.th[u]) {
      if u in s.th && u != t { OthersAfter(s, t, ch, u); }
    }
  }

  lemma ServesAfter(s: State, t: Tid, ch: Choice)
    requires LocalInv(s) && Enabled(s, t, ch) && Defined(s.m, s.th[t])
    requires NextServes(s.th[t], StepOut(s.m, t, s.th[t], ch).th, ch)
    ensures var th := Step(s, t, ch).th;
      forall u, v | u in th && v in th && u != v && Serves(th[u]).Some? :: Serves(th[u]) != Serves(th[v])
  {
  }

  lemma LocalAfter(s: State, t: Tid, ch: Choice)
    requires LocalInv(s) && Enabled(s, t, ch) && Defined(s.m, s.th[t])
    requires LocalStep(s.m, t, s.th[t], ch, StepOut(s.m, t, s.th[t], ch))
    ensures LocalInv(Step(s, t, ch))
  {
    var s' := Step(s, t, ch);
    ThreadsAfter(s, t, ch);
    ServesAfter(s, t, ch);
    forall c | c in s'.m.es ensures ConnOk(s'.m, c) && |Releasing(s', c)| <= s'.m.es[c].resv {
      ReleasingStep(s, t, ch, c);
    }
  }

  lemma LocalStart(m: Shared, t: Tid, th: Thread, ch: Choice)
    requires th.Idle? && ThreadOk(m, t, th) && DomOk(m) && Defined(m, th)
    requires StartOk(m, ch.op)
    ensures LocalStep(m, t, th, ch, StepStart(m, ch))
  {
  }

  lemma LocalDefault(m: Shared, t: Tid, th: Thread, ch: Choice)
    requires th.Find? && (th.fp.DefState? || th.fp.DefRetain?)
    requires ThreadOk(m, t, th) && DomOk(m) && Ready(m, th, ch) && Defined(m, th)
    ensures LocalStep(m, t, th, ch, StepFind(m, t, th, ch))
  {
  }

  lemma LocalRetain(m: Shared, t: Tid, th: Thread, ch: Choice)
    requires th.Find? && th.fp.Retain? && ThreadOk(m, t, th) && DomOk(m) && Ready(m, th, ch) && Defined(m, th)
    ensures LocalStep(m, t, th, ch, StepFind(m, t, th, ch))
  {
  }

  lemma LocalLookup(m: Shared, t: Tid, th: Thread, ch: Choice)
    requires th.Find? && th.fp.Lookup? && ThreadOk(m, t, th) && DomOk(m) && Ready(m, th, ch) && Defined(m, th)
    ensures LocalStep(m, t, th, ch, StepFind(m, t, th, ch))
  {
  }

  lemma LocalReadState(m: Shared, t: Tid, th: Thread, ch: Choice)
    requires th.Find? && th.fp.ReadState? && ThreadOk(m, t, th) && DomOk(m) && Ready(m, th, ch) && Defined(m, th)
    ensures LocalStep(m, t, th, ch, StepFind(m, t, th, ch))
  {
  }

  lemma LocalCreate(m: Shared, t: Tid, th: Thread, ch: Choice)
    requires th.Find? && (th.fp.Link?) && ThreadOk(m, t, th) && DomOk(m) && Ready(m, th, ch) && Defined(m, th)
    ensures LocalStep(m, t, th, ch, StepFind(m, t, th, ch))
  {
  }

  lemma LocalNewEs(m: Shared, t: Tid, th: Thread, ch: Choice)
    requires th.SetHandle? && th.sp.NewEs? && ThreadOk(m, t, th) && DomOk(m) && Defined(m, th)
    ensures LocalStep(m, t, th, ch, StepSet(m, th))
  {
  }

  lemma LocalSet(m: Shared, t: Tid, th: Thread, ch: Choice)
    requires th.SetHandle? && !th.sp.Store? && !th.sp.NewEs? && ThreadOk(m, t, th) && DomOk(m) && Defined(m, th)
    ensures LocalStep(m, t, th, ch, StepSet(m, th))
  {
  }

  lemma LocalStore(m: Shared, t: Tid, th: Thread, ch: Choice)
    requires th.SetHandle? && th.sp.Store? && ThreadOk(m, t, th) && DomOk(m) && Defined(m, th)
    ensures LocalStep(m, t, th, ch, StepSet(m, th))
  {
  }

  lemma LocalPrev(m: Shared, t: Tid, th: Thread, ch: Choice)
    requires th.Rel? && th.rp.Prev? && ThreadOk(m, t, th) && DomOk(m) && Defined(m, th)
    ensures LocalStep(m, t, th, ch, StepRel(m, th))
  {
  }

  lemma LocalLast(m: Shared, t: Tid, th: Thread, ch: Choice)
    requires th.Rel? && th.rp.Last? && ThreadOk(m, t, th) && DomOk(m) && Defined(m, th)
    ensures LocalStep(m, t, th, ch, StepRel(m, th))
  {
  }

  lemma LocalZero(m: Shared, t: Tid, th: Thread, ch: Choice)
    requires th.Rel? && (th.rp.PrevZero? || th.rp.LastZero?) && ThreadOk(m, t, th) && DomOk(m) && Defined(m, th)
    ensures LocalStep(m, t, th, ch, StepRel(m, th))
  {
  }

  lemma LocalBegin(m: Shared, t: Tid, th: Thread, ch: Choice)
    requires th.Begin? && ThreadOk(m, t, th) && DomOk(m) && Defined(m, th)
    ensures LocalStep(m, t, th, ch, StepBegin(m, th))
  {
  }

  predicate ResPc(pp: PairPc) { pp.ResState? || pp.ResRef? || pp.ResEs? }

  lemma LocalReserve(m: Shared, t: Tid, th: Thread, ch: Choice)
    requires th.Pair? && ResPc(th.pp) && ThreadOk(m, t, th) && DomOk(m) && Ready(m, th, ch) && Defined(m, th)
    ensures LocalStep(m, t, th, ch, StepGet(m, th, ch))
  {
  }

  lemma LocalGet(m: Shared, t: Tid, th: Thread, ch: Choice)
    requires th.Pair? && GetPc(th.pp) && !ResPc(th.pp)
    requires ThreadOk(m, t, th) && DomOk(m) && Ready(m, th, ch) && Defined(m, th)
    ensures LocalStep(m, t, th, ch, StepGet(m, th, ch))
  {
  }

  lemma LocalDecr(m: Shared, t: Tid, th: Thread, ch: Choice)
    requires th.Pair? && th.pp.EndDecr? && ThreadOk(m, t, th) && DomOk(m) && Defined(m, th)
    ensures LocalStep(m, t, th, ch, StepEnd(m, t, th, ch))
  {
  }

  lemma LocalState(m: Shared, t: Tid, th: Thread, ch: Choice)
    requires th.Pair? && (th.pp.EndState? || th.pp.MaybeState?) && ThreadOk(m, t, th) && DomOk(m) && Defined(m, th)
    ensures LocalStep(m, t, th, ch, StepEnd(m, t, th, ch))
  {
  }

  lemma LocalClients(m: Shared, t: Tid, th: Thread, ch: Choice)
    requires th.Pair? && th.pp.MaybeClients? && ThreadOk(m, t, th) && DomOk(m) && Defined(m, th)
    ensures LocalStep(m, t, th, ch, StepEnd(m, t, th, ch))
  {
  }

  lemma LocalCas(m: Shared, t: Tid, th: Thread, ch: Choice)
    requires th.Pair? && th.pp.MaybeCas? && ThreadOk(m, t, th) && DomOk(m) && Defined(m, th)
    ensures LocalStep(m, t, th, ch, StepEnd(m, t, th, ch))
  {
    if m.hs[th.h].state != STOPPING { LocalGoesOn(m, t, th, ch); }
  }

  // A thread whose call into maybe_start_engine_shutdown changes nothing.
  lemma LocalGoesOn(m: Shared, t: Tid, th: Thread, ch: Choice)
    requires th.Pair? && EndPc(th.pp) && ThreadOk(m, t, th) && DomOk(m)
    ensures LocalStep(m, t, th, ch, Out(m, AfterEnd(th.op, th.h)))
  {
  }

  lemma LocalSpawn(m: Shared, t: Tid, th: Thread, ch: Choice)
    requires th.Pair? && th.pp.MaybeSpawn? && ThreadOk(m, t, th) && DomOk(m) && Defined(m, th)
    ensures LocalStep(m, t, th, ch, StepEnd(m, t, th, ch))
  {
  }

  lemma LocalDelCas(m: Shared, t: Tid, th: Thread, ch: Choice)
    requires th.Pair? && (th.pp.DelIncr? || th.pp.DelCas?) && ThreadOk(m, t, th) && DomOk(m) && Defined(m, th)
    ensures LocalStep(m, t, th, ch, StepDel(m, t, th))
  {
  }

  lemma LocalRecord(m: Shared, t: Tid, th: Thread, ch: Choice)
    requires th.Pair? && (th.pp.DelCookie? || th.pp.DelForce?) && ThreadOk(m, t, th) && DomOk(m) && Defined(m, th)
    ensures LocalStep(m, t, th, ch, StepDel(m, t, th))
  {
  }

  lemma LocalUnbind(m: Shared, t: Tid, th: Thread, ch: Choice)
    requires th.Pair? && th.pp.DelUnbind? && ThreadOk(m, t, th) && DomOk(m) && Defined(m, th)
    ensures LocalStep(m, t, th, ch, StepDel(m, t, th))
  {
  }

  lemma LocalDis(m: Shared, t: Tid, th: Thread, ch: Choice)
    requires th.Pair? && DisPc(th.pp) && ThreadOk(m, t, th) && DomOk(m) && Defined(m, th)
    ensures LocalStep(m, t, th, ch, StepDis(m, th))
  {
  }

  lemma LocalRc(m: Shared, t: Tid, th: Thread, ch: Choice)
    requires th.Rc? && ThreadOk(m, t, th) && DomOk(m) && Defined(m, th)
    ensures LocalStep(m, t, th, ch, StepRc(m, th))
  {
  }

  lemma LocalSdUp(m: Shared, t: Tid, th: Thread, ch: Choice)
    requires th.Sd? && SdFirst(th.dp) && ThreadOk(m, t, th) && DomOk(m) && Ready(m, th, ch) && Defined(m, th)
    ensures LocalStep(m, t, th, ch, StepSd(m, t, th))
  {
  }

  lemma LocalSdWait(m: Shared, t: Tid, th: Thread, ch: Choice)
    requires th.Sd? && SdWaits(th.dp) && ThreadOk(m, t, th) && DomOk(m) && Ready(m, th, ch) && Defined(m, th)
    ensures LocalStep(m, t, th, ch, StepSd(m, t, th))
  {
  }

  lemma LocalSdDown(m: Shared, t: Tid, th: Thread, ch: Choice)
    requires th.Sd? && !SdFirst(th.dp) && !SdWaits(th.dp)
    requires ThreadOk(m, t, th) && DomOk(m) && Ready(m, th, ch) && Defined(m, th)
    ensures LocalStep(m, t, th, ch, StepSd(m, t, th))
  {
  }

  lemma LocalGdWait(m: Shared, t: Tid, th: Thread, ch: Choice)
    requires th.Gd? && !th.gp.GWalk? && !th.gp.GFree? && ThreadOk(m, t, th) && DomOk(m) && Defined(m, th)
    ensures LocalStep(m, t, th, ch, StepGd(m, t, th))
  {
  }

  lemma LocalGdWalk(m: Shared, t: Tid, th: Thread, ch: Choice)
    requires th.Gd? && (th.gp.GWalk? || th.gp.GFree?) && ThreadOk(m, t, th) && DomOk(m) && Defined(m, th)
    ensures LocalStep(m, t, th, ch, StepGd(m, t, th))
  {
  }

  lemma LocalMove(m: Shared, t: Tid, th: Thread, ch: Choice)
    requires ThreadOk(m, t, th) && DomOk(m) && Ready(m, th, ch) && Defined(m, th)
    requires th.Idle? ==> StartOk(m, ch.op)
    ensures LocalStep(m, t, th, ch, StepOut(m, t, th, ch))
  {
    match th
    case Idle => LocalStart(m, t, th, ch);
    case Find(_, fp) =>
      if fp.Link? { LocalCreate(m, t, th, ch); }
      else if fp.Retain? { LocalRetain(m, t, th, ch); }
      else if fp.DefState? || fp.DefRetain? { LocalDefault(m, t, th, ch); }
      else if fp.Lookup? { LocalLookup(m, t, th, ch); } else { LocalReadState(m, t, th, ch); }
    case SetHandle(_, _, sp) =>
      if sp.Store? { LocalStore(m, t, th, ch); } else if sp.NewEs? { LocalNewEs(m, t, th, ch); }
      else { LocalSet(m, t, th, ch); }
    case Rel(_, _, rp) =>
      if rp.Prev? { LocalPrev(m, t, th, ch); } else if rp.Last? { LocalLast(m, t, th, ch); }
      else { LocalZero(m, t, th, ch); }
    case Begin(_) => LocalBegin(m, t, th, ch);
    case Pair(_, _, pp) =>
      if ResPc(pp) { LocalReserve(m, t, th, ch); }
      else if GetPc(pp) { LocalGet(m, t, th, ch); }
      else if pp.EndDecr? { LocalDecr(m, t, th, ch); }
      else if pp.EndState? || pp.MaybeState? { LocalState(m, t, th, ch); }
      else if pp.MaybeClients? { LocalClients(m, t, th, ch); }
      else if pp.MaybeCas? { LocalCas(m, t, th, ch); }
      else if pp.MaybeSpawn? { LocalSpawn(m, t, th, ch); }
      else if pp.DelUnbind? { LocalUnbind(m, t, th, ch); }
      else if pp.DelIncr? || pp.DelCas? { LocalDelCas(m, t, th, ch); }
      else if pp.DelCookie? || pp.DelForce? { LocalRecord(m, t, th, ch); }
      else { LocalDis(m, t, th, ch); }
    case Rc(_, _) => LocalRc(m, t, th, ch);
    case Sd(_, dp) =>
      if SdFirst(dp) { LocalSdUp(m, t, th, ch); } else if SdWaits(dp) { LocalSdWait(m, t, th, ch); }
      else { LocalSdDown(m, t, th, ch); }
    case Gd(gp) => if gp.GWalk? || gp.GFree? { LocalGdWalk(m, t, th, ch); } else { LocalGdWait(m, t, th, ch); }
  }

  lemma LocalNext(s: State, t: Tid, ch: Choice)
    requires LocalInv(s) && Enabled(s, t, ch) && Defined(s.m, s.th[t])
    ensures LocalStep(s.m, t, s.th[t], ch, StepOut(s.m, t, s.th[t], ch)) && LocalInv(Step(s, t, ch))
  {
    LocalMove(s.m, t, s.th[t], ch);
    LocalAfter(s, t, ch);
  }
}
