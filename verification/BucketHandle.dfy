/**
 What one step does to one bucket: to its reference count, to its client count and state, and
 to the record of its deletion.
 */
module BucketHandle {
  import opened Prelude
  import opened BucketModel
  import opened BucketLocal

  function One(b: bool): nat { if b then 1 else 0 }

  // ----------------------------------------------------------------------------------------
  // References: who owns them

  /** How many references to `h` the locals of a thread own. */
  function ThreadRefs(th: Thread, h: Hid): nat {
    match th
    case SetHandle(_, found, sp) => One(found == Some(h)) + One(sp.Store? && sp.taken == Some(h))
    case Rel(_, found, rp) => One(found == Some(h)) + One(rp.Prev? && rp.prev == Some(h))
    case Pair(op, g, pp) => One(g == h && (op.Delete? || pp.ResEs?))
    case Sd(g, dp) => One(g == h && dp.Drop?)
    case _ => 0
  }

  /** A connected binding counts once, and every outstanding reservation counts once. */
  function ConnRefs(e: Conn, h: Hid): nat {
    if e.peh == Some(h) then One(e.connected) + e.resv else 0
  }

  /** The table's reference, and the permanent one of the default engine. */
  function RootRefs(m: Shared, h: Hid): nat { One(h in m.table) + One(m.cfg.dflt == Some(h)) }

  /** The connection a step may change. */
  function StepCookie(th: Thread): Cookie {
    if th.Rc? && th.op.ReleaseCookie? then th.op.c else Serves(th).GetOr(0)
  }

  function ConnRefsAt(m: Shared, c: Cookie, h: Hid): nat { if c in m.es then ConnRefs(m.es[c], h) else 0 }

  /** The reference count changes exactly by the references that the step creates or drops. */
  predicate RefStep(m: Shared, th: Thread, o: Out, h: Hid)
    {
    h in m.hs && h in o.m.hs &&
    var c := StepCookie(th);
    o.m.hs[h].refcount + RootRefs(m, h) + ConnRefsAt(m, c, h) + ThreadRefs(th, h) ==
    m.hs[h].refcount + RootRefs(o.m, h) + ConnRefsAt(o.m, c, h) + ThreadRefs(o.th, h)
  }

  // A step creates no reference to a bucket that neither it nor the table has one to.
  predicate NoRevival(m: Shared, th: Thread, o: Out, h: Hid) {
    Unowned(m, th, h) ==> RootRefs(o.m, h) == 0 && ConnRefsAt(o.m, StepCookie(th), h) == 0 && ThreadRefs(o.th, h) == 0
  }

  // ----------------------------------------------------------------------------------------
  // Clients: the phases of get_engine_handle .. maybe_start_engine_shutdown

  /** Entered: the client count is bumped.  Live: and RUNNING was seen afterwards (or the DELETE
      won).  WayN: the thread brought the count to 0 and is on its way to the compare-and-swap. */
  datatype Phase = Away | Entered | Live | Way1 | Way2 | Way3 | Way4

  function PhaseOf(th: Thread, h: Hid): Phase {
    if th.Pair? && th.h == h then
      match th.pp
      case GetState | DelCas => Entered
      case InEngine | ResState | ResRef | ResEs | DelCookie | DelForce => Live
      case EndDecr(live) => if live then Live else Entered
      case EndState => Way1
      case MaybeState => Way2
      case MaybeClients => Way3
      case MaybeCas => Way4
      case _ => Away
    else Away
  }

  predicate PhaseStep(b: Bucket, p: Phase, b': Bucket, p': Phase) {
    match p
    case Away =>
      (p' == Away && b'.clients == b.clients && (b'.state == b.state || b'.state == NULL)) ||
      (p' == Entered && b'.clients == b.clients + 1 && b'.state == b.state)
    case Entered =>
      (p' == Live && b.state == RUNNING && b'.clients == b.clients && (b'.state == RUNNING || b'.state == STOPPING)) ||
      StayOrLeave(b, p, b', p')
    case Live => StayOrLeave(b, p, b', p')
    case Way1 => Unmoved(b, b') && p' == if b.state == STOPPING then Way2 else Away
    case Way2 => Unmoved(b, b') && p' == if b.state == STOPPING then Way3 else Away
    case Way3 => Unmoved(b, b') && p' == if b.clients == 0 then Way4 else Away
    case Way4 =>
      p' == Away && b'.clients == b.clients && b'.state == if b.state == STOPPING then STOPPED else b.state
  }

  predicate Unmoved(b: Bucket, b': Bucket) { b'.clients == b.clients && b'.state == b.state }

  predicate StayOrLeave(b: Bucket, p: Phase, b': Bucket, p': Phase) {
    b'.state == b.state &&
    ((p' == p && b'.clients == b.clients) ||
     (b'.clients == b.clients - 1 && p' == if b'.clients == 0 then Way1 else Away))
  }

  // ----------------------------------------------------------------------------------------
  // Deletion: who won, who shuts down, what has been done

  /** STOPPED, still linked, not destroyed. */
  predicate Unharmed(m: Shared, h: Hid)
    requires h in m.hs
  { m.hs[h].state == STOPPED && h in m.table && m.hs[h].pe && m.hs[h].notified == 0 && !m.closing }

  predicate SdStage(m: Shared, h: Hid, dp: SdPc)
    requires h in m.hs
  {
    var b := m.hs[h];
    match dp
    case Enter => if m.closing then b.notified == 0 else Unharmed(m, h)
    case Skipped => m.inProgress && if m.closing then b.notified == 0 else Unharmed(m, h)
    case DestroyEngine => Unharmed(m, h)
    case Unlink => b.state == STOPPED && h in m.table && !b.pe && b.notified == 0 && !m.closing
    case Drop | DropZero | SetNull => b.state == STOPPED && h !in m.table && b.notified == 0
    case Notify => b.state == NULL && h !in m.table && b.notified == 0
    case _ => b.state == NULL && h !in m.table && b.notified == One(b.cookie.Some?)
  }

  /** The thread that won the compare-and-swap to STOPPED, and then the shutdown thread. */
  predicate StageOk(m: Shared, t: Tid, th: Thread) {
    match th
    case Find(_, fp) => fp.ReadState? || fp.Retain? ==> fp.h in m.table && m.cfg.dflt != Some(fp.h)
    case Pair(op, h, pp) =>
      && (op.Delete? ==> m.cfg.dflt != Some(h))
      && (pp.MaybeSpawn? ==> h in m.hs && m.hs[h].killer == Some(t) && m.hs[h].spawns == 0 && Unharmed(m, h))
      && (pp.DelCookie? || pp.DelForce? ==>
            op.Delete? && h in m.hs && m.hs[h].winner == Some(Winner(t, op.c, op.force)))
      && (pp.DelForce? ==> op.Delete? && h in m.hs && m.hs[h].cookie == Some(op.c))
    case Sd(h, dp) =>
      h in m.hs && m.hs[h].killer == Some(t) && m.hs[h].spawns == 1 && SdStage(m, h, dp) &&
      (m.hs[h].freed ==> dp.Uncount? || dp.Dead?)
    case _ => true
  }

  /** Nobody holds or can find `h`. */
  predicate Unowned(m: Shared, th: Thread, h: Hid) {
    RootRefs(m, h) == 0 && ConnRefsAt(m, StepCookie(th), h) == 0 && ThreadRefs(th, h) == 0
  }

  predicate BucketOk(m: Shared, h: Hid)
    requires h in m.hs
  {
    var b := m.hs[h];
    && b.wins == One(b.winner.Some?)
    && (b.state == RUNNING ==> b.winner.None? && b.killer.None?)
    && (b.state == STOPPING ==> b.winner.Some? && b.killer.None?)
    && (b.state == STOPPED ==> b.killer.Some?)
    && (b.killer.Some? ==> b.winner.Some?)
    && (b.killer.None? ==> b.spawns == 0 && b.notified == 0)
    && (b.freed ==> b.killer.Some? && b.state == NULL)
    && (if m.cfg.dflt == Some(h) then b.state == RUNNING && h !in m.table && b.destroyed == 0
        else b.destroyed == One(h !in m.table || m.closing || !b.pe)
             && (b.state == RUNNING || b.state == STOPPING ==> h in m.table))
    && (h in m.table ==> b.state != NULL && (!b.pe ==> b.killer.Some? && !m.closing))
  }

  /** The winner's cookie and force flag are recorded. */
  predicate Recorded(b: Bucket) {
    b.winner.Some? ==> b.cookie == Some(b.winner.value.cookie) && b.force == b.winner.value.force
  }

  /** The winner is still recording its cookie and force flag. */
  predicate Recording(th: Thread, h: Hid) { th.Pair? && th.h == h && (th.pp.DelCookie? || th.pp.DelForce?) }

  predicate Kills(th: Thread, h: Hid) { (Spawns(th) || th.Sd?) && th.h == h }

  /** What the step of `t` may do to the record of the deletion of `h`. */
  predicate DeleteStep(m: Shared, t: Tid, th: Thread, ch: Choice, o: Out, h: Hid)
    requires h in m.hs && h in o.m.hs
  {
    var b, b' := m.hs[h], o.m.hs[h];
    && b'.name == b.name
    && (h in o.m.table ==> h in m.table)
    && (h in m.table && h !in o.m.table ==> m.closing || (th.Sd? && th.dp.Unlink?))
    && (b'.state == NULL ==> b.state == NULL || b.state == STOPPED || m.closing)
    && (b.killer.Some? && b.killer != Some(t) ==> KilledByOther(m, o.m, h))
    && (b'.killer.Some? ==>
          (b'.killer == b.killer && b.killer != Some(t)) || (b'.killer == Some(t) && Kills(o.th, h)) ||
          (Spawns(th) && th.h == h && b'.killer == Some(ch.tid)))
    && (b.winner.Some? ==> b'.winner == b.winner)
    && ((b'.cookie != b.cookie || b'.force != b.force) ==> Recording(th, h))
    && (Recorded(b') || (b'.winner.value.tid == t && Recording(o.th, h)) ||
        (b'.winner == b.winner && b.winner.value.tid != t && !Recorded(b)))
    && (b'.freed && !b.freed ==> th == Sd(h, Free))
    && b.wins <= b'.wins && b.spawns <= b'.spawns
  }

  /** Another thread shuts `h` down: only counters change, and what the final walk does. */
  predicate KilledByOther(m: Shared, m': Shared, h: Hid)
    requires h in m.hs && h in m'.hs
  {
    var b, b' := m.hs[h], m'.hs[h];
    && b' == b.(refcount := b'.refcount, clients := b'.clients, destroyed := b'.destroyed, state := b'.state)
    && (h !in m.table || !m'.closing ==> b'.state == b.state && (h in m.table <==> h in m'.table))
  }

  /** What the step of thread `t` needs to know about the bucket `h`. */
  predicate HandlePre(m: Shared, t: Tid, th: Thread, h: Hid) {
    && h in m.hs && BucketOk(m, h)
    && (Serves(th).Some? && Serves(th).value in m.es ==> m.es[Serves(th).value].connected)
    && (PhaseOf(th, h).Live? ==> m.hs[h].state == RUNNING || m.hs[h].state == STOPPING)
    && (!Recorded(m.hs[h]) && m.hs[h].winner.value.tid == t ==> Recording(th, h))
    && (m.hs[h].killer == Some(t) ==> Kills(th, h))
    && (th.Gd? ==> (m.closing <==> th.gp.GFree? || th.gp.GDone?))
    && (th.Gd? && th.gp.GWalk? ==> h in m.table ==> m.hs[h].pe)
    && (th.Sd? && th.dp.Unlink? && th.h in m.hs && h in m.table && h != th.h ==> m.hs[h].name != m.hs[th.h].name)
  }

  /** What the step of a thread does to the bucket `h`. */
  predicate HandleStep(m: Shared, t: Tid, th: Thread, ch: Choice, o: Out, h: Hid)
    requires h in m.hs
  {
    && h in o.m.hs
    && DeleteStep(m, t, th, ch, o, h)
    && BucketOk(o.m, h)
    && (m.inProgress ==> o.m.inProgress) && (m.closing ==> o.m.closing)
  }

  /** The steps that touch at most the counters of existing buckets. */
  predicate QuietPc(th: Thread) {
    !th.Sd? && !th.Gd? &&
    (th.Pair? ==> !th.pp.DelCas? && !th.pp.DelCookie? && !th.pp.DelForce? && !th.pp.MaybeCas? && !th.pp.MaybeSpawn?)
  }

  predicate Quiet(m: Shared, o: Out, h: Hid) {
    && h in m.hs && h in o.m.hs
    && o.m.hs[h] == m.hs[h].(refcount := o.m.hs[h].refcount, clients := o.m.hs[h].clients)
    && (h in m.table <==> h in o.m.table)
    && o.m.inProgress == m.inProgress && o.m.closing == m.closing && o.m.cfg == m.cfg
  }

  lemma QuietKeeps(m: Shared, t: Tid, th: Thread, ch: Choice, o: Out, h: Hid)
    requires HandlePre(m, t, th, h) && Quiet(m, o, h) && QuietPc(th)
    ensures HandleStep(m, t, th, ch, o, h)
  {
  }

  lemma QuietFind(m: Shared, t: Tid, th: Thread, ch: Choice, h: Hid)
    requires th.Find? && (th.fp.Lookup? || th.fp.ReadState? || th.fp.Retain?)
    requires Ready(m, th, ch) && Defined(m, th) && h in m.hs
    ensures Quiet(m, StepFind(m, t, th, ch), h)
  {
  }

  lemma QuietDefault(m: Shared, t: Tid, th: Thread, ch: Choice, h: Hid)
    requires th.Find? && (th.fp.DefState? || th.fp.DefRetain?) && Ready(m, th, ch) && Defined(m, th) && h in m.hs
    ensures Quiet(m, StepFind(m, t, th, ch), h)
  {
  }

  lemma QuietCreate(m: Shared, t: Tid, th: Thread, ch: Choice, h: Hid)
    requires th.Find? && th.fp.Link? && Ready(m, th, ch) && Defined(m, th) && h in m.hs
    ensures Quiet(m, StepFind(m, t, th, ch), h)
  {
  }

  lemma QuietSet(m: Shared, th: Thread, h: Hid)
    requires th.SetHandle? && Defined(m, th) && h in m.hs
    ensures Quiet(m, StepSet(m, th), h)
  {
  }

  lemma QuietRel(m: Shared, th: Thread, h: Hid)
    requires th.Rel? && Defined(m, th) && h in m.hs
    ensures Quiet(m, StepRel(m, th), h)
  {
  }

  lemma QuietStart(m: Shared, t: Tid, th: Thread, ch: Choice, h: Hid)
    requires th.Rc? || th.Idle? || th.Begin?
    requires Ready(m, th, ch) && Defined(m, th) && h in m.hs && (th.Idle? ==> StartOk(m, ch.op))
    ensures Quiet(m, StepOut(m, t, th, ch), h)
  {
  }

  lemma QuietGet(m: Shared, t: Tid, th: Thread, ch: Choice, h: Hid)
    requires th.Pair? && GetPc(th.pp) && Defined(m, th) && h in m.hs
    ensures Quiet(m, StepGet(m, th, ch), h)
  {
  }

  lemma QuietEnd(m: Shared, t: Tid, th: Thread, ch: Choice, h: Hid)
    requires th.Pair? && EndPc(th.pp) && QuietPc(th) && Defined(m, th) && h in m.hs
    ensures Quiet(m, StepEnd(m, t, th, ch), h)
  {
  }

  lemma QuietDel(m: Shared, t: Tid, th: Thread, ch: Choice, h: Hid)
    requires th.Pair? && (th.pp.DelIncr? || th.pp.DelUnbind? || DisPc(th.pp))
    requires Ready(m, th, ch) && Defined(m, th) && h in m.hs
    ensures Quiet(m, StepOut(m, t, th, ch), h)
  {
  }

  lemma QuietMove(m: Shared, t: Tid, th: Thread, ch: Choice, h: Hid)
    requires QuietPc(th) && Ready(m, th, ch) && Defined(m, th) && h in m.hs && (th.Idle? ==> StartOk(m, ch.op))
    ensures Quiet(m, StepOut(m, t, th, ch), h)
  {
    if th.Find? {
      if th.fp.Link? { QuietCreate(m, t, th, ch, h); }
      else if th.fp.DefState? || th.fp.DefRetain? { QuietDefault(m, t, th, ch, h); }
      else { QuietFind(m, t, th, ch, h); }
    } else if th.SetHandle? { QuietSet(m, th, h); }
    else if th.Rel? { QuietRel(m, th, h); }
    else if th.Pair? {
      if GetPc(th.pp) { QuietGet(m, t, th, ch, h); } else if EndPc(th.pp) { QuietEnd(m, t, th, ch, h); }
      else { QuietDel(m, t, th, ch, h); }
    } else { QuietStart(m, t, th, ch, h); }
  }

  /** The step of a thread and the phase that it is in for the bucket `h`. */
  predicate PhaseMove(m: Shared, th: Thread, o: Out, h: Hid) {
    h in m.hs && h in o.m.hs && PhaseStep(m.hs[h], PhaseOf(th, h), o.m.hs[h], PhaseOf(o.th, h))
  }

  lemma PhaseFind(m: Shared, t: Tid, th: Thread, ch: Choice, h: Hid)
    requires th.Find? && Ready(m, th, ch) && Defined(m, th) && h in m.hs
    ensures PhaseMove(m, th, StepFind(m, t, th, ch), h)
  {
  }

  lemma PhaseAway(m: Shared, t: Tid, th: Thread, ch: Choice, h: Hid)
    requires !th.Pair? && !th.Sd? && !th.Gd? && !th.Find?
    requires Ready(m, th, ch) && Defined(m, th) && h in m.hs && (th.Idle? ==> StartOk(m, ch.op))
    ensures PhaseMove(m, th, StepOut(m, t, th, ch), h)
  {
  }

  lemma PhaseShutdown(m: Shared, t: Tid, th: Thread, h: Hid)
    requires th.Sd? && HandlesIn(th, m.hs) && h in m.hs
    ensures PhaseMove(m, th, StepSd(m, t, th), h)
  {
    if !SdFirst(th.dp) { PhaseShutdownWait(m, t, th, h); }
  }

  lemma PhaseShutdownWait(m: Shared, t: Tid, th: Thread, h: Hid)
    requires th.Sd? && !SdFirst(th.dp) && HandlesIn(th, m.hs) && h in m.hs
    ensures PhaseMove(m, th, StepSd(m, t, th), h)
  {
  }

  lemma PhaseGlobal(m: Shared, t: Tid, th: Thread, ch: Choice, h: Hid)
    requires th.Gd? && Defined(m, th) && h in m.hs
    ensures PhaseMove(m, th, StepGd(m, t, th), h)
  {
  }

  lemma PhaseGet(m: Shared, t: Tid, th: Thread, ch: Choice, h: Hid)
    requires th.Pair? && GetPc(th.pp) && Defined(m, th) && h in m.hs
    ensures PhaseMove(m, th, StepGet(m, th, ch), h)
  {
  }

  lemma PhaseDel(m: Shared, t: Tid, th: Thread, ch: Choice, h: Hid)
    requires th.Pair? && !GetPc(th.pp) && !EndPc(th.pp)
    requires Ready(m, th, ch) && Defined(m, th) && h in m.hs
    ensures PhaseMove(m, th, StepOut(m, t, th, ch), h)
  {
  }

  lemma PhaseEnd(m: Shared, t: Tid, th: Thread, ch: Choice, h: Hid)
    requires th.Pair? && (th.pp.EndDecr? || th.pp.EndState?)
    requires Ready(m, th, ch) && Defined(m, th) && h in m.hs
    ensures PhaseMove(m, th, StepEnd(m, t, th, ch), h)
  {
  }

  lemma PhaseMaybe(m: Shared, t: Tid, th: Thread, ch: Choice, h: Hid)
    requires th.Pair? && EndPc(th.pp) && !th.pp.EndDecr? && !th.pp.EndState?
    requires Ready(m, th, ch) && Defined(m, th) && h in m.hs
    ensures PhaseMove(m, th, StepEnd(m, t, th, ch), h)
  {
  }

  lemma HandleCas(m: Shared, t: Tid, th: Thread, ch: Choice, h: Hid)
    requires th.Pair? && th.pp.MaybeCas? && StageOk(m, t, th) && Defined(m, th) && HandlePre(m, t, th, h)
    ensures HandleStep(m, t, th, ch, StepEnd(m, t, th, ch), h)
  {
    if h == th.h { assert m.hs[h].state == STOPPING ==> m.hs[h].killer.None?; }
  }

  lemma HandleSpawn(m: Shared, t: Tid, th: Thread, ch: Choice, h: Hid)
    requires th.Pair? && th.pp.MaybeSpawn? && StageOk(m, t, th) && Defined(m, th) && HandlePre(m, t, th, h)
    ensures HandleStep(m, t, th, ch, StepEnd(m, t, th, ch), h)
  {
  }

  lemma HandleDelWins(m: Shared, t: Tid, th: Thread, ch: Choice)
    requires th.Pair? && th.pp.DelCas? && StageOk(m, t, th) && Defined(m, th) && HandlePre(m, t, th, th.h)
    requires m.hs[th.h].state == RUNNING
    ensures HandleStep(m, t, th, ch, StepDel(m, t, th), th.h)
  {
  }

  lemma HandleDelCas(m: Shared, t: Tid, th: Thread, ch: Choice, h: Hid)
    requires th.Pair? && th.pp.DelCas? && StageOk(m, t, th) && Defined(m, th) && HandlePre(m, t, th, h)
    ensures HandleStep(m, t, th, ch, StepDel(m, t, th), h)
  {
    if h == th.h && m.hs[h].state == RUNNING {
      HandleDelWins(m, t, th, ch);
    } else {
      assert StepDel(m, t, th).m.hs[h] == m.hs[h];
    }
  }

  lemma HandleRecord(m: Shared, t: Tid, th: Thread, ch: Choice, h: Hid)
    requires th.Pair? && (th.pp.DelCookie? || th.pp.DelForce?)
    requires StageOk(m, t, th) && Defined(m, th) && HandlePre(m, t, th, h)
    ensures HandleStep(m, t, th, ch, StepDel(m, t, th), h)
  {
  }

  lemma HandleSdUp(m: Shared, t: Tid, th: Thread, ch: Choice, h: Hid)
    requires th.Sd? && SdFirst(th.dp)
    requires StageOk(m, t, th) && Ready(m, th, ch) && Defined(m, th) && HandlePre(m, t, th, h)
    ensures HandleStep(m, t, th, ch, StepSd(m, t, th), h)
  {
  }

  lemma HandleSdWait(m: Shared, t: Tid, th: Thread, ch: Choice, h: Hid)
    requires th.Sd? && SdWaits(th.dp)
    requires StageOk(m, t, th) && Ready(m, th, ch) && Defined(m, th) && HandlePre(m, t, th, h)
    ensures HandleStep(m, t, th, ch, StepSd(m, t, th), h)
  {
  }

  lemma HandleSdDown(m: Shared, t: Tid, th: Thread, ch: Choice, h: Hid)
    requires th.Sd? && !SdFirst(th.dp) && !SdWaits(th.dp)
    requires StageOk(m, t, th) && Ready(m, th, ch) && Defined(m, th) && HandlePre(m, t, th, h)
    ensures HandleStep(m, t, th, ch, StepSd(m, t, th), h)
  {
    if !th.dp.Free? { assert StepSd(m, t, th).m.hs == m.hs; }
  }

  lemma HandleGd(m: Shared, t: Tid, th: Thread, ch: Choice, h: Hid)
    requires th.Gd? && StageOk(m, t, th) && Defined(m, th) && HandlePre(m, t, th, h)
    ensures HandleStep(m, t, th, ch, StepGd(m, t, th), h)
  {
    if th.gp.GWalk? || th.gp.GFree? { HandleWalk(m, t, th, ch, h); }
  }

  lemma HandleWalk(m: Shared, t: Tid, th: Thread, ch: Choice, h: Hid)
    requires th.Gd? && (th.gp.GWalk? || th.gp.GFree?) && StageOk(m, t, th) && HandlePre(m, t, th, h)
    ensures HandleStep(m, t, th, ch, StepGd(m, t, th), h)
  {
  }

  lemma RefStart(m: Shared, t: Tid, th: Thread, ch: Choice, h: Hid)
    requires th.Idle? && ThreadOk(m, t, th) && StageOk(m, t, th) && Defined(m, th) && h in m.hs
    requires StartOk(m, ch.op)
    ensures RefStep(m, th, StepStart(m, ch), h) && NoRevival(m, th, StepStart(m, ch), h)
  {
  }

  lemma RefDefault(m: Shared, t: Tid, th: Thread, ch: Choice, h: Hid)
    requires th.Find? && (th.fp.DefState? || th.fp.DefRetain?)
    requires ThreadOk(m, t, th) && StageOk(m, t, th) && Ready(m, th, ch) && Defined(m, th) && h in m.hs
    ensures RefStep(m, th, StepFind(m, t, th, ch), h) && NoRevival(m, th, StepFind(m, t, th, ch), h)
  {
  }

  lemma RefRetain(m: Shared, t: Tid, th: Thread, ch: Choice, h: Hid)
    requires th.Find? && th.fp.Retain?
    requires ThreadOk(m, t, th) && StageOk(m, t, th) && Ready(m, th, ch) && Defined(m, th) && h in m.hs
    ensures RefStep(m, th, StepFind(m, t, th, ch), h) && NoRevival(m, th, StepFind(m, t, th, ch), h)
  {
  }

  lemma RefLookup(m: Shared, t: Tid, th: Thread, ch: Choice, h: Hid)
    requires th.Find? && th.fp.Lookup? && StageOk(m, t, th) && Ready(m, th, ch) && Defined(m, th) && h in m.hs
    ensures RefStep(m, th, StepFind(m, t, th, ch), h) && NoRevival(m, th, StepFind(m, t, th, ch), h)
  {
  }

  lemma RefReadState(m: Shared, t: Tid, th: Thread, ch: Choice, h: Hid)
    requires th.Find? && th.fp.ReadState? && StageOk(m, t, th) && Ready(m, th, ch) && Defined(m, th) && h in m.hs
    ensures RefStep(m, th, StepFind(m, t, th, ch), h) && NoRevival(m, th, StepFind(m, t, th, ch), h)
  {
  }

  lemma RefCreate(m: Shared, t: Tid, th: Thread, ch: Choice, h: Hid)
    requires th.Find? && (th.fp.Link?) && StageOk(m, t, th) && Ready(m, th, ch) && Defined(m, th) && h in m.hs
    ensures RefStep(m, th, StepFind(m, t, th, ch), h) && NoRevival(m, th, StepFind(m, t, th, ch), h)
  {
  }

  lemma RefSet(m: Shared, t: Tid, th: Thread, ch: Choice, h: Hid)
    requires th.SetHandle? && !th.sp.Store? && ThreadOk(m, t, th) && StageOk(m, t, th) && Defined(m, th) && h in m.hs
    ensures RefStep(m, th, StepSet(m, th), h) && NoRevival(m, th, StepSet(m, th), h)
  {
  }

  lemma RefStore(m: Shared, t: Tid, th: Thread, ch: Choice, h: Hid)
    requires th.SetHandle? && th.sp.Store?
    requires ThreadOk(m, t, th) && StageOk(m, t, th) && Defined(m, th) && HandlePre(m, t, th, h)
    ensures RefStep(m, th, StepSet(m, th), h) && NoRevival(m, th, StepSet(m, th), h)
  {
  }

  lemma RefPrev(m: Shared, t: Tid, th: Thread, ch: Choice, h: Hid)
    requires th.Rel? && th.rp.Prev? && ThreadOk(m, t, th) && StageOk(m, t, th) && Defined(m, th) && h in m.hs
    ensures RefStep(m, th, StepRel(m, th), h) && NoRevival(m, th, StepRel(m, th), h)
  {
  }

  lemma RefLast(m: Shared, t: Tid, th: Thread, ch: Choice, h: Hid)
    requires th.Rel? && th.rp.Last? && ThreadOk(m, t, th) && StageOk(m, t, th) && Defined(m, th) && h in m.hs
    ensures RefStep(m, th, StepRel(m, th), h) && NoRevival(m, th, StepRel(m, th), h)
  {
  }

  lemma RefZero(m: Shared, t: Tid, th: Thread, ch: Choice, h: Hid)
    requires th.Rel? && (th.rp.PrevZero? || th.rp.LastZero?)
    requires ThreadOk(m, t, th) && StageOk(m, t, th) && Defined(m, th) && h in m.hs
    ensures RefStep(m, th, StepRel(m, th), h) && NoRevival(m, th, StepRel(m, th), h)
  {
  }

  lemma RefBegin(m: Shared, t: Tid, th: Thread, ch: Choice, h: Hid)
    requires th.Begin? && StageOk(m, t, th) && Defined(m, th) && h in m.hs
    ensures RefStep(m, th, StepBegin(m, th), h) && NoRevival(m, th, StepBegin(m, th), h)
  {
  }

  lemma RefGet(m: Shared, t: Tid, th: Thread, ch: Choice, h: Hid)
    requires th.Pair? && GetPc(th.pp)
    requires ThreadOk(m, t, th) && StageOk(m, t, th) && Ready(m, th, ch) && Defined(m, th) && HandlePre(m, t, th, h)
    ensures RefStep(m, th, StepGet(m, th, ch), h) && NoRevival(m, th, StepGet(m, th, ch), h)
  {
  }

  lemma RefDecr(m: Shared, t: Tid, th: Thread, ch: Choice, h: Hid)
    requires th.Pair? && th.pp.EndDecr? && StageOk(m, t, th) && Defined(m, th) && h in m.hs
    ensures RefStep(m, th, StepEnd(m, t, th, ch), h) && NoRevival(m, th, StepEnd(m, t, th, ch), h)
  {
  }

  lemma RefState(m: Shared, t: Tid, th: Thread, ch: Choice, h: Hid)
    requires th.Pair? && (th.pp.EndState? || th.pp.MaybeState?) && StageOk(m, t, th) && Defined(m, th) && h in m.hs
    ensures RefStep(m, th, StepEnd(m, t, th, ch), h) && NoRevival(m, th, StepEnd(m, t, th, ch), h)
  {
  }

  lemma RefCas(m: Shared, t: Tid, th: Thread, ch: Choice, h: Hid)
    requires th.Pair? && (th.pp.MaybeClients? || th.pp.MaybeCas?) && StageOk(m, t, th) && Defined(m, th) && h in m.hs
    ensures RefStep(m, th, StepEnd(m, t, th, ch), h) && NoRevival(m, th, StepEnd(m, t, th, ch), h)
  {
  }

  lemma RefSpawn(m: Shared, t: Tid, th: Thread, ch: Choice, h: Hid)
    requires th.Pair? && th.pp.MaybeSpawn? && StageOk(m, t, th) && Defined(m, th) && h in m.hs
    ensures RefStep(m, th, StepEnd(m, t, th, ch), h) && NoRevival(m, th, StepEnd(m, t, th, ch), h)
  {
  }

  lemma RefDelCas(m: Shared, t: Tid, th: Thread, ch: Choice, h: Hid)
    requires th.Pair? && (th.pp.DelIncr? || th.pp.DelCas?) && StageOk(m, t, th) && Defined(m, th) && h in m.hs
    ensures RefStep(m, th, StepDel(m, t, th), h) && NoRevival(m, th, StepDel(m, t, th), h)
  {
  }

  lemma RefRecord(m: Shared, t: Tid, th: Thread, ch: Choice, h: Hid)
    requires th.Pair? && (th.pp.DelCookie? || th.pp.DelForce?) && StageOk(m, t, th) && Defined(m, th) && h in m.hs
    ensures RefStep(m, th, StepDel(m, t, th), h) && NoRevival(m, th, StepDel(m, t, th), h)
  {
  }

  lemma RefUnbind(m: Shared, t: Tid, th: Thread, ch: Choice, h: Hid)
    requires th.Pair? && th.pp.DelUnbind?
    requires ThreadOk(m, t, th) && StageOk(m, t, th) && Defined(m, th) && HandlePre(m, t, th, h)
    ensures RefStep(m, th, StepDel(m, t, th), h) && NoRevival(m, th, StepDel(m, t, th), h)
  {
  }

  lemma RefDis(m: Shared, t: Tid, th: Thread, ch: Choice, h: Hid)
    requires th.Pair? && DisPc(th.pp)
    requires ThreadOk(m, t, th) && StageOk(m, t, th) && Defined(m, th) && HandlePre(m, t, th, h)
    ensures RefStep(m, th, StepDis(m, th), h) && NoRevival(m, th, StepDis(m, th), h)
  {
  }

  lemma RefRc(m: Shared, t: Tid, th: Thread, ch: Choice, h: Hid)
    requires th.Rc? && ThreadOk(m, t, th) && StageOk(m, t, th) && Defined(m, th) && h in m.hs
    ensures RefStep(m, th, StepRc(m, th), h) && NoRevival(m, th, StepRc(m, th), h)
  {
  }

  lemma RefSdUp(m: Shared, t: Tid, th: Thread, ch: Choice, h: Hid)
    requires th.Sd? && SdFirst(th.dp)
    requires StageOk(m, t, th) && Ready(m, th, ch) && Defined(m, th) && HandlePre(m, t, th, h)
    ensures RefStep(m, th, StepSd(m, t, th), h) && NoRevival(m, th, StepSd(m, t, th), h)
  {
  }

  lemma RefSdWait(m: Shared, t: Tid, th: Thread, ch: Choice, h: Hid)
    requires th.Sd? && SdWaits(th.dp) && StageOk(m, t, th) && Ready(m, th, ch) && Defined(m, th) && h in m.hs
    ensures RefStep(m, th, StepSd(m, t, th), h) && NoRevival(m, th, StepSd(m, t, th), h)
  {
  }

  lemma RefSdDown(m: Shared, t: Tid, th: Thread, ch: Choice, h: Hid)
    requires th.Sd? && !SdFirst(th.dp) && !SdWaits(th.dp)
    requires StageOk(m, t, th) && Ready(m, th, ch) && Defined(m, th) && HandlePre(m, t, th, h)
    ensures RefStep(m, th, StepSd(m, t, th), h) && NoRevival(m, th, StepSd(m, t, th), h)
  {
  }

  lemma RefGd(m: Shared, t: Tid, th: Thread, ch: Choice, h: Hid)
    requires th.Gd? && StageOk(m, t, th) && Defined(m, th) && HandlePre(m, t, th, h)
    ensures RefStep(m, th, StepGd(m, t, th), h) && NoRevival(m, th, StepGd(m, t, th), h)
  {
  }

  lemma RefPair(m: Shared, t: Tid, th: Thread, ch: Choice, h: Hid)
    requires th.Pair? && ThreadOk(m, t, th) && StageOk(m, t, th) && Ready(m, th, ch) && Defined(m, th)
    requires HandlePre(m, t, th, h)
    ensures var o := StepOut(m, t, th, ch); RefStep(m, th, o, h) && NoRevival(m, th, o, h)
  {
    var pp := th.pp;
    if GetPc(pp) { RefGet(m, t, th, ch, h); }
    else if pp.EndDecr? { RefDecr(m, t, th, ch, h); }
    else if pp.EndState? || pp.MaybeState? { RefState(m, t, th, ch, h); }
    else if pp.MaybeClients? || pp.MaybeCas? { RefCas(m, t, th, ch, h); }
    else if pp.MaybeSpawn? { RefSpawn(m, t, th, ch, h); }
    else if pp.DelUnbind? { RefUnbind(m, t, th, ch, h); }
    else if pp.DelIncr? || pp.DelCas? { RefDelCas(m, t, th, ch, h); }
    else if pp.DelCookie? || pp.DelForce? { RefRecord(m, t, th, ch, h); }
    else { RefDis(m, t, th, ch, h); }
  }

  lemma RefMove(m: Shared, t: Tid, th: Thread, ch: Choice, h: Hid)
    requires ThreadOk(m, t, th) && StageOk(m, t, th) && Ready(m, th, ch) && Defined(m, th) && HandlePre(m, t, th, h)
    requires th.Idle? ==> StartOk(m, ch.op)
    ensures var o := StepOut(m, t, th, ch); RefStep(m, th, o, h) && NoRevival(m, th, o, h)
  {
    match th
    case Idle => RefStart(m, t, th, ch, h);
    case Find(_, fp) =>
      if fp.Link? { RefCreate(m, t, th, ch, h); } else if fp.Retain? { RefRetain(m, t, th, ch, h); }
      else if fp.DefState? || fp.DefRetain? { RefDefault(m, t, th, ch, h); }
      else if fp.Lookup? { RefLookup(m, t, th, ch, h); } else { RefReadState(m, t, th, ch, h); }
    case SetHandle(_, _, sp) => if sp.Store? { RefStore(m, t, th, ch, h); } else { RefSet(m, t, th, ch, h); }
    case Rel(_, _, rp) =>
      if rp.Prev? { RefPrev(m, t, th, ch, h); } else if rp.Last? { RefLast(m, t, th, ch, h); }
      else { RefZero(m, t, th, ch, h); }
    case Begin(_) => RefBegin(m, t, th, ch, h);
    case Pair(_, _, _) => RefPair(m, t, th, ch, h);
    case Rc(_, _) => RefRc(m, t, th, ch, h);
    case Sd(_, dp) =>
      if SdFirst(dp) { RefSdUp(m, t, th, ch, h); } else if SdWaits(dp) { RefSdWait(m, t, th, ch, h); }
      else { RefSdDown(m, t, th, ch, h); }
    case Gd(_) => RefGd(m, t, th, ch, h);
  }

  lemma HandleMove(m: Shared, t: Tid, th: Thread, ch: Choice, h: Hid)
    requires ThreadOk(m, t, th) && StageOk(m, t, th) && Ready(m, th, ch) && Defined(m, th) && HandlePre(m, t, th, h)
    requires th.Idle? ==> StartOk(m, ch.op)
    ensures HandleStep(m, t, th, ch, StepOut(m, t, th, ch), h) && PhaseMove(m, th, StepOut(m, t, th, ch), h)
  {
    if QuietPc(th) {
      QuietMove(m, t, th, ch, h);
      QuietKeeps(m, t, th, ch, StepOut(m, t, th, ch), h);
    } else if th.Pair? {
      if th.pp.MaybeCas? { HandleCas(m, t, th, ch, h); } else if th.pp.MaybeSpawn? { HandleSpawn(m, t, th, ch, h); }
      else if th.pp.DelCas? { HandleDelCas(m, t, th, ch, h); } else { HandleRecord(m, t, th, ch, h); }
    } else if th.Gd? {
      HandleGd(m, t, th, ch, h);
    } else if SdFirst(th.dp) {
      HandleSdUp(m, t, th, ch, h);
    } else if SdWaits(th.dp) {
      HandleSdWait(m, t, th, ch, h);
    } else {
      HandleSdDown(m, t, th, ch, h);
    }
    if th.Pair? {
      if th.pp.EndDecr? || th.pp.EndState? { PhaseEnd(m, t, th, ch, h); }
      else if EndPc(th.pp) { PhaseMaybe(m, t, th, ch, h); }
      else if GetPc(th.pp) { PhaseGet(m, t, th, ch, h); }
      else { PhaseDel(m, t, th, ch, h); }
    } else if th.Sd? {
      PhaseShutdown(m, t, th, h);
    } else if th.Gd? {
      PhaseGlobal(m, t, th, ch, h);
    } else if th.Find? {
      PhaseFind(m, t, th, ch, h);
    } else {
      PhaseAway(m, t, th, ch, h);
    }
  }

  // ----------------------------------------------------------------------------------------
  // The stepping thread keeps its stage

  /** What the step of thread `t` needs to know about the bucket it works on. */
  ghost predicate StagePre(m: Shared, t: Tid, th: Thread, ch: Choice) {
    && ThreadOk(m, t, th) && DomOk(m) && StageOk(m, t, th) && Ready(m, th, ch) && Defined(m, th)
    && (m.closing ==> m.inProgress && !IsClient(th))
    && (th.Pair? || th.Sd? ==> th.h in m.hs && BucketOk(m, th.h))
    && (th.Sd? && th.dp.Unlink? ==> th.h in m.hs && SameName(m, m.hs[th.h].name) == {th.h})
    && (th.Idle? ==> StartOk(m, ch.op))
    && (th.Find? && th.fp.Lookup? && ch.h.Some? ==> BucketOk(m, ch.h.value))
  }

  lemma StageAttach(m: Shared, t: Tid, th: Thread, ch: Choice)
    requires !th.Pair? && !th.Sd? && StagePre(m, t, th, ch)
    ensures var o := StepOut(m, t, th, ch); StageOk(o.m, t, o.th)
  {
  }

  lemma StagePair(m: Shared, t: Tid, th: Thread, ch: Choice)
    requires th.Pair? && (GetPc(th.pp) || DelPc(th.pp) || DisPc(th.pp)) && StagePre(m, t, th, ch)
    ensures var o := StepOut(m, t, th, ch); StageOk(o.m, t, o.th)
  {
  }

  lemma StageEnd(m: Shared, t: Tid, th: Thread, ch: Choice)
    requires th.Pair? && EndPc(th.pp) && StagePre(m, t, th, ch)
    ensures var o := StepEnd(m, t, th, ch); StageOk(o.m, t, o.th)
    ensures th.pp.MaybeSpawn? ==> StageOk(StepEnd(m, t, th, ch).m, ch.tid, Sd(th.h, Enter))
  {
  }

  lemma StageSdUp(m: Shared, t: Tid, th: Thread, ch: Choice)
    requires th.Sd? && SdFirst(th.dp) && StagePre(m, t, th, ch)
    ensures var o := StepSd(m, t, th); StageOk(o.m, t, o.th)
  {
  }

  lemma StageSdDown(m: Shared, t: Tid, th: Thread, ch: Choice)
    requires th.Sd? && !SdFirst(th.dp) && StagePre(m, t, th, ch)
    ensures var o := StepSd(m, t, th); StageOk(o.m, t, o.th)
  {
  }

  lemma StageMove(m: Shared, t: Tid, th: Thread, ch: Choice)
    requires StagePre(m, t, th, ch)
    ensures var o := StepOut(m, t, th, ch); StageOk(o.m, t, o.th)
    ensures Spawns(th) ==> StageOk(StepOut(m, t, th, ch).m, ch.tid, Sd(th.h, Enter))
  {
    if th.Pair? {
      if EndPc(th.pp) { StageEnd(m, t, th, ch); } else { StagePair(m, t, th, ch); }
    } else if th.Sd? {
      if SdFirst(th.dp) { StageSdUp(m, t, th, ch); } else { StageSdDown(m, t, th, ch); }
    } else {
      StageAttach(m, t, th, ch);
    }
  }
}
