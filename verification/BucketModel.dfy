/**
 The bucket lifecycle protocol of bucket_engine as a small-step transition system.

 Every atomic increment, decrement, compare-and-swap and every unlocked read or write of a
 shared field is one step of one thread.  A critical section whose data is only ever touched
 under its mutex is one step that is enabled when the mutex is free; where an unlocked field is
 read or written inside a critical section, the section is several steps and the mutex is held
 between them.  Memory is sequentially consistent.
 */
module BucketModel {
  import opened Prelude

  type Hid = nat
  type Cookie = nat
  type Tid = nat
  type Name = string

  datatype BState = NULL | RUNNING | STOPPING | STOPPED

  /** The DELETE that changed the state from RUNNING to STOPPING. */
  datatype Winner = Winner(tid: Tid, cookie: Cookie, force: bool)

  /** A proxied engine handle.  `pe` says that the engine pointer is not NULL; the fields from
      `freed` on are history that no step reads. */
  datatype Bucket = Bucket(
    name: Name, state: BState, refcount: int, clients: int, cookie: Option<Cookie>, force: bool, pe: bool,
    freed: bool, destroyed: nat, notified: nat, wins: nat, winner: Option<Winner>,
    killer: Option<Tid>, spawns: nat)

  /** An engine_specific: `connected` is the ES_CONNECTED_FLAG part of `reserved`, `resv` the rest. */
  datatype Conn = Conn(peh: Option<Hid>, connected: bool, resv: nat)

  datatype Op =
    | Connect(c: Cookie)
    | Select(c: Cookie, name: Name, auto: bool)  // SELECT_BUCKET; ON_AUTH, with auto_create
    | Create(name: Name)
    | Delete(c: Cookie, name: Name, force: bool)
    | Call(c: Cookie)
    | Disconnect(c: Cookie)
    | ReleaseCookie(c: Cookie)
    | Destroy

  // Program counters, with the locals that are live there.

  /** find_bucket, create_bucket_UNLOCKED, and retaining the default engine on connect. */
  datatype FindPc =
    | Lookup | ReadState(h: Hid) | Retain(h: Hid) | Link | DefState(h: Hid) | DefRetain(h: Hid)

  /** create_engine_specific and set_engine_handle. */
  datatype SetPc = NewEs | TestRunning | RetainNew | Store(taken: Option<Hid>)

  /** release_handle: first of the previous binding, then of the reference from find_bucket. */
  datatype RelPc = Prev(prev: Option<Hid>) | PrevZero(rel: Hid) | Last | LastZero(rel: Hid)

  /** get_engine_handle .. release_engine_handle, with what a DELETE or a disconnect does around. */
  datatype PairPc =
    | GetIncr | GetState | InEngine | ResState | ResRef | ResEs
    | DelIncr | DelCas | DelCookie | DelForce
    | EndDecr(live: bool) | EndState | MaybeState | MaybeClients | MaybeCas | MaybeSpawn
    | DelUnbind | DisCheck | DisClear

  /** engine_shutdown_thread. */
  datatype SdPc =
    | Enter | DestroyEngine | Unlink | Drop | DropZero | SetNull | Notify
    | Wait | TestRef | TestProgress | Asleep | Leave | Free | Uncount | Dead | Skipped

  /** bucket_destroy. */
  datatype GdPc = GEnter | GAsleep | GTest | GWalk | GFree | GDone

  /** A thread.  `found` owns the reference that find_bucket or creation returned. */
  datatype Thread =
    | Idle
    | Find(op: Op, fp: FindPc)
    | SetHandle(op: Op, found: Option<Hid>, sp: SetPc)
    | Rel(op: Op, found: Option<Hid>, rp: RelPc)
    | Begin(op: Op)
    | Pair(op: Op, h: Hid, pp: PairPc)
    | Rc(op: Op, h: Hid)
    | Sd(h: Hid, dp: SdPc)
    | Gd(gp: GdPc)

  /** default_engine, default_bucket_name and auto_create: fixed once the engine is initialised. */
  datatype Config = Config(dflt: Option<Hid>, dfltName: Option<Name>, auto: bool)

  /** The shared memory.  `eng` and `shut` own engines_mutex and shutdown.mutex; `refWait` and
      `dstWait` are the threads asleep on shutdown.refcount_cond and shutdown.cond; `closing`
      says that the final table walk has begun. */
  datatype Shared = Shared(
    cfg: Config, hs: map<Hid, Bucket>, table: set<Hid>, es: map<Cookie, Conn>,
    eng: Option<Tid>, shut: Option<Tid>, refWait: set<Tid>, dstWait: set<Tid>,
    inProgress: bool, counter: int, closing: bool)

  datatype State = State(m: Shared, th: map<Tid, Thread>)

  /** What the environment decides in a step: the bucket a lookup returned, success or failure
      of an external call, the identity of an allocated handle or thread, the next operation. */
  datatype Choice = Choice(h: Option<Hid>, ok: bool, tid: Tid, op: Op)

  // ----------------------------------------------------------------------------------------
  // Helpers

  /** The shared state and the stepping thread after a step. */
  datatype Out = Out(m: Shared, th: Thread)

  function SetB(m: Shared, h: Hid, b: Bucket): Shared { m.(hs := m.hs[h := b]) }

  function SetEs(m: Shared, c: Cookie, e: Conn): Shared { m.(es := m.es[c := e]) }

  function AddRef(m: Shared, h: Hid, n: int): Shared
    requires h in m.hs
  { SetB(m, h, m.hs[h].(refcount := m.hs[h].refcount + n)) }

  function AddClients(m: Shared, h: Hid, n: int): Shared
    requires h in m.hs
  { SetB(m, h, m.hs[h].(clients := m.hs[h].clients + n)) }

  function SameName(m: Shared, name: Name): set<Hid> {
    set x | x in m.table && x in m.hs && m.hs[x].name == name
  }

  /** The connection that a thread serves. */
  function Serves(th: Thread): Option<Cookie> {
    if th.Idle? || th.Rc? || th.Sd? || th.Gd? || th.op.Create? || th.op.Destroy? || th.op.ReleaseCookie? then None
    else Some(th.op.c)
  }

  /** The threads that are inside bucket_engine_release_cookie for `c`, before its decrement. */
  function Releasing(s: State, c: Cookie): set<Tid> {
    set t | t in s.th && s.th[t].Rc? && s.th[t].op == ReleaseCookie(c)
  }

  predicate IsClient(th: Thread) { !th.Idle? && !th.Sd? && !th.Gd? }

  /** The name that an operation passes to find_bucket or create_bucket. */
  function OpName(m: Shared, op: Op): Name {
    if op.Select? || op.Create? || op.Delete? then op.name else m.cfg.dfltName.GetOr("")
  }

  // Continuations: what follows a subroutine depends on the operation that called it.

  function AfterFind(m: Shared, op: Op, found: Option<Hid>): Thread {
    match op
    case Connect(_) => if found.None? && m.cfg.auto then Find(op, Link) else SetHandle(op, found, NewEs)
    case Select(_, _, auto) => if found.None? && auto then Find(op, Link) else SetHandle(op, found, TestRunning)
    case _ => if found.None? then Idle else Pair(op, found.value, DelIncr)
  }

  function AfterCreate(op: Op, found: Option<Hid>): Thread {
    match op
    case Connect(_) => SetHandle(op, found, NewEs)
    case Select(_, _, _) => SetHandle(op, found, TestRunning)
    case _ => Rel(op, found, Last)
  }

  function AfterEnd(op: Op, h: Hid): Thread {
    match op
    case Disconnect(_) => Pair(op, h, DisCheck)
    case Delete(_, _, _) => Pair(op, h, DelUnbind)
    case _ => Idle
  }

  function AfterPrev(op: Op, found: Option<Hid>): Thread {
    if op.Connect? || op.Select? || op.Delete? then Rel(op, found, Last) else Idle
  }

  // ----------------------------------------------------------------------------------------
  // When a step can happen

  /** What memcached guarantees when it starts an operation on an idle thread: a connection is
      served by one thread at a time, a reserved connection does not switch buckets or delete one
      of the name of its own, a cookie is released no more often than it is reserved, and nothing
      starts once the final table walk has begun. */
  predicate CanStart(s: State, op: Op) {
    && !s.m.closing
    && (!op.Create? && !op.ReleaseCookie? && !op.Destroy? ==> forall u | u in s.th :: Serves(s.th[u]) != Some(op.c))
    && (op.Connect? ==> op.c !in s.m.es)
    && (op.Select? ==> op.c in s.m.es && s.m.es[op.c].resv == 0)
    && (op.Delete? ==> MayDelete(s.m, op.c, op.name))
    && (op.Call? ==> op.c in s.m.es)
    && (op.ReleaseCookie? ==> op.c in s.m.es && |Releasing(s, op.c)| < s.m.es[op.c].resv)
    && (op.Destroy? ==> forall u | u in s.th :: !s.th[u].Gd?)
  }

  /** A DELETE by a reserved connection does not concern its own bucket. */
  predicate MayDelete(m: Shared, c: Cookie, name: Name) {
    && c in m.es
    && (m.es[c].resv == 0 || (m.es[c].peh.Some? && m.es[c].peh.value in m.hs && m.hs[m.es[c].peh.value].name != name))
  }

  /** No client connection is running: the caller's obligation for the final table walk. */
  predicate NoClients(s: State) { forall u | u in s.th :: !IsClient(s.th[u]) }

  /** A lookup result: a linked handle of that name, or nothing when there is none. */
  predicate LookupIs(m: Shared, name: Name, r: Option<Hid>) {
    if r.Some? then r.value in SameName(m, name) else SameName(m, name) == {}
  }

  /** The mutexes a thread needs next are free, and the environment's choice makes sense. */
  predicate Ready(m: Shared, th: Thread, ch: Choice) {
    && (th.Find? && th.fp.Lookup? ==> m.eng.None? && LookupIs(m, OpName(m, th.op), ch.h))
    && (th.Find? && th.fp.Link? ==> m.eng.None? && ch.h.Some? && ch.h.value !in m.hs)
    && (th.Rel? && (th.rp.PrevZero? || th.rp.LastZero?) ==> m.shut.None?)
    && (th.Pair? && th.pp.InEngine? && !ch.ok ==>  // an upcall that reserves the bound cookie
          th.op.Call? && th.op.c in m.es && m.es[th.op.c].peh.Some?)
    && (th.Sd? && th.dp.Unlink? ==> m.eng.None?)
    && (th.Sd? && (th.dp.Enter? || th.dp.DropZero? || th.dp.Wait? || th.dp.Uncount?) ==> m.shut.None?)
    && (th.Sd? ==> !th.dp.Dead? && !th.dp.Skipped?)
    && (th.Gd? && (th.gp.GEnter? || th.gp.GTest?) ==> m.shut.None?)
    && (th.Gd? ==> !th.gp.GDone?)
  }

  predicate Enabled(s: State, t: Tid, ch: Choice) {
    && t in s.th
    && Ready(s.m, s.th[t], ch)
    && (s.th[t].Idle? ==> CanStart(s, ch.op))
    && (Spawns(s.th[t]) ==> ch.tid !in s.th)
    && (s.th[t].Gd? && s.th[t].gp.GWalk? ==> NoClients(s))
  }

  predicate Spawns(th: Thread) { th.Pair? && th.pp.MaybeSpawn? }

  /** The handles that a thread's locals name exist. */
  predicate HandlesIn(th: Thread, hs: map<Hid, Bucket>) {
    match th
    case Find(_, fp) => fp.Lookup? || fp.Link? || fp.h in hs
    case SetHandle(_, found, sp) => OptIn(found, hs) && (sp.Store? ==> OptIn(sp.taken, hs))
    case Rel(_, found, rp) => OptIn(found, hs) && (rp.Prev? ==> OptIn(rp.prev, hs))
    case Pair(_, h, _) => h in hs
    case Rc(_, h) => h in hs
    case Sd(h, _) => h in hs
    case _ => true
  }

  predicate OptIn(o: Option<Hid>, hs: map<Hid, Bucket>) { o.Some? ==> o.value in hs }

  /** What a step dereferences exists.  Implied by the invariant in every reachable state. */
  predicate Defined(m: Shared, th: Thread) {
    && HandlesIn(th, m.hs)
    && (th.Idle? ==> forall c | c in m.es && m.es[c].resv > 0 :: m.es[c].peh.Some?)
    && (th.SetHandle? ==> (th.op.Connect? || th.op.Select?) && (th.sp.Store? ==> th.op.c in m.es))
    && (th.Begin? ==> th.op.Disconnect? || (th.op.Call? && th.op.c in m.es))
    && (th.Pair? && (th.pp.DelCas? || th.pp.DelCookie? || th.pp.DelForce? || th.pp.DelUnbind?) ==> th.op.Delete?)
    && (th.Pair? && (th.pp.ResEs? || th.pp.DelUnbind? || th.pp.DisCheck? || th.pp.DisClear?) ==>
          (th.op.Call? || th.op.Delete? || th.op.Disconnect?) && th.op.c in m.es)
    && (th.Rc? ==> th.op.ReleaseCookie? && th.op.c in m.es && m.es[th.op.c].resv > 0)
  }

  // ----------------------------------------------------------------------------------------
  // The steps, one function per group of program counters

  function StepStart(m: Shared, ch: Choice): Out
    requires ch.op.ReleaseCookie? ==> ch.op.c in m.es && m.es[ch.op.c].peh.Some?
  {
    var op := ch.op;
    Out(m,
        match op
        case Connect(_) =>
          if m.cfg.dfltName.Some? then Find(op, Lookup)
          else if m.cfg.dflt.Some? then Find(op, DefState(m.cfg.dflt.value))
          else SetHandle(op, None, NewEs)
        case Select(_, _, _) => Find(op, Lookup)
        case Delete(_, _, _) => Find(op, Lookup)
        case Create(_) => Find(op, Link)
        case Call(_) => Begin(op)
        case Disconnect(_) => Begin(op)
        case ReleaseCookie(c) => Rc(op, m.es[c].peh.value)
        case Destroy => Gd(GEnter))
  }

  /** A new bucket, referenced by the table and by its creator. */
  function NewBucket(name: Name): Bucket {
    Bucket(name, RUNNING, 2, 0, None, false, true, false, 0, 0, 0, None, None, 0)
  }

  /** find_bucket and create_bucket_UNLOCKED.  Until create_bucket releases engines_mutex nobody
      else can reach the new handle, so creation is one step; a creation that fails (`ch.ok` is
      false) leaves nothing behind. */
  function StepFind(m: Shared, t: Tid, th: Thread, ch: Choice): Out
    requires th.Find? && Ready(m, th, ch) && HandlesIn(th, m.hs)
  {
    var op := th.op;
    match th.fp
    case Lookup =>
      if ch.h.None? then Out(m, AfterFind(m, op, None))
      else Out(m.(eng := Some(t)), Find(op, ReadState(ch.h.value)))
    case ReadState(h) =>
      if m.hs[h].state == RUNNING then Out(m, Find(op, Retain(h)))
      else Out(m.(eng := None), AfterFind(m, op, None))
    case Retain(h) => Out(AddRef(m, h, 1).(eng := None), AfterFind(m, op, Some(h)))
    case Link =>
      var name := OpName(m, op);
      if ch.ok && SameName(m, name) == {} then
        var h := ch.h.value;
        Out(SetB(m, h, NewBucket(name)).(table := m.table + {h}), AfterCreate(op, Some(h)))
      else Out(m, AfterCreate(op, None))
    case DefState(h) =>
      Out(m, if m.hs[h].state == RUNNING then Find(op, DefRetain(h)) else SetHandle(op, None, NewEs))
    case DefRetain(h) => Out(AddRef(m, h, 1), SetHandle(op, Some(h), NewEs))
  }

  function StepSet(m: Shared, th: Thread): Out
    requires th.SetHandle? && Defined(m, th)
  {
    var SetHandle(op, found, sp) := th;
    match sp
    case NewEs => Out(SetEs(m, op.c, Conn(None, true, 0)), SetHandle(op, found, TestRunning))
    case TestRunning =>
      Out(m, SetHandle(op, found,
               if found.Some? && m.hs[found.value].state == RUNNING then RetainNew else Store(None)))
    case RetainNew =>
      if found.Some? then Out(AddRef(m, found.value, 1), SetHandle(op, found, Store(found)))
      else Out(m, SetHandle(op, found, Store(None)))
    case Store(taken) =>
      Out(SetEs(m, op.c, m.es[op.c].(peh := taken)), Rel(op, found, Prev(m.es[op.c].peh)))
  }

  function StepRel(m: Shared, th: Thread): Out
    requires th.Rel? && HandlesIn(th, m.hs)
  {
    var Rel(op, found, rp) := th;
    match rp
    case Prev(prev) =>
      if prev.None? then Out(m, AfterPrev(op, found))
      else
        var h := prev.value;
        Out(AddRef(m, h, -1), if m.hs[h].refcount - 1 == 0 then Rel(op, found, PrevZero(h)) else AfterPrev(op, found))
    case PrevZero(_) => Out(m.(refWait := {}), AfterPrev(op, found))
    case Last =>
      if found.None? then Out(m, Idle)
      else
        var h := found.value;
        Out(AddRef(m, h, -1), if m.hs[h].refcount - 1 == 0 then Rel(op, None, LastZero(h)) else Idle)
    case LastZero(_) => Out(m.(refWait := {}), Idle)
  }

  /** The first read of the binding, by get_engine_handle or handle_disconnect. */
  function StepBegin(m: Shared, th: Thread): Out
    requires th.Begin? && Defined(m, th)
  {
    var op := th.op;
    var c := op.c;
    if op.Call? then
      var h := if m.es[c].peh.Some? then m.es[c].peh else m.cfg.dflt;
      Out(m, if h.Some? then Pair(op, h.value, GetIncr) else Idle)
    else if c !in m.es then Out(m, Idle)
    else if m.es[c].peh.None? then Out(m.(es := m.es - {c}), Idle)
    else Out(m, Pair(op, m.es[c].peh.value, GetIncr))
  }

  predicate GetPc(pp: PairPc) {
    pp.GetIncr? || pp.GetState? || pp.InEngine? || pp.ResState? || pp.ResRef? || pp.ResEs?
  }

  /** get_engine_handle, the call into the engine, and bucket_engine_reserve_cookie upcalls. */
  function StepGet(m: Shared, th: Thread, ch: Choice): Out
    requires th.Pair? && GetPc(th.pp) && Defined(m, th)
  {
    var Pair(op, h, pp) := th;
    if pp.GetIncr? then Out(AddClients(m, h, 1), Pair(op, h, GetState))
    else if pp.GetState? then Out(m, Pair(op, h, if m.hs[h].state == RUNNING then InEngine else EndDecr(false)))
    else if pp.InEngine? then Out(m, Pair(op, h, if ch.ok then EndDecr(true) else ResState))
    else if pp.ResState? then Out(m, Pair(op, h, if m.hs[h].state == RUNNING && ch.ok then ResRef else InEngine))
    else if pp.ResRef? then Out(AddRef(m, h, 1), Pair(op, h, ResEs))
    else Out(SetEs(m, op.c, m.es[op.c].(resv := m.es[op.c].resv + 1)), Pair(op, h, InEngine))
  }

  predicate EndPc(pp: PairPc) {
    pp.EndDecr? || pp.EndState? || pp.MaybeState? || pp.MaybeClients? || pp.MaybeCas? || pp.MaybeSpawn?
  }

  /** release_engine_handle and maybe_start_engine_shutdown. */
  function StepEnd(m: Shared, t: Tid, th: Thread, ch: Choice): Out
    requires th.Pair? && EndPc(th.pp) && Defined(m, th)
  {
    var Pair(op, h, pp) := th;
    var b := m.hs[h];
    if pp.EndDecr? then
      Out(AddClients(m, h, -1), if b.clients - 1 == 0 then Pair(op, h, EndState) else AfterEnd(op, h))
    else if pp.EndState? then Out(m, if b.state == STOPPING then Pair(op, h, MaybeState) else AfterEnd(op, h))
    else if pp.MaybeState? then Out(m, if b.state == STOPPING then Pair(op, h, MaybeClients) else AfterEnd(op, h))
    else if pp.MaybeClients? then Out(m, if b.clients == 0 then Pair(op, h, MaybeCas) else AfterEnd(op, h))
    else if pp.MaybeCas? then
      if b.state == STOPPING then Out(SetB(m, h, b.(state := STOPPED, killer := Some(t))), Pair(op, h, MaybeSpawn))
      else Out(m, AfterEnd(op, h))
    else Out(SetB(m, h, b.(killer := Some(ch.tid), spawns := b.spawns + 1)), AfterEnd(op, h))
  }

  predicate DelPc(pp: PairPc) {
    pp.DelIncr? || pp.DelCas? || pp.DelCookie? || pp.DelForce? || pp.DelUnbind?
  }

  /** handle_delete_bucket after the lookup. */
  function StepDel(m: Shared, t: Tid, th: Thread): Out
    requires th.Pair? && DelPc(th.pp) && Defined(m, th)
  {
    var Pair(op, h, pp) := th;
    var b := m.hs[h];
    if pp.DelIncr? then Out(AddClients(m, h, 1), Pair(op, h, DelCas))
    else if pp.DelCas? then
      if b.state == RUNNING then
        var w := Winner(t, op.c, op.force);
        Out(SetB(m, h, b.(state := STOPPING, wins := b.wins + 1, winner := Some(w))), Pair(op, h, DelCookie))
      else Out(m, Pair(op, h, EndDecr(false)))
    else if pp.DelCookie? then Out(SetB(m, h, b.(cookie := Some(op.c))), Pair(op, h, DelForce))
    else if pp.DelForce? then Out(SetB(m, h, b.(force := op.force)), Pair(op, h, EndDecr(true)))
    else if m.es[op.c].peh == Some(h) then
      Out(SetEs(m, op.c, m.es[op.c].(peh := None)), Rel(op, Some(h), Prev(Some(h))))
    else Out(m, Rel(op, Some(h), Last))
  }

  predicate DisPc(pp: PairPc) { pp.DisCheck? || pp.DisClear? }

  /** handle_disconnect after its upcall. */
  function StepDis(m: Shared, th: Thread): Out
    requires th.Pair? && DisPc(th.pp) && Defined(m, th)
  {
    var Pair(op, h, pp) := th;
    var e := m.es[op.c];
    if pp.DisCheck? then Out(m, if e.connected && e.resv == 0 then Pair(op, h, DisClear) else Idle)
    else
      var es' := if e.resv == 0 then m.es - {op.c} else m.es[op.c := e.(connected := false)];
      Out(m.(es := es'), Rel(op, None, Prev(Some(h))))
  }

  /** bucket_engine_release_cookie: the decrement of `reserved`. */
  function StepRc(m: Shared, th: Thread): Out
    requires th.Rc? && Defined(m, th)
  {
    var c := th.op.c;
    Out(SetEs(m, c, m.es[c].(resv := m.es[c].resv - 1)), Rel(th.op, None, Prev(Some(th.h))))
  }

  function StepSd(m: Shared, t: Tid, th: Thread): Out
    requires th.Sd? && HandlesIn(th, m.hs)
  {
    var h := th.h;
    var b := m.hs[h];
    match th.dp
    case Enter =>
      if m.inProgress then Out(m, Sd(h, Skipped)) else Out(m.(counter := m.counter + 1), Sd(h, DestroyEngine))
    case DestroyEngine => Out(SetB(m, h, b.(destroyed := b.destroyed + 1, pe := false)), Sd(h, Unlink))
    case Unlink =>  // genhash_delete_all; the table's reference becomes this thread's to release
      Out(m.(table := m.table - SameName(m, b.name), eng := Some(t)), Sd(h, Drop))
    case Drop => Out(AddRef(m, h, -1), Sd(h, if b.refcount - 1 == 0 then DropZero else SetNull))
    case DropZero => Out(m.(refWait := {}), Sd(h, SetNull))
    case SetNull => Out(SetB(m, h, b.(state := NULL)).(eng := None), Sd(h, Notify))
    case Notify => Out(SetB(m, h, b.(notified := b.notified + if b.cookie.Some? then 1 else 0)), Sd(h, Wait))
    case Wait => Out(m.(shut := Some(t)), Sd(h, TestRef))
    case TestRef => Out(m, Sd(h, if b.refcount > 0 then TestProgress else Leave))
    case TestProgress =>
      if m.inProgress then Out(m, Sd(h, Leave))
      else Out(m.(shut := None, refWait := m.refWait + {t}), Sd(h, Asleep))
    case Asleep => Out(m.(refWait := m.refWait - {t}), Sd(h, Wait))  // woken, perhaps spuriously
    case Leave => Out(m.(shut := None), Sd(h, Free))
    case Free => Out(SetB(m, h, b.(freed := true)), Sd(h, Uncount))
    case Uncount =>
      var wake := m.inProgress && m.counter - 1 == 0;
      Out(m.(counter := m.counter - 1, dstWait := if wake then {} else m.dstWait), Sd(h, Dead))
    case Dead | Skipped => Out(m, th)
  }

  /** destroy() of every engine that the table still lists. */
  function WalkOne(m: Shared, h: Hid): Bucket
    requires h in m.hs
  {
    var b := m.hs[h];
    if h in m.table && b.pe then b.(destroyed := b.destroyed + 1) else b
  }

  /** genhash_free drops the table's references. */
  function UnlinkOne(m: Shared, h: Hid): Bucket
    requires h in m.hs
  {
    var b := m.hs[h];
    if h in m.table then b.(refcount := b.refcount - 1, state := NULL) else b
  }

  /** The loop test of bucket_destroy, made with shutdown.mutex held. */
  function TestCounter(m: Shared, t: Tid): Out {
    if m.counter == 0 then Out(m, Gd(GWalk)) else Out(m.(dstWait := m.dstWait + {t}), Gd(GAsleep))
  }

  function StepGd(m: Shared, t: Tid, th: Thread): Out
    requires th.Gd?
  {
    match th.gp
    case GEnter => TestCounter(m.(inProgress := true, refWait := {}), t)
    case GTest => TestCounter(m, t)
    case GAsleep => Out(m.(dstWait := m.dstWait - {t}), Gd(GTest))  // woken, perhaps spuriously
    case GWalk => Out(m.(hs := map h | h in m.hs :: WalkOne(m, h), closing := true), Gd(GFree))
    case GFree => Out(m.(hs := map h | h in m.hs :: UnlinkOne(m, h), table := {}), Gd(GDone))
    case GDone => Out(m, th)
  }

  function StepOut(m: Shared, t: Tid, th: Thread, ch: Choice): Out
    requires Ready(m, th, ch) && Defined(m, th)
    requires th.Idle? && ch.op.ReleaseCookie? ==> ch.op.c in m.es && m.es[ch.op.c].peh.Some?
  {
    match th
    case Idle => StepStart(m, ch)
    case Find(_, _) => StepFind(m, t, th, ch)
    case SetHandle(_, _, _) => StepSet(m, th)
    case Rel(_, _, _) => StepRel(m, th)
    case Begin(_) => StepBegin(m, th)
    case Pair(_, _, pp) =>
      if GetPc(pp) then StepGet(m, th, ch) else if EndPc(pp) then StepEnd(m, t, th, ch)
      else if DelPc(pp) then StepDel(m, t, th) else StepDis(m, th)
    case Rc(_, _) => StepRc(m, th)
    case Sd(_, _) => StepSd(m, t, th)
    case Gd(_) => StepGd(m, t, th)
  }

  /** The threads before the stepping one is updated: MaybeSpawn creates the shutdown thread. */
  function Spawned(s: State, t: Tid, ch: Choice): map<Tid, Thread>
    requires t in s.th
  { if Spawns(s.th[t]) then s.th[ch.tid := Sd(s.th[t].h, Enter)] else s.th }

  function Step(s: State, t: Tid, ch: Choice): State
    requires Enabled(s, t, ch) && Defined(s.m, s.th[t])
  {
    var o := StepOut(s.m, t, s.th[t], ch);
    State(o.m, Spawned(s, t, ch)[t := o.th])
  }

  /** After bucket_initialize: idle worker threads, an empty table, perhaps a default engine. */
  predicate Init(s: State) {
    && s.m.table == {} && s.m.es == map[] && s.m.eng.None? && s.m.shut.None?
    && s.m.refWait == {} && s.m.dstWait == {}
    && !s.m.inProgress && !s.m.closing && s.m.counter == 0
    && (forall t | t in s.th :: s.th[t].Idle?)
    && (s.m.cfg.dflt.None? ==> s.m.hs == map[])
    && (s.m.cfg.dflt.Some? ==> s.m.hs == map[s.m.cfg.dflt.value :=
          NewBucket("").(refcount := 1)])
  }

  /** One step of some thread. */
  ghost predicate Next(s: State, s': State) {
    exists t, ch :: Enabled(s, t, ch) && Defined(s.m, s.th[t]) && s' == Step(s, t, ch)
  }

  /** A run: any interleaving of any number of threads, connections and buckets. */
  ghost predicate Run(r: seq<State>) {
    && |r| > 0 && Init(r[0])
    && forall i | 0 <= i < |r| - 1 :: StepsAt(r, i)
  }

  ghost predicate StepsAt(r: seq<State>, i: nat)
    requires i + 1 < |r|
  { Next(r[i], r[i + 1]) }
}
