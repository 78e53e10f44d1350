/**
 What each operation brings about: from the end of any run in which a thread is idle and nothing
 stands in its way, the thread alone can carry the operation out, with the effect stated.
 */
module BucketEffects {
  import opened Prelude
  import opened Sums
  import opened BucketModel
  import opened BucketLocal
  import opened BucketHandle
  import opened BucketInv
  import opened BucketTheorems

  function End(r: seq<State>): State
    requires r != []
  { r[|r| - 1] }

  /** Success wherever a step asks. */
  const YES := Choice(None, true, 0, Destroy)

  function Starting(op: Op): Choice { YES.(op := op) }

  // A run goes on with any enabled step.
  lemma Go(r: seq<State>, t: Tid, ch: Choice) returns (r': seq<State>)
    requires Run(r) && Enabled(End(r), t, ch)
    ensures Run(r') && r <= r' && Defined(End(r).m, End(r).th[t]) && End(r') == Step(End(r), t, ch)
  {
    RunInv(r, |r| - 1);
    LocalDefined(End(r), t);
    r' := r + [Step(End(r), t, ch)];
    forall i | 0 <= i < |r'| - 1 ensures StepsAt(r', i) {
      if i < |r| - 1 { assert StepsAt(r, i); } else { assert Next(r'[i], r'[i + 1]); }
    }
  }

  // A step that starts no thread.
  lemma Move(r: seq<State>, t: Tid, ch: Choice) returns (r': seq<State>)
    requires Run(r) && Enabled(End(r), t, ch) && !Spawns(End(r).th[t])
    ensures Run(r') && r <= r' && Defined(End(r).m, End(r).th[t])
    ensures var s := End(r);
      var o := StepOut(s.m, t, s.th[t], ch); End(r') == State(o.m, s.th[t := o.th])
  {
    r' := Go(r, t, ch);
  }

  // The same for the parts of a call and of a deletion.
  lemma MoveGet(r: seq<State>, t: Tid, ch: Choice) returns (r': seq<State>)
    requires Run(r) && Enabled(End(r), t, ch) && End(r).th[t].Pair? && GetPc(End(r).th[t].pp)
    ensures Run(r') && r <= r' && Defined(End(r).m, End(r).th[t])
    ensures var s := End(r); var o := StepGet(s.m, s.th[t], ch); End(r') == State(o.m, s.th[t := o.th])
  {
    r' := Move(r, t, ch);
  }

  lemma MoveEnd(r: seq<State>, t: Tid) returns (r': seq<State>)
    requires Run(r) && t in End(r).th && End(r).th[t].Pair? && EndPc(End(r).th[t].pp) && !End(r).th[t].pp.MaybeSpawn?
    ensures Run(r') && r <= r' && Defined(End(r).m, End(r).th[t])
    ensures var s := End(r); var o := StepEnd(s.m, t, s.th[t], YES); End(r') == State(o.m, s.th[t := o.th])
  {
    r' := Move(r, t, YES);
  }

  lemma MoveDel(r: seq<State>, t: Tid) returns (r': seq<State>)
    requires Run(r) && t in End(r).th && End(r).th[t].Pair? && DelPc(End(r).th[t].pp)
    ensures Run(r') && r <= r' && Defined(End(r).m, End(r).th[t])
    ensures var s := End(r); var o := StepDel(s.m, t, s.th[t]); End(r') == State(o.m, s.th[t := o.th])
  {
    r' := Move(r, t, YES);
  }

  /** The same but for reference counts and for who has been woken. */
  predicate SameButRefs(m: Shared, m': Shared) {
    && m' == m.(hs := m'.hs, refWait := m'.refWait)
    && m'.hs.Keys == m.hs.Keys
    && forall x | x in m.hs :: m'.hs[x] == m.hs[x].(refcount := m'.hs[x].refcount)
  }

  /** Only the thread `t` has moved. */
  predicate OnlyMoved(s: State, s': State, t: Tid) { t in s'.th && s'.th == s.th[t := s'.th[t]] }

  lemma ReleaseStep(m: Shared, th: Thread)
    requires th.Rel? && HandlesIn(th, m.hs)
    ensures var o := StepRel(m, th);
      && SameButRefs(m, o.m)
      && (th.rp.Last? ==> o.th == Idle || (o.th.Rel? && o.th.rp.LastZero?))
      && (th.rp.LastZero? ==> o.th == Idle)
      && (th.rp.Prev? ==>
            o.th == AfterPrev(th.op, th.found)
            || (o.th.Rel? && o.th.rp.PrevZero? && o.th.op == th.op && o.th.found == th.found))
      && (th.rp.PrevZero? ==> o.th == AfterPrev(th.op, th.found))
  {
    if th.rp.Prev? && th.rp.prev.Some? { SameAddRef(m, th.rp.prev.value); }
    if th.rp.Last? && th.found.Some? { SameAddRef(m, th.found.value); }
  }

  lemma SameAddRef(m: Shared, h: Hid)
    requires h in m.hs
    ensures SameButRefs(m, AddRef(m, h, -1))
  {
  }

  lemma SameTwice(m: Shared, m1: Shared, m2: Shared)
    requires SameButRefs(m, m1) && SameButRefs(m1, m2)
    ensures SameButRefs(m, m2)
  {
  }

  // What is the same stays so under the same change.
  lemma SameSet(m: Shared, m': Shared, h: Hid, b: Bucket, b': Bucket)
    requires SameButRefs(m, m') && h in m.hs && b' == b.(refcount := b'.refcount)
    ensures SameButRefs(SetB(m, h, b), SetB(m', h, b'))
  {
  }

  lemma SameRest(m: Shared, m': Shared, es: map<Cookie, Conn>, table: set<Hid>, counter: int)
    requires SameButRefs(m, m')
    ensures SameButRefs(m.(es := es, table := table, counter := counter),
                        m'.(es := es, table := table, counter := counter))
  {
  }

  lemma SetTwice(m: Shared, h: Hid, b: Bucket, b': Bucket)
    ensures SetB(SetB(m, h, b), h, b') == SetB(m, h, b')
  {
    assert m.hs[h := b][h := b'] == m.hs[h := b'];
  }

  lemma ReleaseMove(r: seq<State>, t: Tid) returns (r': seq<State>)
    requires Run(r) && t in End(r).th && End(r).th[t].Rel? && End(r).m.shut.None?
    ensures Run(r') && r <= r' && OnlyMoved(End(r), End(r'), t) && SameButRefs(End(r).m, End(r').m)
    ensures HandlesIn(End(r).th[t], End(r).m.hs) && End(r').th[t] == StepRel(End(r).m, End(r).th[t]).th
  {
    r' := Move(r, t, YES);
    ReleaseStep(End(r).m, End(r).th[t]);
  }

  // release_handle of the reference from find_bucket,
  lemma ReleaseLast(r: seq<State>, t: Tid) returns (r': seq<State>)
    requires Run(r) && t in End(r).th && End(r).th[t].Rel? && End(r).th[t].rp.Last? && End(r).m.shut.None?
    ensures Run(r') && r <= r' && OnlyMoved(End(r), End(r'), t)
    ensures End(r').th[t] == Idle && SameButRefs(End(r).m, End(r').m)
  {
    r' := ReleaseMove(r, t);
    ReleaseStep(End(r).m, End(r).th[t]);
    if !End(r').th[t].Idle? {
      var r1 := r';
      r' := ReleaseMove(r1, t);
      ReleaseStep(End(r1).m, End(r1).th[t]);
      SameTwice(End(r).m, End(r1).m, End(r').m);
    }
  }

  // of the previous binding,
  lemma ReleasePrev(r: seq<State>, t: Tid) returns (r': seq<State>)
    requires Run(r) && t in End(r).th && End(r).th[t].Rel? && End(r).th[t].rp.Prev? && End(r).m.shut.None?
    ensures Run(r') && r <= r' && OnlyMoved(End(r), End(r'), t)
    ensures End(r').th[t] == AfterPrev(End(r).th[t].op, End(r).th[t].found) && SameButRefs(End(r).m, End(r').m)
  {
    r' := ReleaseMove(r, t);
    ReleaseStep(End(r).m, End(r).th[t]);
    if End(r').th[t].Rel? && End(r').th[t].rp.PrevZero? {
      var r1 := r';
      r' := ReleaseMove(r1, t);
      ReleaseStep(End(r1).m, End(r1).th[t]);
      SameTwice(End(r).m, End(r1).m, End(r').m);
    }
  }

  // and of both.
  lemma ReleaseBoth(r: seq<State>, t: Tid) returns (r': seq<State>)
    requires Run(r) && t in End(r).th && End(r).th[t].Rel? && End(r).th[t].rp.Prev? && End(r).m.shut.None?
    ensures Run(r') && r <= r' && OnlyMoved(End(r), End(r'), t)
    ensures End(r').th[t] == Idle && SameButRefs(End(r).m, End(r').m)
  {
    r' := ReleasePrev(r, t);
    if !End(r').th[t].Idle? {
      var r1 := r';
      r' := ReleaseLast(r1, t);
      SameTwice(End(r).m, End(r1).m, End(r').m);
    }
  }

  /** release_handle of a reference that is not the last one takes it away and wakes nobody; of the last
      one, it goes on to wake the shutdown threads. */
  lemma ReleaseWakes(r: seq<State>, t: Tid, h: Hid) returns (r': seq<State>)
    requires Run(r) && t in End(r).th && End(r).th[t].Rel? && h in End(r).m.hs
    requires End(r).th[t].rp == Prev(Some(h)) || (End(r).th[t].rp.Last? && End(r).th[t].found == Some(h))
    ensures Leads(r, r', t) && End(r').m == AddRef(End(r).m, h, -1)
    ensures End(r').m.hs[h].refcount == 0 <==> DropsZero(End(r').th[t], h)
  {
    r' := Move(r, t, YES);
  }

  /** The thread is idle, memcached may start the operation, and both mutexes are free. */
  ghost predicate Free(s: State, t: Tid, op: Op) {
    t in s.th && s.th[t] == Idle && CanStart(s, op) && s.m.eng.None? && s.m.shut.None?
  }

  /** The end of the run is `s'`, reached from the end of the other by steps of `t` alone. */
  ghost predicate Leads(r: seq<State>, r': seq<State>, t: Tid) {
    Run(r) && Run(r') && r <= r' && OnlyMoved(End(r), End(r'), t)
  }

  // ----------------------------------------------------------------------------------------
  // Creating, connecting and selecting

  /** CREATE of a name that is not in use links a RUNNING bucket of that name. */
  lemma CreateLinks(r: seq<State>, t: Tid, name: Name, h: Hid) returns (r': seq<State>)
    requires Run(r) && Free(End(r), t, Create(name)) && SameName(End(r).m, name) == {} && h !in End(r).m.hs
    ensures Leads(r, r', t) && End(r').th[t] == Idle
    ensures SameButRefs(SetB(End(r).m, h, NewBucket(name)).(table := End(r).m.table + {h}), End(r').m)
    ensures var b := End(r').m.hs[h];
      && b.name == name && b.state == RUNNING && b.clients == 0 && b.pe && b.winner.None? && b.cookie.None?
      && !b.freed && b.destroyed == 0 && b.spawns == 0
  {
    var r1 := Move(r, t, Starting(Create(name)));
    var r2 := Move(r1, t, YES.(h := Some(h)));
    r' := ReleaseLast(r2, t);
  }

  // find_bucket of a linked RUNNING bucket returns it.
  lemma FindsBucket(r: seq<State>, t: Tid, h: Hid) returns (r': seq<State>)
    requires Run(r) && t in End(r).th && End(r).th[t].Find? && End(r).th[t].fp.Lookup? && End(r).m.eng.None?
    requires h in SameName(End(r).m, OpName(End(r).m, End(r).th[t].op)) && End(r).m.hs[h].state == RUNNING
    ensures Leads(r, r', t) && SameButRefs(End(r).m, End(r').m)
    ensures End(r').th[t] == AfterFind(End(r).m, End(r).th[t].op, Some(h))
  {
    var r1 := Move(r, t, YES.(h := Some(h)));
    var r2 := Move(r1, t, YES);
    r' := Move(r2, t, YES);
  }

  // set_engine_handle binds the connection to a RUNNING bucket, or to none.
  lemma Binds(r: seq<State>, t: Tid) returns (r': seq<State>)
    requires Run(r) && t in End(r).th && End(r).th[t].SetHandle? && End(r).th[t].sp.TestRunning? && End(r).m.shut.None?
    requires SetOp(End(r).th[t].op)
    requires var found := End(r).th[t].found;
      found.Some? ==> found.value in End(r).m.hs && End(r).m.hs[found.value].state == RUNNING
    ensures var c, es := End(r).th[t].op.c, End(r).m.es;
      && Leads(r, r', t) && End(r').th[t] == Idle && c in es
      && SameButRefs(End(r).m.(es := es[c := es[c].(peh := End(r).th[t].found)]), End(r').m)
  {
    var r1 := Retains(r, t);
    var r2 := Move(r1, t, YES);
    var c, es := End(r).th[t].op.c, End(r).m.es;
    r' := ReleaseBoth(r2, t);
    UnboundSame(End(r).m, End(r1).m, End(r').m, es[c := es[c].(peh := End(r).th[t].found)]);
  }

  lemma Retains(r: seq<State>, t: Tid) returns (r': seq<State>)
    requires Run(r) && t in End(r).th && End(r).th[t].SetHandle? && End(r).th[t].sp.TestRunning?
    requires var found := End(r).th[t].found;
      found.Some? ==> found.value in End(r).m.hs && End(r).m.hs[found.value].state == RUNNING
    ensures Leads(r, r', t) && SameButRefs(End(r).m, End(r').m)
    ensures End(r').th[t] == End(r).th[t].(sp := Store(End(r).th[t].found))
  {
    r' := Move(r, t, YES);
    if End(r').th[t].sp.RetainNew? { r' := Move(r', t, YES); }
  }

  // Allocating the connection's record comes first when it is new.
  lemma BindsNew(r: seq<State>, t: Tid) returns (r': seq<State>)
    requires Run(r) && t in End(r).th && End(r).th[t].SetHandle? && End(r).th[t].sp.NewEs? && End(r).m.shut.None?
    requires End(r).th[t].op.Connect?
    requires var found := End(r).th[t].found;
      found.Some? ==> found.value in End(r).m.hs && End(r).m.hs[found.value].state == RUNNING
    ensures var c, es := End(r).th[t].op.c, End(r).m.es;
      && Leads(r, r', t) && End(r').th[t] == Idle
      && SameButRefs(End(r).m.(es := es[c := Conn(End(r).th[t].found, true, 0)]), End(r').m)
  {
    var r1 := Move(r, t, YES);
    r' := Binds(r1, t);
    var c := End(r).th[t].op.c;
    assert End(r1).m.es[c := Conn(End(r).th[t].found, true, 0)] == End(r).m.es[c := Conn(End(r).th[t].found, true, 0)];
  }

  /** A new connection is bound to the default bucket, by name or by handle, when there is one. */
  lemma ConnectBinds(r: seq<State>, t: Tid, c: Cookie, h: Hid) returns (r': seq<State>)
    requires Run(r) && Free(End(r), t, Connect(c))
    requires var m := End(r).m;
      if m.cfg.dfltName.Some? then h in SameName(m, m.cfg.dfltName.value) && m.hs[h].state == RUNNING
      else m.cfg.dflt == Some(h)
    ensures Leads(r, r', t) && End(r').th[t] == Idle
    ensures SameButRefs(End(r).m.(es := End(r).m.es[c := Conn(Some(h), true, 0)]), End(r').m)
  {
    var r1 := FindsDefault(r, t, c, h);
    var es := End(r).m.es[c := Conn(Some(h), true, 0)];
    r' := BindsNew(r1, t);
    UnboundSame(End(r).m, End(r1).m, End(r').m, es);
  }

  lemma FindsDefault(r: seq<State>, t: Tid, c: Cookie, h: Hid) returns (r': seq<State>)
    requires Run(r) && Free(End(r), t, Connect(c))
    requires var m := End(r).m;
      if m.cfg.dfltName.Some? then h in SameName(m, m.cfg.dfltName.value) && m.hs[h].state == RUNNING
      else m.cfg.dflt == Some(h)
    ensures Leads(r, r', t) && End(r').th[t] == SetHandle(Connect(c), Some(h), NewEs)
    ensures SameButRefs(End(r).m, End(r').m) && h in End(r').m.hs && End(r').m.hs[h].state == RUNNING
  {
    var r1 := Move(r, t, Starting(Connect(c)));
    if End(r).m.cfg.dfltName.Some? { r' := FindsBucket(r1, t, h); } else { r' := RetainsDefault(r1, t, c, h); }
  }

  lemma RetainsDefault(r: seq<State>, t: Tid, c: Cookie, h: Hid) returns (r': seq<State>)
    requires Run(r) && t in End(r).th && End(r).th[t] == Find(Connect(c), DefState(h))
    ensures Leads(r, r', t) && End(r').th[t] == SetHandle(Connect(c), Some(h), NewEs)
    ensures SameButRefs(End(r).m, End(r').m) && h in End(r').m.hs && End(r').m.hs[h].state == RUNNING
  {
    AssertionsHold(r, |r| - 1, t);
    var r1 := Move(r, t, YES);
    r' := Move(r1, t, YES);
  }

  /** Without a default it is bound to none. */
  lemma ConnectUnbound(r: seq<State>, t: Tid, c: Cookie) returns (r': seq<State>)
    requires Run(r) && Free(End(r), t, Connect(c)) && End(r).m.cfg.dfltName.None? && End(r).m.cfg.dflt.None?
    ensures Leads(r, r', t) && End(r').th[t] == Idle
    ensures SameButRefs(End(r).m.(es := End(r).m.es[c := Conn(None, true, 0)]), End(r').m)
  {
    var r1 := Move(r, t, Starting(Connect(c)));
    r' := BindsNew(r1, t);
  }

  /** SELECT binds the connection to the linked RUNNING bucket of the name. */
  lemma SelectBinds(r: seq<State>, t: Tid, op: Op, h: Hid) returns (r': seq<State>)
    requires Run(r) && op.Select? && Free(End(r), t, op)
    requires h in SameName(End(r).m, op.name) && End(r).m.hs[h].state == RUNNING
    ensures Leads(r, r', t) && End(r').th[t] == Idle
    ensures var m := End(r).m;
      op.c in m.es && SameButRefs(m.(es := m.es[op.c := m.es[op.c].(peh := Some(h))]), End(r').m)
  {
    var r1 := Move(r, t, Starting(op));
    var r2 := FindsBucket(r1, t, h);
    assert End(r2).th[t] == SetHandle(op, Some(h), TestRunning);
    r' := Binds(r2, t);
  }

  /** No bucket of the name can be found: none is linked, or the linked one is not RUNNING. */
  predicate NotFound(m: Shared, name: Name) {
    SameName(m, name) == {} || exists h | h in SameName(m, name) :: m.hs[h].state != RUNNING
  }

  lemma FindsNothing(r: seq<State>, t: Tid) returns (r': seq<State>)
    requires Run(r) && t in End(r).th && End(r).th[t].Find? && End(r).th[t].fp.Lookup? && End(r).m.eng.None?
    requires NotFound(End(r).m, OpName(End(r).m, End(r).th[t].op))
    ensures Leads(r, r', t) && End(r').m == End(r).m
    ensures End(r').th[t] == AfterFind(End(r).m, End(r).th[t].op, None)
  {
    var same := SameName(End(r).m, OpName(End(r).m, End(r).th[t].op));
    if same == {} {
      r' := Move(r, t, YES);
    } else {
      var h :| h in same && End(r).m.hs[h].state != RUNNING;
      var r1 := Move(r, t, YES.(h := Some(h)));
      r' := Move(r1, t, YES);
    }
  }

  /** SELECT of a bucket that cannot be found takes the connection from the bucket it was bound to. */
  lemma SelectUnbinds(r: seq<State>, t: Tid, op: Op) returns (r': seq<State>)
    requires Run(r) && op.Select? && !op.auto && Free(End(r), t, op) && NotFound(End(r).m, op.name)
    ensures Leads(r, r', t) && End(r').th[t] == Idle
    ensures var m := End(r).m;
      op.c in m.es && SameButRefs(m.(es := m.es[op.c := m.es[op.c].(peh := None)]), End(r').m)
  {
    var r1 := Move(r, t, Starting(op));
    var r2 := FindsNothing(r1, t);
    r' := Binds(r2, t);
  }

  /** DELETE of one that cannot be found changes nothing. */
  lemma DeleteFindsNothing(r: seq<State>, t: Tid, op: Op) returns (r': seq<State>)
    requires Run(r) && op.Delete? && Free(End(r), t, op) && NotFound(End(r).m, op.name)
    ensures Leads(r, r', t) && End(r').th[t] == Idle && End(r').m == End(r).m
  {
    var r1 := Move(r, t, Starting(op));
    r' := FindsNothing(r1, t);
  }

  /** CREATE of a name in use, or one that fails, changes nothing. */
  lemma CreateFails(r: seq<State>, t: Tid, name: Name, h: Hid, ok: bool) returns (r': seq<State>)
    requires Run(r) && Free(End(r), t, Create(name)) && h !in End(r).m.hs && (!ok || SameName(End(r).m, name) != {})
    ensures Leads(r, r', t) && End(r').th[t] == Idle && End(r').m == End(r).m
  {
    var r1 := Move(r, t, Starting(Create(name)));
    var r2 := Move(r1, t, YES.(h := Some(h), ok := ok));
    r' := Move(r2, t, YES);
  }

  // Finding no linked bucket and creating one.
  lemma FindsByCreating(r: seq<State>, t: Tid, h: Hid) returns (r': seq<State>)
    requires Run(r) && t in End(r).th && End(r).th[t].Find? && End(r).th[t].fp.Lookup? && End(r).m.eng.None?
    requires h !in End(r).m.hs && SameName(End(r).m, OpName(End(r).m, End(r).th[t].op)) == {}
    requires AfterFind(End(r).m, End(r).th[t].op, None) == Find(End(r).th[t].op, Link)
    ensures Leads(r, r', t) && End(r').th[t] == AfterCreate(End(r).th[t].op, Some(h))
    ensures var m := End(r).m;
      End(r').m == SetB(m, h, NewBucket(OpName(m, End(r).th[t].op))).(table := m.table + {h})
  {
    var r1 := FindsNothing(r, t);
    r' := Move(r1, t, YES.(h := Some(h)));
  }

  /** Authentication creates the bucket when there is none of the name and auto_create is set, and binds
      the connection to it. */
  lemma AuthCreates(r: seq<State>, t: Tid, op: Op, h: Hid) returns (r': seq<State>)
    requires Run(r) && op.Select? && op.auto && Free(End(r), t, op)
    requires SameName(End(r).m, op.name) == {} && h !in End(r).m.hs
    ensures Leads(r, r', t) && End(r').th[t] == Idle
    ensures var m := End(r).m;
      op.c in m.es && SameButRefs(
        SetB(m, h, NewBucket(op.name)).(table := m.table + {h}, es := m.es[op.c := m.es[op.c].(peh := Some(h))]),
        End(r').m)
  {
    var r1 := Move(r, t, Starting(op));
    var r2 := FindsByCreating(r1, t, h);
    assert h in End(r2).m.hs && End(r2).m.hs[h] == NewBucket(op.name);
    r' := Binds(r2, t);
  }

  /** So does a new connection for the default name. */
  lemma ConnectCreates(r: seq<State>, t: Tid, c: Cookie, h: Hid) returns (r': seq<State>)
    requires Run(r) && Free(End(r), t, Connect(c)) && End(r).m.cfg.dfltName.Some? && End(r).m.cfg.auto
    requires SameName(End(r).m, End(r).m.cfg.dfltName.value) == {} && h !in End(r).m.hs
    ensures Leads(r, r', t) && End(r').th[t] == Idle
    ensures var m := End(r).m;
      SameButRefs(
        SetB(m, h, NewBucket(m.cfg.dfltName.value)).(table := m.table + {h}, es := m.es[c := Conn(Some(h), true, 0)]),
        End(r').m)
  {
    var r1 := Move(r, t, Starting(Connect(c)));
    var r2 := FindsByCreating(r1, t, h);
    assert h in End(r2).m.hs && End(r2).m.hs[h] == NewBucket(End(r).m.cfg.dfltName.value);
    r' := BindsNew(r2, t);
  }

  // ----------------------------------------------------------------------------------------
  // Calls into an engine

  /** A connection bound to a RUNNING bucket, or to none while the default is RUNNING, gets into that
      bucket's engine. */
  lemma CallEnters(r: seq<State>, t: Tid, c: Cookie, h: Hid) returns (r': seq<State>)
    requires Run(r) && t in End(r).th && End(r).th[t] == Idle && CanStart(End(r), Call(c))
    requires var m := End(r).m; BoundOrDefault(m, c, h) && h in m.hs && m.hs[h].state == RUNNING
    ensures Leads(r, r', t) && End(r').th[t] == Pair(Call(c), h, InEngine)
    ensures End(r').m == AddClients(End(r).m, h, 1)
  {
    var r1 := Move(r, t, Starting(Call(c)));
    var r2 := Move(r1, t, YES);
    var r3 := MoveGet(r2, t, YES);
    r' := MoveGet(r3, t, YES);
  }

  /** A caller that leaves a RUNNING bucket only decrements its clients. */
  lemma CallLeaves(r: seq<State>, t: Tid, c: Cookie, h: Hid) returns (r': seq<State>)
    requires Run(r) && t in End(r).th && End(r).th[t] == Pair(Call(c), h, InEngine)
    requires h in End(r).m.hs && End(r).m.hs[h].state == RUNNING
    ensures Leads(r, r', t) && End(r').th[t] == Idle && End(r').m == AddClients(End(r).m, h, -1)
  {
    var r1 := MoveGet(r, t, YES);
    r' := MoveEnd(r1, t);
    if !End(r').th[t].Idle? { r' := MoveEnd(r', t); }
  }

  /** An engine can reserve the connection it serves. */
  lemma Reserves(r: seq<State>, t: Tid, c: Cookie, h: Hid) returns (r': seq<State>)
    requires Run(r) && t in End(r).th && End(r).th[t] == Pair(Call(c), h, InEngine)
    requires h in End(r).m.hs && End(r).m.hs[h].state == RUNNING && c in End(r).m.es && End(r).m.es[c].peh == Some(h)
    ensures Leads(r, r', t) && End(r').th[t] == End(r).th[t]
    ensures var m := End(r).m; SameButRefs(m.(es := m.es[c := m.es[c].(resv := m.es[c].resv + 1)]), End(r').m)
  {
    var r1 := MoveGet(r, t, YES.(ok := false));
    var r2 := MoveGet(r1, t, YES);
    var r3 := MoveGet(r2, t, YES);
    r' := MoveGet(r3, t, YES);
  }

  /** Unless the bucket is no longer RUNNING or memcached refuses: then nothing changes. */
  lemma ReserveRefused(r: seq<State>, t: Tid, c: Cookie, h: Hid, ok: bool) returns (r': seq<State>)
    requires Run(r) && t in End(r).th && End(r).th[t] == Pair(Call(c), h, InEngine)
    requires h in End(r).m.hs && (End(r).m.hs[h].state != RUNNING || !ok)
    requires c in End(r).m.es && End(r).m.es[c].peh == Some(h)
    ensures Leads(r, r', t) && End(r').th[t] == End(r).th[t] && End(r').m == End(r).m
  {
    var r1 := MoveGet(r, t, YES.(ok := false));
    r' := MoveGet(r1, t, YES.(ok := ok));
  }

  /** Releasing undoes it. */
  lemma Releases(r: seq<State>, t: Tid, c: Cookie) returns (r': seq<State>)
    requires Run(r) && Free(End(r), t, ReleaseCookie(c))
    ensures Leads(r, r', t) && End(r').th[t] == Idle && c in End(r).m.es && End(r).m.es[c].resv > 0
    ensures var m := End(r).m; SameButRefs(m.(es := m.es[c := m.es[c].(resv := m.es[c].resv - 1)]), End(r').m)
  {
    var r1 := Move(r, t, Starting(ReleaseCookie(c)));
    var r2 := Move(r1, t, YES);
    r' := ReleaseBoth(r2, t);
  }

  /** A connection that is bound to no bucket is forgotten when it goes, */
  lemma DisconnectUnbound(r: seq<State>, t: Tid, c: Cookie) returns (r': seq<State>)
    requires Run(r) && Free(End(r), t, Disconnect(c)) && (c in End(r).m.es ==> End(r).m.es[c].peh.None?)
    ensures Leads(r, r', t) && End(r').th[t] == Idle && End(r').m == End(r).m.(es := End(r).m.es - {c})
  {
    var r1 := Move(r, t, Starting(Disconnect(c)));
    r' := Move(r1, t, YES);
    if c !in End(r).m.es { assert End(r).m.es - {c} == End(r).m.es; }
  }

  /** and so is one that is bound to a RUNNING bucket, unless it is reserved. */
  lemma DisconnectBound(r: seq<State>, t: Tid, c: Cookie, h: Hid) returns (r': seq<State>)
    requires Run(r) && Free(End(r), t, Disconnect(c)) && c in End(r).m.es && End(r).m.es[c].peh == Some(h)
    requires h in End(r).m.hs && End(r).m.hs[h].state == RUNNING
    ensures Leads(r, r', t) && End(r').th[t] == Idle
    ensures var m := End(r).m;
      SameButRefs(if m.es[c].resv == 0 then m.(es := m.es - {c}) else m, End(r').m)
  {
    IsConnected(r, c);
    var r1 := DisconnectEnters(r, t, c, h);
    var r2 := DisconnectLeaves(r1, t, c, h);
    AddBack(End(r).m, h);
    r' := Forgets(r2, t, c, h);
  }

  lemma IsConnected(r: seq<State>, c: Cookie)
    requires Run(r) && c in End(r).m.es
    ensures End(r).m.es[c].connected
  {
    ConnectedUntilReleased(r, |r| - 1, c);
  }

  lemma AddBack(m: Shared, h: Hid)
    requires h in m.hs
    ensures AddClients(AddClients(m, h, 1), h, -1) == m
  {
    assert AddClients(AddClients(m, h, 1), h, -1).hs == m.hs;
  }

  lemma DisconnectEnters(r: seq<State>, t: Tid, c: Cookie, h: Hid) returns (r': seq<State>)
    requires Run(r) && Free(End(r), t, Disconnect(c)) && c in End(r).m.es && End(r).m.es[c].peh == Some(h)
    requires h in End(r).m.hs && End(r).m.hs[h].state == RUNNING
    ensures Leads(r, r', t) && End(r').th[t] == Pair(Disconnect(c), h, InEngine)
    ensures End(r').m == AddClients(End(r).m, h, 1)
  {
    var r1 := Move(r, t, Starting(Disconnect(c)));
    var r2 := Move(r1, t, YES);
    var r3 := MoveGet(r2, t, YES);
    r' := MoveGet(r3, t, YES);
  }

  lemma Forgets(r: seq<State>, t: Tid, c: Cookie, h: Hid) returns (r': seq<State>)
    requires Run(r) && t in End(r).th && End(r).th[t] == Pair(Disconnect(c), h, DisCheck) && End(r).m.shut.None?
    requires c in End(r).m.es && End(r).m.es[c].connected
    ensures Leads(r, r', t) && End(r').th[t] == Idle
    ensures var m := End(r).m;
      SameButRefs(if m.es[c].resv == 0 then m.(es := m.es - {c}) else m, End(r').m)
  {
    var r1 := Move(r, t, YES);
    if End(r).m.es[c].resv == 0 {
      var r2 := Move(r1, t, YES);
      r' := ReleaseBoth(r2, t);
    } else {
      r' := r1;
    }
  }

  lemma DisconnectLeaves(r: seq<State>, t: Tid, c: Cookie, h: Hid) returns (r': seq<State>)
    requires Run(r) && t in End(r).th && End(r).th[t] == Pair(Disconnect(c), h, InEngine)
    requires h in End(r).m.hs && End(r).m.hs[h].state == RUNNING
    ensures Leads(r, r', t) && End(r').th[t] == Pair(Disconnect(c), h, DisCheck)
    ensures End(r').m == AddClients(End(r).m, h, -1)
  {
    var r1 := MoveGet(r, t, YES);
    r' := MoveEnd(r1, t);
    if End(r').th[t].pp.EndState? { r' := MoveEnd(r', t); }
  }

  // ----------------------------------------------------------------------------------------
  // Deleting a bucket

  /** The compare-and-swap of a DELETE stops the bucket, with the deleting thread on record, exactly when
      the bucket is RUNNING. */
  lemma DeleteWinsIff(r: seq<State>, i: nat, t: Tid, ch: Choice, op: Op, h: Hid)
    requires Run(r) && i + 1 < |r| && t in r[i].th && r[i].th[t] == Pair(op, h, DelCas)
    requires Enabled(r[i], t, ch) && Defined(r[i].m, r[i].th[t]) && r[i + 1] == Step(r[i], t, ch)
    ensures h in r[i].m.hs && h in r[i + 1].m.hs && op.Delete?
    ensures var b, b' := r[i].m.hs[h], r[i + 1].m.hs[h];
      && (b.state == RUNNING ==>
            && r[i + 1].th[t] == Pair(op, h, DelCookie)
            && b' == b.(state := STOPPING, wins := b.wins + 1, winner := Some(Winner(t, op.c, op.force))))
      && (b.state != RUNNING ==> b' == b && r[i + 1].th[t] == Pair(op, h, EndDecr(false)))
  {
  }

  /** What a winning DELETE records, with its own thread inside. */
  function Marked(b: Bucket, t: Tid, op: Op): Bucket
    requires op.Delete?
  {
    Won(b, t, op).(cookie := Some(op.c), force := op.force)
  }

  lemma DeleteMarks(r: seq<State>, t: Tid, op: Op, h: Hid) returns (r': seq<State>)
    requires Run(r) && op.Delete? && Free(End(r), t, op)
    requires h in SameName(End(r).m, op.name) && End(r).m.hs[h].state == RUNNING
    ensures Leads(r, r', t) && End(r').th[t] == Pair(op, h, EndDecr(true))
    ensures SameButRefs(SetB(End(r).m, h, Marked(End(r).m.hs[h], t, op)), End(r').m)
  {
    var r1 := Move(r, t, Starting(op));
    var r2 := FindsBucket(r1, t, h);
    r' := Marks(r2, t, op, h);
    var m, m2 := End(r).m, End(r2).m;
    SameSet(m, m2, h, Marked(m.hs[h], t, op), Marked(m2.hs[h], t, op));
  }

  lemma Marks(r: seq<State>, t: Tid, op: Op, h: Hid) returns (r': seq<State>)
    requires Run(r) && t in End(r).th && op.Delete? && End(r).th[t] == Pair(op, h, DelIncr)
    requires h in End(r).m.hs && End(r).m.hs[h].state == RUNNING
    ensures Leads(r, r', t) && End(r').th[t] == Pair(op, h, EndDecr(true))
    ensures End(r').m == SetB(End(r).m, h, Marked(End(r).m.hs[h], t, op))
  {
    var m, b := End(r).m, End(r).m.hs[h];
    var r1 := Wins(r, t, op, h);
    r' := Records(r1, t, op, h);
    SetTwice(m, h, Won(b, t, op), Marked(b, t, op));
  }

  function Won(b: Bucket, t: Tid, op: Op): Bucket
    requires op.Delete?
  {
    b.(state := STOPPING, clients := b.clients + 1, wins := b.wins + 1, winner := Some(Winner(t, op.c, op.force)))
  }

  lemma Wins(r: seq<State>, t: Tid, op: Op, h: Hid) returns (r': seq<State>)
    requires Run(r) && t in End(r).th && op.Delete? && End(r).th[t] == Pair(op, h, DelIncr)
    requires h in End(r).m.hs && End(r).m.hs[h].state == RUNNING
    ensures Leads(r, r', t) && End(r').th[t] == Pair(op, h, DelCookie)
    ensures End(r').m == SetB(End(r).m, h, Won(End(r).m.hs[h], t, op))
  {
    var m, b := End(r).m, End(r).m.hs[h];
    var r1 := MoveDel(r, t);
    r' := MoveDel(r1, t);
    SetTwice(m, h, b.(clients := b.clients + 1), Won(b, t, op));
  }

  lemma Records(r: seq<State>, t: Tid, op: Op, h: Hid) returns (r': seq<State>)
    requires Run(r) && t in End(r).th && op.Delete? && End(r).th[t] == Pair(op, h, DelCookie) && h in End(r).m.hs
    ensures Leads(r, r', t) && End(r').th[t] == Pair(op, h, EndDecr(true))
    ensures End(r').m == SetB(End(r).m, h, End(r).m.hs[h].(cookie := Some(op.c), force := op.force))
  {
    var m, b := End(r).m, End(r).m.hs[h];
    var r1 := MoveDel(r, t);
    r' := MoveDel(r1, t);
    SetTwice(m, h, b.(cookie := Some(op.c)), b.(cookie := Some(op.c), force := op.force));
  }

  // The last client of a STOPPING bucket stops it and starts its shutdown thread.
  lemma LastOut(r: seq<State>, t: Tid, h: Hid, k: Tid) returns (r': seq<State>)
    requires Run(r) && t in End(r).th && End(r).th[t].Pair? && End(r).th[t].pp.EndDecr? && End(r).th[t].h == h
    requires h in End(r).m.hs && End(r).m.hs[h].state == STOPPING && End(r).m.hs[h].clients == 1 && k !in End(r).th
    ensures Run(r') && r <= r' && var s, b := End(r), End(r).m.hs[h];
      && End(r').th == s.th[t := AfterEnd(s.th[t].op, h)][k := Sd(h, Enter)]
      && End(r').m == SetB(s.m, h, b.(clients := 0, state := STOPPED, killer := Some(k), spawns := b.spawns + 1))
  {
    var m, b := End(r).m, End(r).m.hs[h];
    var r1 := LastDecrements(r, t, h);
    r' := Stops(r1, t, h, k);
    SetTwice(m, h, b.(clients := 0), End(r').m.hs[h]);
    assert End(r').th == End(r).th[t := AfterEnd(End(r).th[t].op, h)][k := Sd(h, Enter)];
  }

  lemma Stops(r: seq<State>, t: Tid, h: Hid, k: Tid) returns (r': seq<State>)
    requires Run(r) && t in End(r).th && End(r).th[t].Pair? && End(r).th[t].pp.MaybeCas? && End(r).th[t].h == h
    requires h in End(r).m.hs && End(r).m.hs[h].state == STOPPING && k !in End(r).th
    ensures Run(r') && r <= r' && var s, b := End(r), End(r).m.hs[h];
      && End(r').th == s.th[t := AfterEnd(s.th[t].op, h)][k := Sd(h, Enter)]
      && End(r').m == SetB(s.m, h, b.(state := STOPPED, killer := Some(k), spawns := b.spawns + 1))
  {
    var m, b := End(r).m, End(r).m.hs[h];
    var r1 := MoveEnd(r, t);
    r' := Go(r1, t, YES.(tid := k));
    SetTwice(m, h, b.(state := STOPPED, killer := Some(t)),
             b.(state := STOPPED, killer := Some(k), spawns := b.spawns + 1));
  }

  lemma LastDecrements(r: seq<State>, t: Tid, h: Hid) returns (r': seq<State>)
    requires Run(r) && t in End(r).th && End(r).th[t].Pair? && End(r).th[t].pp.EndDecr? && End(r).th[t].h == h
    requires h in End(r).m.hs && End(r).m.hs[h].state == STOPPING && End(r).m.hs[h].clients == 1
    ensures Leads(r, r', t) && End(r').th[t] == Pair(End(r).th[t].op, h, MaybeCas)
    ensures End(r').m == AddClients(End(r).m, h, -1)
  {
    var r1 := MoveEnd(r, t);
    var r2 := MoveEnd(r1, t);
    r' := TestsClients(r2, t, h);
  }

  lemma TestsClients(r: seq<State>, t: Tid, h: Hid) returns (r': seq<State>)
    requires Run(r) && t in End(r).th && End(r).th[t].Pair? && End(r).th[t].pp.MaybeState? && End(r).th[t].h == h
    requires h in End(r).m.hs && End(r).m.hs[h].state == STOPPING && End(r).m.hs[h].clients == 0
    ensures Leads(r, r', t) && End(r').th[t] == Pair(End(r).th[t].op, h, MaybeCas) && End(r').m == End(r).m
  {
    var r1 := MoveEnd(r, t);
    r' := MoveEnd(r1, t);
  }

  /** The last caller to leave a STOPPING bucket stops it and starts its shutdown thread. */
  lemma LastCallerStops(r: seq<State>, t: Tid, c: Cookie, h: Hid, k: Tid) returns (r': seq<State>)
    requires Run(r) && t in End(r).th && End(r).th[t] == Pair(Call(c), h, InEngine) && k !in End(r).th
    requires h in End(r).m.hs && End(r).m.hs[h].state == STOPPING && End(r).m.hs[h].clients == 1
    ensures Run(r') && r <= r' && var s, b := End(r), End(r).m.hs[h];
      && End(r').th == s.th[t := Idle][k := Sd(h, Enter)]
      && End(r').m == SetB(s.m, h, b.(clients := 0, state := STOPPED, killer := Some(k), spawns := b.spawns + 1))
  {
    var r1 := MoveGet(r, t, YES);
    r' := LastOut(r1, t, h, k);
    assert End(r').th == End(r).th[t := Idle][k := Sd(h, Enter)];
  }

  /** What a DELETE leaves of its own connection. */
  function Unbound(es: map<Cookie, Conn>, c: Cookie, h: Hid): map<Cookie, Conn> {
    if c in es && es[c].peh == Some(h) then es[c := es[c].(peh := None)] else es
  }

  lemma Unbinds(r: seq<State>, t: Tid) returns (r': seq<State>)
    requires Run(r) && t in End(r).th && End(r).th[t].Pair? && End(r).th[t].pp.DelUnbind? && End(r).m.shut.None?
    requires End(r).th[t].op.Delete?
    ensures Leads(r, r', t) && End(r').th[t] == Idle
    ensures var s := End(r); SameButRefs(s.m.(es := Unbound(s.m.es, s.th[t].op.c, s.th[t].h)), End(r').m)
  {
    var r1 := MoveDel(r, t);
    if End(r1).th[t].rp.Prev? { r' := ReleaseBoth(r1, t); } else { r' := ReleaseLast(r1, t); }
  }

  /** A DELETE of a RUNNING bucket with no client stops it at once, and its shutdown thread is started;
      the deleting connection keeps no binding to it. */
  lemma DeleteStops(r: seq<State>, t: Tid, op: Op, h: Hid, k: Tid) returns (r': seq<State>)
    requires Run(r) && op.Delete? && Free(End(r), t, op) && k !in End(r).th
    requires h in SameName(End(r).m, op.name) && End(r).m.hs[h].state == RUNNING && End(r).m.hs[h].clients == 0
    ensures Run(r') && r <= r' && End(r').th == End(r).th[k := Sd(h, Enter)]
    ensures var m, b := End(r).m, End(r).m.hs[h];
      SameButRefs(
        SetB(m, h, Stopped(b, t, op, k)).(es := Unbound(m.es, op.c, h)), End(r').m)
  {
    var m := End(r).m;
    var r1 := DeleteEmpties(r, t, op, h, k);
    var s1 := End(r1);
    r' := Unbinds(r1, t);
    UnboundSame(SetB(m, h, Stopped(m.hs[h], t, op, k)), s1.m, End(r').m, Unbound(m.es, op.c, h));
    assert s1.th[t := Idle] == End(r).th[k := Sd(h, Enter)];
  }

  /** What a winning DELETE that finds no client inside leaves. */
  function Stopped(b: Bucket, t: Tid, op: Op, k: Tid): Bucket
    requires op.Delete?
  { Marked(b, t, op).(clients := 0, state := STOPPED, killer := Some(k), spawns := b.spawns + 1) }

  lemma DeleteEmpties(r: seq<State>, t: Tid, op: Op, h: Hid, k: Tid) returns (r': seq<State>)
    requires Run(r) && op.Delete? && Free(End(r), t, op) && k !in End(r).th
    requires h in SameName(End(r).m, op.name) && End(r).m.hs[h].state == RUNNING && End(r).m.hs[h].clients == 0
    ensures Run(r') && r <= r' && End(r').th == End(r).th[t := Pair(op, h, DelUnbind)][k := Sd(h, Enter)]
    ensures SameButRefs(SetB(End(r).m, h, Stopped(End(r).m.hs[h], t, op, k)), End(r').m)
  {
    var m, b := End(r).m, End(r).m.hs[h];
    var r1 := DeleteMarks(r, t, op, h);
    var m1 := End(r1).m;
    var b1 := m1.hs[h];
    r' := LastOut(r1, t, h, k);
    var stopped := Stopped(b, t, op, k);
    SameSet(SetB(m, h, Marked(b, t, op)), m1, h, stopped, stopped.(refcount := b1.refcount));
    SetTwice(m, h, Marked(b, t, op), stopped);
  }

  lemma UnboundSame(m: Shared, m1: Shared, m2: Shared, es: map<Cookie, Conn>)
    requires SameButRefs(m, m1) && SameButRefs(m1.(es := es), m2)
    ensures SameButRefs(m.(es := es), m2)
  {
    SameRest(m, m1, es, m.table, m.counter);
    SameTwice(m.(es := es), m1.(es := es), m2);
  }

  /** One of a RUNNING bucket with clients leaves it STOPPING. */
  lemma DeleteWaits(r: seq<State>, t: Tid, op: Op, h: Hid) returns (r': seq<State>)
    requires Run(r) && op.Delete? && Free(End(r), t, op)
    requires h in SameName(End(r).m, op.name) && End(r).m.hs[h].state == RUNNING && End(r).m.hs[h].clients > 0
    ensures Leads(r, r', t) && End(r').th[t] == Idle
    ensures var m, b := End(r).m, End(r).m.hs[h];
      SameButRefs(SetB(m, h, Marked(b, t, op).(clients := b.clients)).(es := Unbound(m.es, op.c, h)), End(r').m)
  {
    var m, b := End(r).m, End(r).m.hs[h];
    var r1 := DeleteLeaves(r, t, op, h);
    r' := Unbinds(r1, t);
    UnboundSame(SetB(m, h, Marked(b, t, op).(clients := b.clients)), End(r1).m, End(r').m, Unbound(m.es, op.c, h));
  }

  lemma DeleteLeaves(r: seq<State>, t: Tid, op: Op, h: Hid) returns (r': seq<State>)
    requires Run(r) && op.Delete? && Free(End(r), t, op)
    requires h in SameName(End(r).m, op.name) && End(r).m.hs[h].state == RUNNING && End(r).m.hs[h].clients > 0
    ensures Leads(r, r', t) && End(r').th[t] == Pair(op, h, DelUnbind)
    ensures var m, b := End(r).m, End(r).m.hs[h];
      SameButRefs(SetB(m, h, Marked(b, t, op).(clients := b.clients)), End(r').m)
  {
    var r1 := DeleteMarks(r, t, op, h);
    r' := MoveEnd(r1, t);
    LeavesSame(End(r).m, End(r1).m, t, op, h);
  }

  lemma LeavesSame(m: Shared, m1: Shared, t: Tid, op: Op, h: Hid)
    requires op.Delete? && h in m.hs && SameButRefs(SetB(m, h, Marked(m.hs[h], t, op)), m1)
    ensures var b := m.hs[h];
      h in m1.hs && SameButRefs(SetB(m, h, Marked(b, t, op).(clients := b.clients)), AddClients(m1, h, -1))
  {
    var b := m.hs[h];
    var waiting := Marked(b, t, op).(clients := b.clients);
    SameSet(SetB(m, h, Marked(b, t, op)), m1, h, waiting, waiting.(refcount := m1.hs[h].refcount));
    SetTwice(m, h, Marked(b, t, op), waiting);
  }

  // ----------------------------------------------------------------------------------------
  // The shutdown thread

  /** A shutdown thread destroys the engine, unlinks the bucket, sets its state to NULL and notifies the
      connection that deleted it. */
  lemma ShutdownUnlinks(r: seq<State>, k: Tid, h: Hid) returns (r': seq<State>)
    requires Run(r) && k in End(r).th && End(r).th[k] == Sd(h, Enter)
    requires End(r).m.eng.None? && End(r).m.shut.None? && !End(r).m.inProgress
    ensures Leads(r, r', k) && End(r').th[k] == Sd(h, Wait) && h in End(r).m.hs
    ensures var m, b := End(r).m, End(r).m.hs[h];
      SameButRefs(
        SetB(m, h, Nulled(Destroyed(b))).(table := m.table - {h}, counter := m.counter + 1), End(r').m)
  {
    var r1 := Destroys(r, k, h);
    r' := Unlinks(r1, k, h);
    UnlinkedDestroyed(End(r).m, End(r1).m, h);
  }

  /** A bucket whose shutdown thread has set its state to NULL and notified. */
  function Nulled(b: Bucket): Bucket { b.(state := NULL, notified := b.notified + if b.cookie.Some? then 1 else 0) }

  function Destroyed(b: Bucket): Bucket { b.(destroyed := b.destroyed + 1, pe := false) }

  lemma UnlinkedDestroyed(m: Shared, m1: Shared, h: Hid)
    requires h in m.hs && m1 == SetB(m, h, Destroyed(m.hs[h])).(counter := m.counter + 1)
    ensures SetB(m1, h, Nulled(m1.hs[h])).(table := m1.table - {h})
         == SetB(m, h, Nulled(Destroyed(m.hs[h]))).(table := m.table - {h}, counter := m.counter + 1)
  {
    SetTwice(m, h, Destroyed(m.hs[h]), Nulled(Destroyed(m.hs[h])));
  }

  lemma Destroys(r: seq<State>, k: Tid, h: Hid) returns (r': seq<State>)
    requires Run(r) && k in End(r).th && End(r).th[k] == Sd(h, Enter) && End(r).m.shut.None? && !End(r).m.inProgress
    ensures Leads(r, r', k) && End(r').th[k] == Sd(h, Unlink) && h in End(r).m.hs
    ensures var m, b := End(r).m, End(r).m.hs[h];
      End(r').m == SetB(m, h, Destroyed(b)).(counter := m.counter + 1)
  {
    var r1 := Move(r, k, YES);
    r' := Move(r1, k, YES);
  }

  lemma Unlinks(r: seq<State>, k: Tid, h: Hid) returns (r': seq<State>)
    requires Run(r) && k in End(r).th && End(r).th[k] == Sd(h, Unlink) && End(r).m.eng.None? && End(r).m.shut.None?
    requires h in End(r).m.hs
    ensures Leads(r, r', k) && End(r').th[k] == Sd(h, Wait)
    ensures var m := End(r).m; SameButRefs(SetB(m, h, Nulled(m.hs[h])).(table := m.table - {h}), End(r').m)
  {
    var r1 := TakesOff(r, k, h);
    var r2 := Drops(r1, k, h);
    r' := Notifies(r2, k, h);
    UnlinksSame(End(r).m, End(r2).m, k, h);
  }

  lemma UnlinksSame(m: Shared, m2: Shared, k: Tid, h: Hid)
    requires h in m.hs && m.eng.None? && SameButRefs(m.(table := m.table - {h}, eng := Some(k)), m2)
    ensures SameButRefs(SetB(m, h, Nulled(m.hs[h])).(table := m.table - {h}),
                        SetB(m2, h, Nulled(m2.hs[h])).(eng := None))
  {
  }

  lemma TakesOff(r: seq<State>, k: Tid, h: Hid) returns (r': seq<State>)
    requires Run(r) && k in End(r).th && End(r).th[k] == Sd(h, Unlink) && End(r).m.eng.None?
    requires h in End(r).m.hs
    ensures Leads(r, r', k) && End(r').th[k] == Sd(h, Drop)
    ensures End(r').m == End(r).m.(table := End(r).m.table - {h}, eng := Some(k))
  {
    UnlinksExactlyOne(r, |r| - 1, k);
    r' := Move(r, k, YES);
  }

  lemma Notifies(r: seq<State>, k: Tid, h: Hid) returns (r': seq<State>)
    requires Run(r) && k in End(r).th && End(r).th[k] == Sd(h, SetNull) && h in End(r).m.hs
    ensures Leads(r, r', k) && End(r').th[k] == Sd(h, Wait)
    ensures var m := End(r).m; End(r').m == SetB(m, h, Nulled(m.hs[h])).(eng := None)
  {
    var r1 := Move(r, k, YES);
    r' := Move(r1, k, YES);
  }

  lemma Drops(r: seq<State>, k: Tid, h: Hid) returns (r': seq<State>)
    requires Run(r) && k in End(r).th && End(r).th[k] == Sd(h, Drop) && End(r).m.shut.None?
    ensures Leads(r, r', k) && End(r').th[k] == Sd(h, SetNull) && SameButRefs(End(r).m, End(r').m)
  {
    r' := Move(r, k, YES);
    if End(r').th[k].dp.DropZero? { r' := Move(r', k, YES); }
  }

  /** With no reference left it frees the bucket and ends. */
  lemma ShutdownFrees(r: seq<State>, k: Tid, h: Hid) returns (r': seq<State>)
    requires Run(r) && k in End(r).th && End(r).th[k] == Sd(h, Wait) && End(r).m.shut.None?
    requires h in End(r).m.hs && End(r).m.hs[h].refcount == 0
    ensures Leads(r, r', k) && End(r').th[k] == Sd(h, Dead)
    ensures var m := End(r).m;
      && End(r').m.hs == m.hs[h := m.hs[h].(freed := true)] && End(r').m.counter == m.counter - 1
      && End(r').m.table == m.table && End(r').m.es == m.es && End(r').m.shut.None?
  {
    var r1 := StopsWaiting(r, k, h);
    var r2 := Move(r1, k, YES);
    r' := Move(r2, k, YES);
  }

  lemma StopsWaiting(r: seq<State>, k: Tid, h: Hid) returns (r': seq<State>)
    requires Run(r) && k in End(r).th && End(r).th[k] == Sd(h, Wait) && End(r).m.shut.None?
    requires h in End(r).m.hs && End(r).m.hs[h].refcount == 0
    ensures Leads(r, r', k) && End(r').th[k] == Sd(h, SdPc.Free) && End(r').m == End(r).m
  {
    var r1 := Move(r, k, YES);
    var r2 := Move(r1, k, YES);
    r' := Move(r2, k, YES);
  }

  /** With a reference left, and no global shutdown, it goes to sleep. */
  lemma ShutdownSleeps(r: seq<State>, k: Tid, h: Hid) returns (r': seq<State>)
    requires Run(r) && k in End(r).th && End(r).th[k] == Sd(h, Wait) && End(r).m.shut.None?
    requires h in End(r).m.hs && End(r).m.hs[h].refcount > 0 && !End(r).m.inProgress
    ensures Leads(r, r', k) && End(r').th[k] == Sd(h, Asleep)
    ensures End(r').m == End(r).m.(refWait := End(r).m.refWait + {k})
  {
    var r1 := Move(r, k, YES);
    var r2 := Move(r1, k, YES);
    r' := Move(r2, k, YES);
  }

  // ----------------------------------------------------------------------------------------
  // A whole deletion

  /** One worker thread, no bucket and no default. */
  function OneWorker(): State {
    State(Shared(Config(None, None, false), map[], {}, map[], None, None, {}, {}, false, 0, false), map[0 := Idle])
  }

  // A bucket is created and a connection is made.
  lemma CanCreate(name: Name, c: Cookie) returns (r: seq<State>)
    ensures Run(r) && End(r).th == map[0 := Idle]
    ensures var m := End(r).m;
      && m.hs.Keys == {0} && m.hs[0] == NewBucket(name).(refcount := m.hs[0].refcount) && m.table == {0}
      && m.es == map[c := Conn(None, true, 0)]
      && m == OneWorker().m.(hs := m.hs, table := {0}, es := m.es, refWait := m.refWait)
  {
    var r0 := [OneWorker()];
    var r1 := CreateLinks(r0, 0, name, 0);
    assert End(r1).th == map[0 := Idle];
    r := ConnectUnbound(r1, 0, c);
    assert End(r).th == map[0 := Idle];
  }

  // Its deletion starts the shutdown thread, which takes it out of the table.
  lemma CanUnlink(name: Name, c: Cookie, force: bool) returns (r: seq<State>)
    ensures Run(r) && End(r).th == map[0 := Idle, 1 := Sd(0, Wait)]
    ensures var m := End(r).m;
      && 0 in m.hs && m.hs[0].state == NULL && m.hs[0].winner == Some(Winner(0, c, force))
      && m.hs[0].cookie == Some(c) && m.hs[0].force == force && m.hs[0].destroyed == 1 && m.hs[0].notified == 1
      && m.table == {} && m.cfg.dflt.None? && m.es == map[c := Conn(None, true, 0)] && m.shut.None?
  {
    var r1 := CanCreate(name, c);
    var op := Delete(c, name, force);
    var r2 := DeleteStops(r1, 0, op, 0, 1);
    r := ShutdownUnlinks(r2, 1, 0);
    assert End(r).th == map[0 := Idle, 1 := Sd(0, Wait)];
  }

  /** Whatever the name, the connection and the force flag, some run deletes the bucket: it is recorded as
      won, and ends NULL, unlinked, destroyed once, notified once and freed. */
  lemma DeleteCanComplete(name: Name, c: Cookie, force: bool) returns (r: seq<State>)
    ensures Run(r) && 0 in End(r).m.hs && 0 !in End(r).m.table
    ensures var b := End(r).m.hs[0];
      && b.state == NULL && b.destroyed == 1 && b.notified == 1 && b.freed && b.refcount == 0
      && b.winner == Some(Winner(0, c, force)) && b.cookie == Some(c) && b.force == force
    ensures End(r).th == map[0 := Idle, 1 := Sd(0, Dead)]
  {
    var r1 := CanUnlink(name, c, force);
    RefcountIsExact(r1, |r1| - 1, 0);
    SumZero(End(r1).m.es, ConnW(0));
    SumZero(End(r1).th, ThreadW(0));
    r := ShutdownFrees(r1, 1, 0);
    assert End(r).th == map[0 := Idle, 1 := Sd(0, Dead)];
  }

  // ----------------------------------------------------------------------------------------
  // The global shutdown

  /** bucket_destroy, when no client and no shutdown thread runs, destroys the engine of every linked
      bucket and empties the table. */
  lemma DestroyFinishes(r: seq<State>, t: Tid) returns (r': seq<State>)
    requires Run(r) && Free(End(r), t, Destroy) && NoClients(End(r)) && End(r).m.counter == 0
    ensures Leads(r, r', t) && End(r').th[t] == Gd(GDone)
    ensures var m, m' := End(r).m, End(r').m;
      && m'.inProgress && m'.closing && m'.table == {} && m'.hs.Keys == m.hs.Keys
      && forall h | h in m.table :: h in m.hs && m'.hs[h].destroyed == 1 && m'.hs[h].state == NULL
  {
    var r1 := Move(r, t, Starting(Destroy));
    var r2 := Move(r1, t, YES);
    assert End(r2).th[t] == Gd(GWalk);
    var r3 := Move(r2, t, YES);
    r' := Move(r3, t, YES);
    forall h | h in End(r).m.table
      ensures h in End(r).m.hs && End(r').m.hs[h].destroyed == 1 && End(r').m.hs[h].state == NULL
    {
      LinkedBucket(r, h);
      DestroyedOnce(r', |r'| - 1, h);
    }
  }

  lemma LinkedBucket(r: seq<State>, h: Hid)
    requires Run(r) && h in End(r).m.table
    ensures h in End(r).m.hs && End(r).m.cfg.dflt != Some(h)
  {
    RunInv(r, |r| - 1);
    assert HandleOk(End(r), h);
  }
}
