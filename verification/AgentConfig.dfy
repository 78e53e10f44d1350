/**
 Reconciling the proxy list with a new configuration, as moxi/agent_config.c does it.  The list is
 a sequence, head first; AgentMain has the objects and the loops.
 */
module AgentConfig {
  import opened Prelude

  /** A proxy_behavior, compared byte for byte. */
  type Behavior = seq<nat>

  /** What a reconfiguration replaces; no config means shut down. */
  datatype Content = Content(config: Option<string>, base: Behavior, arr: Option<seq<Behavior>>)
  datatype Proxy = Proxy(name: string, port: nat, content: Content, ver: nat)

  /** One accepted bucket of a configuration; `created` says whether cproxy_create would succeed. */
  datatype Entry = Entry(name: string, port: nat, config: string, base: Behavior, arr: seq<Behavior>, created: bool)

  const NULL_BUCKET := "[ <NULL_BUCKET> ]"
  const UINT32: nat := 0x1_0000_0000

  // ----------------------------------------------------------------------------------------
  // Strings and contents

  predicate IsSpace(c: char) { c == ' ' || '\t' <= c <= '\r' }

  function SkipSpace(s: string): string { if s != [] && IsSpace(s[0]) then SkipSpace(s[1..]) else s }

  function TrailSpace(s: string): string { if s != [] && IsSpace(s[|s| - 1]) then TrailSpace(s[..|s| - 1]) else s }

  /** trimstrdup */
  function Trim(s: string): string { TrailSpace(SkipSpace(s)) }

  lemma {:induction false} TrailKeepsFront(s: string)
    requires s != [] && !IsSpace(s[0])
    ensures TrailSpace(s) != [] && TrailSpace(s)[0] == s[0] && TrailSpace(TrailSpace(s)) == TrailSpace(s)
  {
    if IsSpace(s[|s| - 1]) { TrailKeepsFront(s[..|s| - 1]); }
  }

  lemma {:induction false} SkipFront(s: string)
    ensures SkipSpace(s) == [] || !IsSpace(SkipSpace(s)[0])
  {
    if s != [] && IsSpace(s[0]) { SkipFront(s[1..]); }
  }

  /** Space, and the control characters from tab to carriage return. */
  predicate BlankChar(c: char) { c as int in {9, 10, 11, 12, 13, 32} }

  predicate Blank(s: string) { forall i | 0 <= i < |s| :: BlankChar(s[i]) }

  lemma {:induction false} SkipIs(s: string)
    ensures exists front: string :: Blank(front) && s == front + SkipSpace(s)
  {
    if s != [] && IsSpace(s[0]) {
      SkipIs(s[1..]);
      var front: string :| Blank(front) && s[1..] == front + SkipSpace(s[1..]);
      assert Blank([s[0]] + front) && s == [s[0]] + front + SkipSpace(s);
    } else {
      assert Blank([]) && s == [] + SkipSpace(s);
    }
  }

  lemma {:induction false} TrailIs(s: string)
    ensures exists back: string :: Blank(back) && s == TrailSpace(s) + back
    ensures TrailSpace(s) != [] ==> !BlankChar(TrailSpace(s)[|TrailSpace(s)| - 1])
  {
    if s != [] && IsSpace(s[|s| - 1]) {
      var last := s[|s| - 1];
      TrailIs(s[..|s| - 1]);
      var back: string :| Blank(back) && s[..|s| - 1] == TrailSpace(s) + back;
      assert Blank(back + [last]) && s == TrailSpace(s) + (back + [last]);
    } else {
      assert Blank([]) && s == TrailSpace(s) + [];
    }
  }

  /** trimstrdup cuts a string between its outer blanks. */
  lemma TrimIs(s: string)
    ensures exists front: string, back: string :: Blank(front) && Blank(back) && s == front + Trim(s) + back
    ensures Trim(s) != [] ==> !BlankChar(Trim(s)[0]) && !BlankChar(Trim(s)[|Trim(s)| - 1])
  {
    var middle := SkipSpace(s);
    SkipIs(s);
    TrailIs(middle);
    SkipFront(s);
    var front: string :| Blank(front) && s == front + middle;
    var back: string :| Blank(back) && middle == Trim(s) + back;
    assert s == front + Trim(s) + back;
    if Trim(s) != [] { assert Trim(s)[0] == middle[0]; }
  }

  lemma TrimTwice(s: string)
    ensures Trim(Trim(s)) == Trim(s)
  {
    SkipFront(s);
    if SkipSpace(s) != [] { TrailKeepsFront(SkipSpace(s)); }
  }

  /** update_str_config */
  function UpdateStr(curr: Option<string>, next: Option<string>): Option<string> {
    var kept := if curr.Some? && (next.None? || curr.value != next.value) then None else curr;
    if kept.None? && next.Some? then Some(Trim(next.value)) else kept
  }

  /** update_behaviors_config */
  function UpdateArr(curr: Option<seq<Behavior>>, next: Option<seq<Behavior>>): Option<seq<Behavior>> {
    var kept := if curr.Some? && (next.None? || curr.value != next.value) then None else curr;
    if kept.None? && next.Some? then next else kept
  }

  predicate Trimmed(config: Option<string>) { config.Some? ==> Trim(config.value) == config.value }

  function TrimOption(config: Option<string>): Option<string> {
    if config.Some? then Some(Trim(config.value)) else None
  }

  predicate Live(p: Proxy) { p.content.config.Some? && p.content.arr.Some? }

  // ----------------------------------------------------------------------------------------
  // The operations

  /** The position of the first proxy with a name and port, or the length. */
  function Find(ps: seq<Proxy>, name: string, port: nat): (i: nat)
    ensures i <= |ps| && (i < |ps| ==> ps[i].name == name && ps[i].port == port)
    ensures forall j | 0 <= j < i :: ps[j].name != name || ps[j].port != port
  { if ps == [] || (ps[0].name == name && ps[0].port == port) then 0 else 1 + Find(ps[1..], name, port) }

  function Lookup(ps: seq<Proxy>, name: string, port: nat): Option<Proxy> {
    var i := Find(ps, name, port);
    if i < |ps| then Some(ps[i]) else None
  }

  function Replace(curr: Content, next: Content): Content {
    Content(UpdateStr(curr.config, next.config), next.base, UpdateArr(curr.arr, next.arr))
  }

  // Whatever was there, the update leaves the next content, trimmed.
  lemma UpdateReplaces(curr: Content, next: Content)
    requires Trimmed(curr.config)
    ensures Replace(curr, next) == next.(config := TrimOption(next.config))
    ensures Trimmed(TrimOption(next.config))
  {
    if next.config.Some? { TrimTwice(next.config.value); }
  }

  function Reconfigure(p: Proxy, next: Content, ver: nat): Proxy {
    p.(content := Replace(p.content, next), ver := ver)
  }

  /** cproxy_on_config_pool; None is a failed assertion: the proxy has the new version already, or
      a proxy would be created to be shut down. */
  function OnConfigPool(ps: seq<Proxy>, name: string, port: nat, next: Content, ver: nat, created: bool)
    : Option<seq<Proxy>>
  {
    var i := Find(ps, name, port);
    if i < |ps| then
      if ps[i].ver == ver then None else Some(ps[i := Reconfigure(ps[i], next, ver)])
    else if next.config.None? then None
    else if created then Some([Proxy(Trim(name), port, next.(config := TrimOption(next.config)), ver)] + ps)
    else Some(ps)
  }

  function EntryContent(e: Entry): Content { Content(Some(e.config), e.base, Some(e.arr)) }

  function ApplyAll(ps: seq<Proxy>, entries: seq<Entry>, ver: nat): Option<seq<Proxy>>
    decreases |entries|
  {
    if entries == [] then Some(ps)
    else
      var e := entries[0];
      match OnConfigPool(ps, e.name, e.port, EntryContent(e), ver, e.created)
      case None => None
      case Some(ps') => ApplyAll(ps', entries[1..], ver)
  }

  /** close_outdated_proxies from position `i` on; `base` is the pool-level behaviour of the main. */
  function CloseFrom(ps: seq<Proxy>, i: nat, ver: nat, base: Behavior): Option<seq<Proxy>>
    decreases |ps| - i
  {
    if i >= |ps| then Some(ps)
    else if ps[i].ver != ver && ps[i].name != NULL_BUCKET then
      match OnConfigPool(ps, ps[i].name, ps[i].port, Content(None, base, None), ver, false)
      case None => None
      case Some(ps') => if |ps'| == |ps| then CloseFrom(ps', i + 1, ver, base) else None
    else CloseFrom(ps, i + 1, ver, base)
  }

  function MaxVer(ps: seq<Proxy>): (m: nat)
    ensures forall i | 0 <= i < |ps| :: ps[i].ver <= m
    ensures m == 0 || exists i :: 0 <= i < |ps| && ps[i].ver == m
  {
    if ps == [] then 0
    else
      var m := MaxVer(ps[1..]);
      assert forall i | 1 <= i < |ps| :: ps[i] == ps[1..][i - 1];
      if ps[0].ver > m then ps[0].ver else m
  }

  function Increment(ver: nat): nat { (ver + 1) % UINT32 }

  /** The version of the next round, in 32 bits. */
  function NextVer(ps: seq<Proxy>): nat { Increment(MaxVer(ps)) }

  /** cproxy_on_config once the configuration's buckets have been accepted. */
  function Round(ps: seq<Proxy>, entries: seq<Entry>, base: Behavior): Option<seq<Proxy>> {
    match ApplyAll(ps, entries, NextVer(ps))
    case None => None
    case Some(ps') => CloseFrom(ps', 0, NextVer(ps), base)
  }

  // ----------------------------------------------------------------------------------------
  // Invariants

  predicate Unique(ps: seq<Proxy>) {
    forall i, j | 0 <= i < j < |ps| :: ps[i].name != ps[j].name || ps[i].port != ps[j].port
  }

  /** What creation and reconfiguration keep of each proxy: names and configs are trimmed. */
  predicate Kept(ps: seq<Proxy>) {
    forall i | 0 <= i < |ps| ::
      Trim(ps[i].name) == ps[i].name && Trimmed(ps[i].content.config) && ps[i].ver < 0x1_0000_0000
  }

  predicate WellKept(ps: seq<Proxy>) { Unique(ps) && Kept(ps) }

  predicate AllBelow(ps: seq<Proxy>, ver: nat) { forall i | 0 <= i < |ps| :: ps[i].ver < ver }

  lemma IncrementAbove(ps: seq<Proxy>, m: nat)
    requires AllBelow(ps, UINT32) && AllBelow(ps, m + 1)
    requires m == 0 || exists i :: 0 <= i < |ps| && ps[i].ver == m
    ensures AllBelow(ps, Increment(m)) <==> ps == [] || m < UINT32 - 1
  {
    if m == UINT32 - 1 {
      var i :| 0 <= i < |ps| && ps[i].ver == m;
      assert Increment(m) == 0;
    }
  }

  /** The new version is above every version in the list exactly when the counter has not reached its end. */
  lemma NextVerAbove(ps: seq<Proxy>)
    requires AllBelow(ps, 0x1_0000_0000)
    ensures AllBelow(ps, NextVer(ps)) <==> ps == [] || MaxVer(ps) < 0xFFFF_FFFF
    ensures NextVer(ps) == if MaxVer(ps) == 0xFFFF_FFFF then 0 else MaxVer(ps) + 1
  {
    var m := MaxVer(ps);
    IncrementAbove(ps, m);
  }

  lemma FindUnique(ps: seq<Proxy>, i: nat)
    requires Unique(ps) && i < |ps|
    ensures Find(ps, ps[i].name, ps[i].port) == i
  {
  }

  lemma LookupFront(p: Proxy, ps: seq<Proxy>, n: string, q: nat)
    ensures Lookup([p] + ps, n, q) == if p.name == n && p.port == q then Some(p) else Lookup(ps, n, q)
  {
    assert ([p] + ps)[1..] == ps;
  }

  lemma {:induction false} LookupUpdate(ps: seq<Proxy>, i: nat, p: Proxy, n: string, q: nat)
    requires Unique(ps) && i < |ps| && p.name == ps[i].name && p.port == ps[i].port
    ensures Lookup(ps[i := p], n, q) == if p.name == n && p.port == q then Some(p) else Lookup(ps, n, q)
  {
    FindUnique(ps, i);
    FindUnique(ps[i := p], i);
    var j, j' := Find(ps, n, q), Find(ps[i := p], n, q);
    if !(p.name == n && p.port == q) {
      if j < |ps| { assert ps[i := p][j] == ps[j]; }
      if j' < |ps| { assert ps[i := p][j'] == ps[j']; }
    }
  }

  /** With a name that has outer blanks the created proxy gets the trimmed name, so uniqueness is kept
      exactly when the name is found, not created, or not taken once trimmed. */
  lemma UniqueKeptIff(ps: seq<Proxy>, name: string, port: nat, next: Content, ver: nat, created: bool)
    requires Unique(ps) && OnConfigPool(ps, name, port, next, ver, created).Some?
    ensures Unique(OnConfigPool(ps, name, port, next, ver, created).value)
      <==> Lookup(ps, name, port).Some? || !created || Lookup(ps, Trim(name), port).None?
  {
    var i := Find(ps, name, port);
    if i == |ps| && created {
      var ps' := OnConfigPool(ps, name, port, next, ver, created).value;
      var j := Find(ps, Trim(name), port);
      if j < |ps| { assert ps'[0].name == ps'[j + 1].name && ps'[0].port == ps'[j + 1].port; }
    }
  }

  // A bucket called "a " configured twice leaves two proxies called "a" on one port.
  lemma BlankNameDuplicates()
    ensures var next := Content(Some("x"), [], Some([]));
      var once := OnConfigPool([], "a ", 1, next, 1, true);
      && once.Some?
      && var twice := OnConfigPool(once.value, "a ", 1, next, 2, true); twice.Some? && !Unique(twice.value)
  {
    var next := Content(Some("x"), [], Some([]));
    assert SkipSpace("a ") == "a ";
    assert "a "[..1] == "a";
    assert Trim("a ") == "a";
    var once := OnConfigPool([], "a ", 1, next, 1, true).value;
    UniqueKeptIff(once, "a ", 1, next, 2, true);
  }

  // ----------------------------------------------------------------------------------------
  // One bucket

  /** The name has no outer blanks, so a proxy created for it can be found again. */
  predicate Plain(e: Entry) { Trim(e.name) == e.name }

  /** The entry is about the proxy with this name and port. */
  predicate For(e: Entry, n: string, q: nat) { Trim(e.name) == n && e.port == q }

  /** The entry replaces a proxy or creates one. */
  predicate Effective(ps: seq<Proxy>, e: Entry) { e.created || (Plain(e) && Lookup(ps, e.name, e.port).Some?) }

  /** The entry meets no proxy that has the new version, and no proxy under the name it would be given. */
  predicate Fits(ps: seq<Proxy>, e: Entry, ver: nat) {
    var was := Lookup(ps, Trim(e.name), e.port);
    if Plain(e) then was.Some? ==> was.value.ver != ver else e.created ==> was.None?
  }

  /** What an effective entry's proxy holds after the round. */
  function Accepted(e: Entry, ver: nat): Proxy {
    Proxy(Trim(e.name), e.port, Content(Some(Trim(e.config)), e.base, Some(e.arr)), ver)
  }

  // An untrimmed name is never found.
  lemma BlankNotFound(ps: seq<Proxy>, e: Entry)
    requires Kept(ps) && !Plain(e)
    ensures Lookup(ps, e.name, e.port) == None
  {
  }

  lemma PoolUpdates(ps: seq<Proxy>, e: Entry, ver: nat)
    requires WellKept(ps) && ver < UINT32 && Fits(ps, e, ver) && Lookup(ps, e.name, e.port).Some?
    ensures var r := OnConfigPool(ps, e.name, e.port, EntryContent(e), ver, e.created);
      && r.Some? && WellKept(r.value)
      && forall n, q :: Lookup(r.value, n, q) == if For(e, n, q) then Some(Accepted(e, ver)) else Lookup(ps, n, q)
  {
    var i := Find(ps, e.name, e.port);
    TrimTwice(e.config);
    UpdateReplaces(ps[i].content, EntryContent(e));
    forall n, q ensures Lookup(ps[i := Accepted(e, ver)], n, q)
      == if For(e, n, q) then Some(Accepted(e, ver)) else Lookup(ps, n, q)
    {
      LookupUpdate(ps, i, Accepted(e, ver), n, q);
    }
  }

  lemma PoolCreates(ps: seq<Proxy>, e: Entry, ver: nat)
    requires WellKept(ps) && ver < UINT32 && Fits(ps, e, ver) && Lookup(ps, e.name, e.port).None?
    ensures var r := OnConfigPool(ps, e.name, e.port, EntryContent(e), ver, e.created);
      && r.Some? && WellKept(r.value)
      && forall n, q :: Lookup(r.value, n, q)
           == if e.created && For(e, n, q) then Some(Accepted(e, ver)) else Lookup(ps, n, q)
  {
    TrimTwice(e.config);
    TrimTwice(e.name);
    if e.created {
      UniqueKeptIff(ps, e.name, e.port, EntryContent(e), ver, true);
      forall n, q ensures Lookup([Accepted(e, ver)] + ps, n, q)
        == if For(e, n, q) then Some(Accepted(e, ver)) else Lookup(ps, n, q)
      {
        LookupFront(Accepted(e, ver), ps, n, q);
      }
    }
  }

  /** One bucket succeeds and keeps (name, port) unique exactly when it fits the list; then its proxy
      is replaced or, if creation succeeds, added, and every other proxy stays. */
  lemma OnConfigPoolKeeps(ps: seq<Proxy>, e: Entry, ver: nat)
    requires WellKept(ps) && ver < UINT32
    ensures var r := OnConfigPool(ps, e.name, e.port, EntryContent(e), ver, e.created);
      && (r.Some? && Unique(r.value) <==> Fits(ps, e, ver))
      && (Fits(ps, e, ver) ==>
            && WellKept(r.value)
            && forall n, q :: Lookup(r.value, n, q)
                 == if For(e, n, q) && Effective(ps, e) then Some(Accepted(e, ver)) else Lookup(ps, n, q))
  {
    if !Plain(e) { BlankNotFound(ps, e); }
    if Fits(ps, e, ver) {
      if Lookup(ps, e.name, e.port).Some? { PoolUpdates(ps, e, ver); } else { PoolCreates(ps, e, ver); }
    } else if !Plain(e) {
      UniqueKeptIff(ps, e.name, e.port, EntryContent(e), ver, true);
    }
  }

  /** Two proxies with one name and port stay two. */
  lemma DuplicatesStay(ps: seq<Proxy>, name: string, port: nat, next: Content, ver: nat, created: bool)
    requires !Unique(ps)
    ensures var r := OnConfigPool(ps, name, port, next, ver, created); r.Some? ==> !Unique(r.value)
  {
    var r := OnConfigPool(ps, name, port, next, ver, created);
    if r.Some? {
      var i, j :| 0 <= i < j < |ps| && ps[i].name == ps[j].name && ps[i].port == ps[j].port;
      var d := |r.value| - |ps|;
      assert r.value[i + d].name == ps[i].name && r.value[j + d].name == ps[j].name;
    }
  }

  // ----------------------------------------------------------------------------------------
  // All buckets of a configuration

  /** `a`, applied before `b`, leaves the new version in the proxy that `b` then finds, or would create
      a second time. */
  predicate Clash(ps: seq<Proxy>, a: Entry, b: Entry) {
    Trim(a.name) == Trim(b.name) && a.port == b.port && Effective(ps, a) && (b.created || Plain(b))
  }

  predicate NoClash(ps: seq<Proxy>, entries: seq<Entry>) {
    forall i, j | 0 <= i < j < |entries| :: !Clash(ps, entries[i], entries[j])
  }

  /** What a configuration's buckets must meet. */
  predicate AllFit(ps: seq<Proxy>, entries: seq<Entry>, ver: nat) {
    NoClash(ps, entries) && forall i | 0 <= i < |entries| :: Fits(ps, entries[i], ver)
  }

  /** The list after one bucket, as OnConfigPoolKeeps gives it. */
  ghost predicate After(ps: seq<Proxy>, e: Entry, ver: nat, ps': seq<Proxy>) {
    forall n, q :: Lookup(ps', n, q)
      == if For(e, n, q) && Effective(ps, e) then Some(Accepted(e, ver)) else Lookup(ps, n, q)
  }

  // A later bucket fits the list after an earlier one exactly when it fitted before and they do not clash.
  lemma FitsAfter(ps: seq<Proxy>, e: Entry, ver: nat, ps': seq<Proxy>, f: Entry)
    requires After(ps, e, ver, ps') && Fits(ps, e, ver)
    ensures Fits(ps', f, ver) <==> Fits(ps, f, ver) && !Clash(ps, e, f)
    ensures !Clash(ps, e, f) ==> (Effective(ps', f) <==> Effective(ps, f))
    ensures !Clash(ps, e, f) && Effective(ps, e) && For(f, Trim(e.name), e.port) ==> !Effective(ps, f)
  {
    assert Lookup(ps', Trim(f.name), f.port) == if For(e, Trim(f.name), f.port) && Effective(ps, e)
      then Some(Accepted(e, ver)) else Lookup(ps, Trim(f.name), f.port);
  }

  lemma AllFitStep(ps: seq<Proxy>, entries: seq<Entry>, ver: nat, ps': seq<Proxy>)
    requires entries != [] && After(ps, entries[0], ver, ps') && Fits(ps, entries[0], ver)
    ensures AllFit(ps, entries, ver) <==> AllFit(ps', entries[1..], ver)
  {
    var rest := entries[1..];
    forall i | 0 <= i < |rest|
      ensures rest[i] == entries[i + 1]
      ensures Fits(ps', rest[i], ver) <==> Fits(ps, entries[i + 1], ver) && !Clash(ps, entries[0], entries[i + 1])
      ensures !Clash(ps, entries[0], entries[i + 1]) ==> (Effective(ps', rest[i]) <==> Effective(ps, entries[i + 1]))
    {
      FitsAfter(ps, entries[0], ver, ps', rest[i]);
    }
    if AllFit(ps', rest, ver) {
      forall i, j | 0 <= i < j < |entries| ensures !Clash(ps, entries[i], entries[j]) {
        assert Fits(ps', rest[j - 1], ver);
        if i > 0 { assert Fits(ps', rest[i - 1], ver) && !Clash(ps', rest[i - 1], rest[j - 1]); }
      }
      forall i | 0 <= i < |entries| ensures Fits(ps, entries[i], ver) {
        if i > 0 { assert Fits(ps', rest[i - 1], ver); }
      }
    }
  }

  /** The first effective entry for a name and port. */
  function EntryFor(ps: seq<Proxy>, entries: seq<Entry>, n: string, q: nat): Option<Entry> {
    if entries == [] then None
    else if For(entries[0], n, q) && Effective(ps, entries[0]) then Some(entries[0])
    else EntryFor(ps, entries[1..], n, q)
  }

  lemma {:induction false} EntryForIs(ps: seq<Proxy>, entries: seq<Entry>, n: string, q: nat)
    ensures var e := EntryFor(ps, entries, n, q);
      if e.Some? then e.value in entries && For(e.value, n, q) && Effective(ps, e.value)
      else forall f | f in entries :: !(For(f, n, q) && Effective(ps, f))
  {
    if entries != [] {
      EntryForIs(ps, entries[1..], n, q);
      assert entries == [entries[0]] + entries[1..];
    }
  }

  lemma {:induction false} EntryForSame(ps: seq<Proxy>, ps': seq<Proxy>, entries: seq<Entry>, n: string, q: nat)
    requires forall i | 0 <= i < |entries| :: Effective(ps, entries[i]) <==> Effective(ps', entries[i])
    ensures EntryFor(ps, entries, n, q) == EntryFor(ps', entries, n, q)
  {
    if entries != [] { EntryForSame(ps, ps', entries[1..], n, q); }
  }

  /** What applying the buckets makes of the proxy with a name and port. */
  function AppliedTo(was: Option<Proxy>, entry: Option<Entry>, ver: nat): Option<Proxy> {
    if entry.Some? then Some(Accepted(entry.value, ver)) else was
  }

  lemma AppliedStep(ps: seq<Proxy>, entries: seq<Entry>, ver: nat, ps': seq<Proxy>, n: string, q: nat)
    requires entries != [] && AllFit(ps, entries, ver)
    requires After(ps, entries[0], ver, ps')
    ensures AppliedTo(Lookup(ps', n, q), EntryFor(ps', entries[1..], n, q), ver)
         == AppliedTo(Lookup(ps, n, q), EntryFor(ps, entries, n, q), ver)
  {
    var e, rest := entries[0], entries[1..];
    forall i | 0 <= i < |rest|
      ensures Effective(ps, rest[i]) <==> Effective(ps', rest[i])
      ensures For(e, n, q) && Effective(ps, e) && For(rest[i], n, q) ==> !Effective(ps, rest[i])
    {
      assert rest[i] == entries[i + 1];
      FitsAfter(ps, e, ver, ps', rest[i]);
    }
    EntryForSame(ps, ps', rest, n, q);
    if For(e, n, q) && Effective(ps, e) { EntryForIs(ps, rest, n, q); }
  }

  lemma {:induction false} ApplyAllDuplicates(ps: seq<Proxy>, entries: seq<Entry>, ver: nat)
    requires !Unique(ps)
    ensures var r := ApplyAll(ps, entries, ver); r.Some? ==> !Unique(r.value)
    decreases |entries|
  {
    if entries != [] {
      var e := entries[0];
      DuplicatesStay(ps, e.name, e.port, EntryContent(e), ver, e.created);
      var r := OnConfigPool(ps, e.name, e.port, EntryContent(e), ver, e.created);
      if r.Some? { ApplyAllDuplicates(r.value, entries[1..], ver); }
    }
  }

  /** All buckets succeed and keep (name, port) unique exactly when they fit the list and do not
      clash; then each effective one's proxy holds its content and every other proxy stays. */
  lemma {:induction false} ApplyAllIs(ps: seq<Proxy>, entries: seq<Entry>, ver: nat)
    requires WellKept(ps) && ver < UINT32
    ensures var r := ApplyAll(ps, entries, ver);
      && (r.Some? && Unique(r.value) <==> AllFit(ps, entries, ver))
      && (AllFit(ps, entries, ver) ==>
            && WellKept(r.value)
            && forall n, q :: Lookup(r.value, n, q) == AppliedTo(Lookup(ps, n, q), EntryFor(ps, entries, n, q), ver))
    decreases |entries|
  {
    if entries != [] {
      var e, rest := entries[0], entries[1..];
      OnConfigPoolKeeps(ps, e, ver);
      var r := OnConfigPool(ps, e.name, e.port, EntryContent(e), ver, e.created);
      if Fits(ps, e, ver) {
        ApplyAllIs(r.value, rest, ver);
        AllFitStep(ps, entries, ver, r.value);
        if AllFit(ps, entries, ver) {
          forall n, q ensures AppliedTo(Lookup(r.value, n, q), EntryFor(r.value, rest, n, q), ver)
                           == AppliedTo(Lookup(ps, n, q), EntryFor(ps, entries, n, q), ver)
          {
            AppliedStep(ps, entries, ver, r.value, n, q);
          }
        }
      } else if r.Some? {
        ApplyAllDuplicates(r.value, rest, ver);
      }
    }
  }

  // ----------------------------------------------------------------------------------------
  // A whole round

  /** What closing makes of a proxy. */
  function ClosedTo(p: Proxy, ver: nat, base: Behavior): Proxy {
    if p.ver != ver && p.name != NULL_BUCKET then Proxy(p.name, p.port, Content(None, base, None), ver) else p
  }

  // Closing the proxy at `i` changes that proxy only.
  lemma CloseOne(ps: seq<Proxy>, i: nat, ver: nat, base: Behavior)
    requires WellKept(ps) && i < |ps| && ver < UINT32 && ps[i].ver != ver && ps[i].name != NULL_BUCKET
    ensures var ps' := ps[i := ClosedTo(ps[i], ver, base)];
      OnConfigPool(ps, ps[i].name, ps[i].port, Content(None, base, None), ver, false) == Some(ps') && WellKept(ps')
  {
    FindUnique(ps, i);
    UpdateReplaces(ps[i].content, Content(None, base, None));
  }

  lemma {:induction false} CloseFromIs(ps: seq<Proxy>, i: nat, ver: nat, base: Behavior)
    requires WellKept(ps) && i <= |ps| && ver < UINT32
    ensures var r := CloseFrom(ps, i, ver, base);
      && r.Some? && WellKept(r.value) && |r.value| == |ps|
      && forall j | 0 <= j < |ps| :: r.value[j] == if j < i then ps[j] else ClosedTo(ps[j], ver, base)
    decreases |ps| - i
  {
    if i < |ps| {
      CloseStep(ps, i, ver, base);
      CloseFromIs(ps[i := ClosedTo(ps[i], ver, base)], i + 1, ver, base);
    }
  }

  lemma CloseStep(ps: seq<Proxy>, i: nat, ver: nat, base: Behavior)
    requires WellKept(ps) && i < |ps| && ver < UINT32
    ensures var ps' := ps[i := ClosedTo(ps[i], ver, base)];
      WellKept(ps') && CloseFrom(ps, i, ver, base) == CloseFrom(ps', i + 1, ver, base)
  {
    if ps[i].ver != ver && ps[i].name != NULL_BUCKET {
      CloseOne(ps, i, ver, base);
    } else {
      assert ps[i := ps[i]] == ps;
    }
  }

  lemma SameNames(ps: seq<Proxy>, qs: seq<Proxy>, n: string, q: nat)
    requires |ps| == |qs| && forall j | 0 <= j < |ps| :: ps[j].name == qs[j].name && ps[j].port == qs[j].port
    ensures Find(ps, n, q) == Find(qs, n, q)
  {
  }

  lemma {:induction false} CloseDuplicates(ps: seq<Proxy>, i: nat, ver: nat, base: Behavior)
    requires !Unique(ps)
    ensures var r := CloseFrom(ps, i, ver, base); r.Some? ==> !Unique(r.value)
    decreases |ps| - i
  {
    if i < |ps| {
      if ps[i].ver != ver && ps[i].name != NULL_BUCKET {
        DuplicatesStay(ps, ps[i].name, ps[i].port, Content(None, base, None), ver, false);
        var r := OnConfigPool(ps, ps[i].name, ps[i].port, Content(None, base, None), ver, false);
        if r.Some? && |r.value| == |ps| { CloseDuplicates(r.value, i + 1, ver, base); }
      } else {
        CloseDuplicates(ps, i + 1, ver, base);
      }
    }
  }

  /** The names and ports that have a proxy. */
  function Known(ps: seq<Proxy>): set<(string, nat)> { set i | 0 <= i < |ps| :: (ps[i].name, ps[i].port) }

  lemma KnownIs(ps: seq<Proxy>, n: string, q: nat)
    ensures (n, q) in Known(ps) <==> Lookup(ps, n, q).Some?
  {
    var i := Find(ps, n, q);
    if i < |ps| { assert (ps[i].name, ps[i].port) in Known(ps); }
  }

  /** The name and port of the entry's proxy. */
  function KeyOf(e: Entry): (string, nat) { (Trim(e.name), e.port) }

  /** The entry replaces a proxy that is known or creates one. */
  predicate Acts(known: set<(string, nat)>, e: Entry) { e.created || (Plain(e) && KeyOf(e) in known) }

  /** What a configuration must meet in a round, where every proxy has an older version: an entry that
      would create a proxy under a trimmed name finds none of that name and port, and an entry after one
      that acted on its proxy neither is found nor creates one. */
  predicate NamesFit(known: set<(string, nat)>, entries: seq<Entry>) {
    && (forall i | 0 <= i < |entries| && !Plain(entries[i]) && entries[i].created :: KeyOf(entries[i]) !in known)
    && (forall i, j | 0 <= i < j < |entries| && KeyOf(entries[i]) == KeyOf(entries[j]) && Acts(known, entries[i]) ::
          !Plain(entries[j]) && !entries[j].created)
  }

  // Distinct names without outer blanks always fit.
  lemma PlainNamesFit(known: set<(string, nat)>, entries: seq<Entry>)
    requires forall i | 0 <= i < |entries| :: Plain(entries[i])
    requires forall i, j | 0 <= i < j < |entries| :: entries[i].name != entries[j].name
    ensures NamesFit(known, entries)
  {
  }

  /** What a round makes of the proxy with a name and port. */
  function RoundedTo(ps: seq<Proxy>, entries: seq<Entry>, base: Behavior, n: string, q: nat): Option<Proxy> {
    match AppliedTo(Lookup(ps, n, q), EntryFor(ps, entries, n, q), NextVer(ps))
    case None => None
    case Some(p) => Some(ClosedTo(p, NextVer(ps), base))
  }

  /** A round succeeds and keeps (name, port) unique exactly when the names fit.  Then, proxy by proxy:
      an effective entry's proxy holds its content, the null bucket's stays as it was, and every other
      one is shut down; all but the null bucket's get the new version, above every earlier one. */
  lemma RoundReconciles(ps: seq<Proxy>, entries: seq<Entry>, base: Behavior)
    requires WellKept(ps) && MaxVer(ps) < 0xFFFF_FFFF
    ensures AllBelow(ps, NextVer(ps))
    ensures var r := Round(ps, entries, base);
      && (r.Some? && Unique(r.value) <==> NamesFit(Known(ps), entries))
      && (NamesFit(Known(ps), entries) ==>
            && WellKept(r.value)
            && forall n, q :: Lookup(r.value, n, q) == RoundedTo(ps, entries, base, n, q))
  {
    var ver := NextVer(ps);
    NextVerAbove(ps);
    NamesFitIs(ps, entries, ver);
    ApplyAllIs(ps, entries, ver);
    var applied := ApplyAll(ps, entries, ver);
    if applied.Some? {
      if Unique(applied.value) {
        CloseFromIs(applied.value, 0, ver, base);
        var closed := CloseFrom(applied.value, 0, ver, base).value;
        forall n, q ensures Find(closed, n, q) == Find(applied.value, n, q) {
          SameNames(closed, applied.value, n, q);
        }
      } else {
        CloseDuplicates(applied.value, 0, ver, base);
      }
    }
  }

  lemma NamesFitIs(ps: seq<Proxy>, entries: seq<Entry>, ver: nat)
    requires AllBelow(ps, ver)
    ensures AllFit(ps, entries, ver) <==> NamesFit(Known(ps), entries)
  {
    forall i | 0 <= i < |entries|
      ensures KeyOf(entries[i]) in Known(ps) <==> Lookup(ps, Trim(entries[i].name), entries[i].port).Some?
      ensures Acts(Known(ps), entries[i]) <==> Effective(ps, entries[i])
      ensures Fits(ps, entries[i], ver) <==>
        (!Plain(entries[i]) && entries[i].created ==> KeyOf(entries[i]) !in Known(ps))
    {
      KnownIs(ps, Trim(entries[i].name), entries[i].port);
    }
    if NoClash(ps, entries) {
      forall i, j | 0 <= i < j < |entries| && KeyOf(entries[i]) == KeyOf(entries[j]) && Acts(Known(ps), entries[i])
        ensures !Plain(entries[j]) && !entries[j].created
      {
        assert !Clash(ps, entries[i], entries[j]);
      }
    }
  }

  /** After a round whose names fit, every proxy but the null bucket's carries the new version, and is
      live exactly when some bucket of that name, trimmed, and port was effective; no proxy is lost. */
  lemma RoundLiveIffAccepted(ps: seq<Proxy>, entries: seq<Entry>, base: Behavior, n: string, q: nat)
    requires WellKept(ps) && MaxVer(ps) < 0xFFFF_FFFF && NamesFit(Known(ps), entries)
    ensures var r := Round(ps, entries, base);
      && r.Some?
      && var now := Lookup(r.value, n, q);
        && (Lookup(ps, n, q).Some? ==> now.Some?)
        && (now.Some? && n != "[ <NULL_BUCKET> ]" ==>
              && now.value.ver == NextVer(ps)
              && (Live(now.value) <==> exists e :: e in entries && For(e, n, q) && Effective(ps, e))
              && (if Live(now.value) then now.value.content.config.Some? && now.value.content.arr.Some?
                  else now.value.content == Content(None, base, None)))
        && (n == "[ <NULL_BUCKET> ]" && EntryFor(ps, entries, n, q).None? ==> now == Lookup(ps, n, q))
  {
    RoundReconciles(ps, entries, base);
    EntryForIs(ps, entries, n, q);
    var r := Round(ps, entries, base);
    assert Lookup(r.value, n, q) == RoundedTo(ps, entries, base, n, q);
  }

  // ----------------------------------------------------------------------------------------
  // Names with outer blanks

  function Bucket(name: string): Entry { Entry(name, 1, "x", [], [], true) }

  lemma TrimBlank()
    ensures Trim("a ") == "a" && Trim("a") == "a"
  {
    assert SkipSpace("a ") == "a " && SkipSpace("a") == "a";
    assert "a "[..1] == "a";
  }

  // "a " before "a" on one port: the second finds the proxy that the first created, at the new version.
  lemma BlankBeforePlainFails()
    ensures Round([], [Bucket("a "), Bucket("a")], []) == None
  {
    TrimBlank();
    var entries := [Bucket("a "), Bucket("a")];
    var one := OnConfigPool([], "a ", 1, EntryContent(entries[0]), 1, true).value;
    assert Find(one, "a", 1) == 0;
    assert entries[1..] == [Bucket("a")];
    assert ApplyAll(one, entries[1..], 1) == None;
  }

  // "a " alone leaves a live proxy called "a", which no entry names.
  lemma BlankNameLive()
    ensures var r := Round([], [Bucket("a ")], []);
      && r.Some? && Lookup(r.value, "a", 1).Some? && Live(Lookup(r.value, "a", 1).value)
      && forall e | e in [Bucket("a ")] :: e.name != "a"
  {
    TrimBlank();
    var entries := [Bucket("a ")];
    RoundReconciles([], entries, []);
    assert NamesFit(Known([]), entries);
    assert EntryFor([], entries, "a", 1) == Some(Bucket("a "));
    assert Lookup(Round([], entries, []).value, "a", 1) == RoundedTo([], entries, [], "a", 1);
  }

  // ----------------------------------------------------------------------------------------
  // Any number of rounds

  function Rounds(ps: seq<Proxy>, rounds: seq<seq<Entry>>, base: Behavior): Option<seq<Proxy>>
    decreases |rounds|
  {
    if rounds == [] then Some(ps)
    else match Round(ps, rounds[0], base)
      case None => None
      case Some(ps') => Rounds(ps', rounds[1..], base)
  }

  lemma RoundMaxVer(ps: seq<Proxy>, entries: seq<Entry>, base: Behavior)
    requires WellKept(ps) && MaxVer(ps) < UINT32 - 1 && NamesFit(Known(ps), entries)
    ensures Round(ps, entries, base).Some? && MaxVer(Round(ps, entries, base).value) <= MaxVer(ps) + 1
  {
    RoundReconciles(ps, entries, base);
    var now := Round(ps, entries, base).value;
    forall i | 0 <= i < |now| ensures now[i].ver <= MaxVer(ps) + 1 {
      FindUnique(now, i);
      RoundedVer(ps, entries, base, now[i].name, now[i].port);
    }
  }

  lemma RoundedVer(ps: seq<Proxy>, entries: seq<Entry>, base: Behavior, n: string, q: nat)
    requires MaxVer(ps) < UINT32 - 1
    ensures var now := RoundedTo(ps, entries, base, n, q); now.Some? ==> now.value.ver <= MaxVer(ps) + 1
  {
  }

  /** The names and ports of the proxies that the entries create. */
  function Made(entries: seq<Entry>): set<(string, nat)> {
    set i | 0 <= i < |entries| && entries[i].created :: KeyOf(entries[i])
  }

  /** The names of each round fit those known before and made in the rounds before it. */
  predicate RoundsFit(known: set<(string, nat)>, rounds: seq<seq<Entry>>)
    decreases |rounds|
  {
    rounds != [] ==> NamesFit(known, rounds[0]) && RoundsFit(known + Made(rounds[0]), rounds[1..])
  }

  // A round makes a name known exactly by creating it.
  lemma RoundNames(ps: seq<Proxy>, entries: seq<Entry>, base: Behavior, n: string, q: nat)
    requires WellKept(ps) && MaxVer(ps) < UINT32 - 1 && NamesFit(Known(ps), entries)
    ensures Round(ps, entries, base).Some?
    ensures Lookup(Round(ps, entries, base).value, n, q).Some? <==> Lookup(ps, n, q).Some? || (n, q) in Made(entries)
  {
    RoundReconciles(ps, entries, base);
    EntryForIs(ps, entries, n, q);
    assert Lookup(Round(ps, entries, base).value, n, q) == RoundedTo(ps, entries, base, n, q);
    if (n, q) in Made(entries) {
      var i :| 0 <= i < |entries| && entries[i].created && KeyOf(entries[i]) == (n, q);
      assert entries[i] in entries;
    }
  }

  lemma RoundKnows(ps: seq<Proxy>, entries: seq<Entry>, base: Behavior)
    requires WellKept(ps) && MaxVer(ps) < UINT32 - 1 && NamesFit(Known(ps), entries)
    ensures Round(ps, entries, base).Some?
    ensures Known(Round(ps, entries, base).value) == Known(ps) + Made(entries)
  {
    RoundReconciles(ps, entries, base);
    var now := Round(ps, entries, base).value;
    forall k: (string, nat) ensures k in Known(now) <==> k in Known(ps) + Made(entries) {
      RoundNames(ps, entries, base, k.0, k.1);
      KnownIs(ps, k.0, k.1);
      KnownIs(now, k.0, k.1);
    }
  }

  lemma {:induction false} RoundsDuplicates(ps: seq<Proxy>, rounds: seq<seq<Entry>>, base: Behavior)
    requires !Unique(ps)
    ensures var r := Rounds(ps, rounds, base); r.Some? ==> !Unique(r.value)
    decreases |rounds|
  {
    if rounds != [] {
      ApplyAllDuplicates(ps, rounds[0], NextVer(ps));
      var applied := ApplyAll(ps, rounds[0], NextVer(ps));
      if applied.Some? { CloseDuplicates(applied.value, 0, NextVer(ps), base); }
      if Round(ps, rounds[0], base).Some? { RoundsDuplicates(Round(ps, rounds[0], base).value, rounds[1..], base); }
    }
  }

  /** For as many rounds as the version counter has left: no assertion fails and (name, port) stays
      unique exactly when the names of all rounds fit. */
  lemma {:induction false} RoundsSucceed(ps: seq<Proxy>, rounds: seq<seq<Entry>>, base: Behavior)
    requires WellKept(ps) && MaxVer(ps) + |rounds| <= 0xFFFF_FFFF
    ensures var r := Rounds(ps, rounds, base);
      && (r.Some? && Unique(r.value) <==> RoundsFit(Known(ps), rounds))
      && (RoundsFit(Known(ps), rounds) ==> WellKept(r.value) && MaxVer(r.value) <= MaxVer(ps) + |rounds|)
    decreases |rounds|
  {
    if rounds != [] {
      RoundReconciles(ps, rounds[0], base);
      var r := Round(ps, rounds[0], base);
      if NamesFit(Known(ps), rounds[0]) {
        RoundMaxVer(ps, rounds[0], base);
        RoundKnows(ps, rounds[0], base);
        RoundsSucceed(r.value, rounds[1..], base);
      } else if r.Some? {
        RoundsDuplicates(r.value, rounds[1..], base);
      }
    }
  }
}
