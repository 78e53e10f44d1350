/** The proxy list of moxi/agent_config.c as objects, and the loops that reconfigure it. */
module AgentMain {
  import opened Prelude
  import opened AgentConfig
  import AgentWorkers

  class ProxyObject {
    const name: string
    const port: nat
    var config: Option<string>
    var base: Behavior
    var arr: Option<seq<Behavior>>
    var ver: nat

    constructor (name: string, port: nat, next: Content, ver: nat)
      ensures Shown() == Proxy(Trim(name), port, next.(config := TrimOption(next.config)), ver)
    {
      this.name, this.port := Trim(name), port;
      config, base, arr, this.ver := TrimOption(next.config), next.base, next.arr, ver;
    }

    function Shown(): Proxy
      reads this
    { Proxy(name, port, Content(config, base, arr), ver) }

    method UpdateConfig(next: Option<string>)
      modifies this`config
      ensures config == UpdateStr(old(config), next)
      ensures Trimmed(old(config)) ==> config == TrimOption(next)
    {
      if config.Some? && (next.None? || config.value != next.value) { config := None; }
      if config.None? && next.Some? { config := Some(Trim(next.value)); }
    }

    method UpdateBehaviors(next: Option<seq<Behavior>>)
      modifies this`arr
      ensures arr == UpdateArr(old(arr), next) == next
    {
      if arr.Some? && (next.None? || arr.value != next.value) { arr := None; }
      if arr.None? && next.Some? { arr := next; }
    }

    /** The part of cproxy_on_config_pool under the proxy's lock; false is its failed assertion that
        the version is a new one. */
    method Reconfigure(next: Content, ver: nat) returns (ok: bool)
      modifies this
      ensures ok == (old(this.ver) != ver)
      ensures ok ==> Shown() == AgentConfig.Reconfigure(old(Shown()), next, ver)
    {
      UpdateConfig(next.config);
      base := next.base;
      UpdateBehaviors(next.arr);
      if ver == this.ver { return false; }
      this.ver := ver;
      return true;
    }
  }

  /** A worker's snapshot of a proxy. */
  class ProxyThreadData {
    var config: Option<string>
    var base: Behavior
    var arr: Option<seq<Behavior>>
    var ver: nat

    constructor (p: Proxy)
      ensures Shown() == AgentWorkers.Snapshot(p.content, p.ver)
    { config, base, arr, ver := p.content.config, p.content.base, p.content.arr, p.ver; }

    function Shown(): AgentWorkers.Snapshot
      reads this
    { AgentWorkers.Snapshot(Content(config, base, arr), ver) }

    /** update_ptd_config, under the proxy's lock. */
    method Update(p: ProxyObject)
      modifies this
      ensures Shown() == AgentWorkers.Updated(old(Shown()), AgentWorkers.Snapshot(p.Shown().content, p.ver))
    {
      if ver != p.ver {
        ver := p.ver;
        if config.Some? && (p.config.None? || config.value != p.config.value) { config := None; }
        if config.None? && p.config.Some? { config := Some(Trim(p.config.value)); }
        base := p.base;
        if arr.Some? && (p.arr.None? || arr.value != p.arr.value) { arr := None; }
        if arr.None? && p.arr.Some? { arr := p.arr; }
      }
    }
  }

  ghost function Objects(proxies: seq<ProxyObject>): set<object> { set p | p in proxies }

  class ProxyMain {
    var behavior: Behavior
    /** The proxies, head first, and what they hold. */
    var proxies: seq<ProxyObject>
    ghost var list: seq<Proxy>

    ghost predicate Valid()
      reads this, proxies
    {
      && |list| == |proxies|
      && (forall i, j | 0 <= i < j < |proxies| :: proxies[i] != proxies[j])
      && forall i | 0 <= i < |proxies| :: list[i] == proxies[i].Shown()
    }

    constructor (behavior: Behavior)
      ensures Valid() && list == [] && this.behavior == behavior
    { this.behavior, proxies, list := behavior, [], []; }

    method FindProxy(name: string, port: nat) returns (i: nat)
      requires Valid()
      ensures i == Find(list, name, port)
    {
      i := 0;
      while i < |proxies| && !(proxies[i].port == port && proxies[i].name == name)
        invariant 0 <= i <= |proxies|
        invariant i + Find(list[i..], name, port) == Find(list, name, port)
      {
        assert list[i] == proxies[i].Shown();
        assert list[i..][1..] == list[i + 1..];
        i := i + 1;
      }
    }

    /** cproxy_on_config_pool; `ok` is false where an assertion fails. */
    method OnConfigPool(name: string, port: nat, next: Content, ver: nat, created: bool) returns (ok: bool)
      requires Valid()
      modifies this, Objects(proxies)
      ensures Valid() && behavior == old(behavior) && fresh(Objects(proxies) - old(Objects(proxies)))
      ensures var r := AgentConfig.OnConfigPool(old(list), name, port, next, ver, created);
        (ok <==> r.Some?) && (ok ==> list == r.value)
    {
      var i := FindProxy(name, port);
      if i < |proxies| {
        var p := proxies[i];
        ok := p.Reconfigure(next, ver);
        list := list[i := p.Shown()];
        return;
      } else {
        if next.config.None? { return false; }
        if created {
          var p := new ProxyObject(name, port, next, ver);
          proxies, list := [p] + proxies, [p.Shown()] + list;
        }
      }
      return true;
    }

    /** close_outdated_proxies */
    method CloseOutdated(ver: nat) returns (ok: bool)
      requires Valid()
      modifies this, Objects(proxies)
      ensures Valid() && behavior == old(behavior)
      ensures var r := CloseFrom(old(list), 0, ver, behavior); (ok <==> r.Some?) && (ok ==> list == r.value)
    {
      var i := 0;
      ghost var goal := CloseFrom(list, 0, ver, behavior);
      while i < |proxies|
        invariant 0 <= i <= |proxies| && Valid() && behavior == old(behavior)
        invariant fresh(Objects(proxies) - old(Objects(proxies)))
        invariant CloseFrom(list, i, ver, behavior) == goal
        decreases |proxies| - i
      {
        var p := proxies[i];
        assert list[i] == p.Shown();
        ghost var was := list;
        if p.ver != ver && p.name != NULL_BUCKET {
          ok := OnConfigPool(p.name, p.port, Content(None, behavior, None), ver, false);
          if !ok { return; }
          assert |list| == |was|;
        }
        assert CloseFrom(was, i, ver, behavior) == CloseFrom(list, i + 1, ver, behavior);
        i := i + 1;
      }
      return true;
    }

    /** The version of the next round: one above the largest, in 32 bits. */
    method NewVersion() returns (ver: nat)
      requires Valid()
      ensures ver == NextVer(list)
    {
      var max: nat, i := 0, 0;
      while i < |proxies|
        invariant 0 <= i <= |proxies|
        invariant MaxOf(max, list[i..]) == MaxVer(list)
      {
        assert list[i] == proxies[i].Shown();
        assert list[i..][1..] == list[i + 1..];
        if max < proxies[i].ver { max := proxies[i].ver; }
        i := i + 1;
      }
      assert list[i..] == [];
      return (max + 1) % UINT32;
    }

    static function MaxOf(max: nat, ps: seq<Proxy>): nat { if MaxVer(ps) > max then MaxVer(ps) else max }

    /** cproxy_on_config once the configuration's buckets have been accepted. */
    method OnConfig(entries: seq<Entry>) returns (ok: bool)
      requires Valid()
      modifies this, Objects(proxies)
      ensures Valid()
      ensures var r := Round(old(list), entries, behavior); (ok <==> r.Some?) && (ok ==> list == r.value)
    {
      var ver := NewVersion();
      var i := 0;
      ghost var goal := ApplyAll(list, entries, ver);
      while i < |entries|
        invariant 0 <= i <= |entries| && Valid() && behavior == old(behavior)
        invariant fresh(Objects(proxies) - old(Objects(proxies)))
        invariant ApplyAll(list, entries[i..], ver) == goal
      {
        assert entries[i..][1..] == entries[i + 1..];
        var e := entries[i];
        ok := OnConfigPool(e.name, e.port, EntryContent(e), ver, e.created);
        if !ok { return; }
        i := i + 1;
      }
      ok := CloseOutdated(ver);
    }
  }
}
