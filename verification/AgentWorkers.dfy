/**
 The worker threads' snapshots of one proxy (moxi/agent_config.c).  The listener replaces the
 shared content and then sends every worker an update; a worker that takes one copies the shared
 content if its version differs.  Each step happens under the proxy's lock or the queue's.
 */
module AgentWorkers {
  import opened AgentConfig

  datatype Snapshot = Snapshot(content: Content, ver: nat)

  /** `sent` is how many workers the listener has sent the last reconfiguration to, `queued` the
      updates in each worker's queue, `history` every content the proxy has had, oldest first. */
  datatype State = State(
    shared: Snapshot, workers: seq<Snapshot>, queued: seq<nat>, sent: nat, history: seq<Snapshot>)

  datatype Step =
    | Configure(next: Content, ver: nat)
    | Send
    | Work(w: nat)

  /** A fresh proxy, with the snapshots cproxy_create makes. */
  ghost predicate Init(s: State) {
    && Trimmed(s.shared.content.config)
    && (forall w | 0 <= w < |s.workers| :: s.workers[w] == s.shared)
    && s.queued == seq(|s.workers|, _ => 0)
    && s.sent == |s.workers|
    && s.history == [s.shared]
  }

  /** update_ptd_config */
  function Updated(mine: Snapshot, shared: Snapshot): Snapshot {
    if mine.ver != shared.ver then Snapshot(Replace(mine.content, shared.content), shared.ver) else mine
  }

  /** The listener starts a reconfiguration after it has sent all of the last one, with a new version. */
  predicate Enabled(s: State, step: Step) {
    match step
    case Configure(_, ver) => s.sent == |s.workers| && ver > s.shared.ver
    case Send => s.sent < |s.workers| && s.sent < |s.queued|
    case Work(w) => w < |s.workers| && w < |s.queued| && s.queued[w] > 0
  }

  function Next(s: State, step: Step): State
    requires Enabled(s, step)
  {
    match step
    case Configure(next, ver) =>
      var shared := Snapshot(Replace(s.shared.content, next), ver);
      s.(shared := shared, sent := 0, history := s.history + [shared])
    case Send => s.(queued := s.queued[s.sent := s.queued[s.sent] + 1], sent := s.sent + 1)
    case Work(w) =>
      s.(queued := s.queued[w := s.queued[w] - 1], workers := s.workers[w := Updated(s.workers[w], s.shared)])
  }

  /** The states of a run. */
  ghost predicate Run(states: seq<State>, steps: seq<Step>) {
    && |states| == |steps| + 1
    && Init(states[0])
    && forall i | 0 <= i < |steps| :: Enabled(states[i], steps[i]) && states[i + 1] == Next(states[i], steps[i])
  }

  ghost predicate Inv(s: State) {
    && |s.queued| == |s.workers|
    && s.sent <= |s.workers|
    && s.history != [] && s.history[|s.history| - 1] == s.shared
    && (forall i, j | 0 <= i < j < |s.history| :: s.history[i].ver < s.history[j].ver)
    && (forall h | h in s.history :: Trimmed(h.content.config))
    && (forall w | 0 <= w < |s.workers| :: s.workers[w] in s.history)
    && (forall w | 0 <= w < |s.workers| :: s.workers[w] == s.shared || s.queued[w] > 0 || s.sent <= w)
  }

  lemma LatestVersion(s: State, x: Snapshot)
    requires Inv(s) && x in s.history
    ensures x.ver <= s.shared.ver && (x.ver == s.shared.ver ==> x == s.shared)
  {
  }

  lemma NextInv(s: State, step: Step)
    requires Inv(s) && Enabled(s, step)
    ensures Inv(Next(s, step))
    ensures forall w | 0 <= w < |s.workers| :: s.workers[w].ver <= Next(s, step).workers[w].ver
    ensures |Next(s, step).workers| == |s.workers|
  {
    var s' := Next(s, step);
    match step {
      case Configure(next, ver) =>
        UpdateReplaces(s.shared.content, next);
        assert s'.history[..|s.history|] == s.history;
        forall w | 0 <= w < |s.workers| ensures s'.workers[w] in s'.history { assert s.workers[w] in s.history; }
        forall i | 0 <= i < |s.history| ensures s.history[i].ver < ver { LatestVersion(s, s.history[i]); }
      case Send =>
      case Work(w) =>
        LatestVersion(s, s.workers[w]);
        UpdateReplaces(s.workers[w].content, s.shared.content);
        assert Updated(s.workers[w], s.shared) == s.shared;
    }
  }

  lemma {:induction false} RunInv(states: seq<State>, steps: seq<Step>, i: nat)
    requires Run(states, steps) && i < |states|
    ensures Inv(states[i]) && |states[i].workers| == |states[0].workers|
  {
    if i > 0 {
      RunInv(states, steps, i - 1);
      NextInv(states[i - 1], steps[i - 1]);
      assert states[i - 1 + 1] == Next(states[i - 1], steps[i - 1]);
    }
  }

  /** At all times a snapshot is, whole, the content of one version the proxy has had. */
  lemma SnapshotIsOneVersion(states: seq<State>, steps: seq<Step>, i: nat, w: nat)
    requires Run(states, steps) && i < |states| && w < |states[0].workers|
    ensures w < |states[i].workers|
    ensures exists h :: 0 <= h < |states[i].history| && states[i].workers[w] == states[i].history[h]
  {
    RunInv(states, steps, i);
  }

  /** The versions a worker sees never decrease. */
  lemma {:induction false} VersionsNeverDecrease(states: seq<State>, steps: seq<Step>, i: nat, j: nat, w: nat)
    requires Run(states, steps) && i <= j < |states| && w < |states[0].workers|
    ensures w < |states[i].workers| && w < |states[j].workers|
    ensures states[i].workers[w].ver <= states[j].workers[w].ver
    decreases j
  {
    RunInv(states, steps, i);
    if i < j {
      VersionsNeverDecrease(states, steps, i, j - 1, w);
      RunInv(states, steps, j - 1);
      NextInv(states[j - 1], steps[j - 1]);
      assert states[j - 1 + 1] == Next(states[j - 1], steps[j - 1]);
    }
  }

  /** What the last reconfiguration among the steps asked for, or what there was before them. */
  function Configured(start: Snapshot, steps: seq<Step>): Snapshot {
    if steps == [] then start
    else match steps[|steps| - 1]
      case Configure(next, ver) => Snapshot(Content(TrimOption(next.config), next.base, next.arr), ver)
      case _ => Configured(start, steps[..|steps| - 1])
  }

  /** The shared content is always what the last reconfiguration asked for. */
  lemma {:induction false} SharedIsConfigured(states: seq<State>, steps: seq<Step>, i: nat)
    requires Run(states, steps) && i < |states|
    ensures states[i].shared == Configured(states[0].shared, steps[..i])
  {
    if i > 0 {
      SharedIsConfigured(states, steps, i - 1);
      RunInv(states, steps, i - 1);
      assert states[i - 1 + 1] == Next(states[i - 1], steps[i - 1]);
      assert steps[..i][..i - 1] == steps[..i - 1];
      if steps[i - 1].Configure? { UpdateReplaces(states[i - 1].shared.content, steps[i - 1].next); }
    }
  }

  /** Once a worker's queue drains and the listener has sent to it, its snapshot is the shared proxy's:
      what the last reconfiguration asked for. */
  lemma DrainedIsCurrent(states: seq<State>, steps: seq<Step>, i: nat, w: nat)
    requires Run(states, steps) && i < |states| && w < |states[0].workers|
    ensures w < |states[i].workers| && w < |states[i].queued|
    ensures states[i].queued[w] == 0 && w < states[i].sent ==>
      states[i].workers[w] == states[i].shared == Configured(states[0].shared, steps[..i])
  {
    RunInv(states, steps, i);
    SharedIsConfigured(states, steps, i);
  }

  // ----------------------------------------------------------------------------------------
  // A reconfiguration can always reach every worker

  function Last(states: seq<State>): State
    requires states != []
  { states[|states| - 1] }

  lemma RunOn(states: seq<State>, steps: seq<Step>, step: Step) returns (states': seq<State>)
    requires Run(states, steps) && Enabled(Last(states), step)
    ensures states' == states + [Next(Last(states), step)] && Run(states', steps + [step])
  {
    states' := states + [Next(Last(states), step)];
    forall i | 0 <= i < |steps + [step]|
      ensures Enabled(states'[i], (steps + [step])[i]) && states'[i + 1] == Next(states'[i], (steps + [step])[i])
    {
      if i < |steps| { assert Enabled(states[i], steps[i]) && states[i + 1] == Next(states[i], steps[i]); }
    }
  }

  // The listener sends to the workers that are left.
  lemma {:induction false} CanSend(states: seq<State>, steps: seq<Step>)
    returns (states': seq<State>, steps': seq<Step>)
    requires Run(states, steps)
    ensures Run(states', steps') && states <= states' && steps <= steps'
    ensures Last(states').sent == |Last(states').workers| && Last(states').shared == Last(states).shared
    decreases |Last(states).workers| - Last(states).sent
  {
    RunInv(states, steps, |steps|);
    if Last(states).sent == |Last(states).workers| {
      states', steps' := states, steps;
    } else {
      var more := RunOn(states, steps, Send);
      states', steps' := CanSend(more, steps + [Send]);
    }
  }

  // The workers from `w` on take what is in their queues.
  lemma {:induction false} CanWork(states: seq<State>, steps: seq<Step>, w: nat)
    returns (states': seq<State>, steps': seq<Step>)
    requires Run(states, steps) && w <= |Last(states).workers| && Last(states).sent == |Last(states).workers|
    requires w <= |Last(states).queued| && forall x | 0 <= x < w :: Last(states).queued[x] == 0
    ensures Run(states', steps') && states <= states' && steps <= steps'
    ensures Last(states').sent == |Last(states').workers| && Last(states').shared == Last(states).shared
    ensures forall x | 0 <= x < |Last(states').queued| :: Last(states').queued[x] == 0
    decreases |Last(states).workers| - w, if w < |Last(states).queued| then Last(states).queued[w] else 0
  {
    RunInv(states, steps, |steps|);
    if w == |Last(states).workers| {
      states', steps' := states, steps;
    } else if Last(states).queued[w] == 0 {
      states', steps' := CanWork(states, steps, w + 1);
    } else {
      var more := RunOn(states, steps, Work(w));
      states', steps' := CanWork(more, steps + [Work(w)], w);
    }
  }

  /** However far a run has come, it can go on until every worker has what the last reconfiguration asked for. */
  lemma AllCanBeCurrent(states: seq<State>, steps: seq<Step>) returns (states': seq<State>, steps': seq<Step>)
    requires Run(states, steps)
    ensures Run(states', steps') && states <= states' && steps <= steps'
    ensures Last(states').shared == Last(states).shared == Configured(states[0].shared, steps)
    ensures forall w | 0 <= w < |Last(states').workers| :: Last(states').workers[w] == Last(states').shared
  {
    SharedIsConfigured(states, steps, |steps|);
    assert steps[..|steps|] == steps;
    var sent, sends := CanSend(states, steps);
    states', steps' := CanWork(sent, sends, 0);
    RunInv(states', steps', |steps'|);
  }

  /** And any content can be configured next, once the last one has been sent. */
  lemma CanConfigure(states: seq<State>, steps: seq<Step>, next: Content, ver: nat) returns (states': seq<State>)
    requires Run(states, steps) && Last(states).sent == |Last(states).workers| && ver > Last(states).shared.ver
    ensures Run(states', steps + [Configure(next, ver)]) && states <= states'
    ensures Last(states').shared == Snapshot(next.(config := TrimOption(next.config)), ver)
  {
    states' := RunOn(states, steps, Configure(next, ver));
    RunInv(states, steps, |steps|);
    UpdateReplaces(Last(states).shared.content, next);
  }
}
