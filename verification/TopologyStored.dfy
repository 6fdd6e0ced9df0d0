/** The changeset with the reports of its sequences: a chain whose sequence has
    succeeded before is answered from its report. This makes no difference: at any
    point of a series of changesets, running the chain again would change nothing and
    return the same. */
module TopologyStored {
  import opened Topology
  import opened TopologyRun
  import opened TopologyResume
  import opened TopologyProgram
  import opened TopologyRouting
  import opened TopologyApply

  /** The world, and the outputs reported for the sequences of its chains. */
  datatype Memo = Memo(world: World, outputs: map<nat, Local>)

  /** One changeset, its sequences memoised. */
  function ApplyStored(m: Memo, envs: Envs, cfgs: Configs, order: seq<nat>): (r: (Memo, Outcome<seq<Local>>))
    requires Configured(m.world, envs, cfgs, order)
    ensures r.0.world.chains.Keys == m.world.chains.Keys
  {
    if order == [] then (m, Done([]))
    else
      var n := |order| - 1;
      var k := order[n];
      match ApplyStored(m, envs, cfgs, order[..n])
      case (m1, Done(outs)) =>
        if k in m1.outputs then (m1, Done(outs + [m1.outputs[k]])) else
        (match Run(At(m1.world, k), envs[k], cfgs[k])
         case (s, Done(l)) => (Memo(Put(m1.world, k, s), m1.outputs[k := l]), Done(outs + [l]))
         case (s, Failed(e)) => (Memo(Put(m1.world, k, s), m1.outputs), Failed(e))
         case (s, Killed) => (Memo(Put(m1.world, k, s), m1.outputs), Killed))
      case (m1, o) => (m1, o)
  }

  /** Run again with any budget, the chain changes nothing and returns `l`. */
  ghost predicate Replays(s: St, env: Env, cfg: ChainConfig, l: Local) {
    forall b: nat :: Run(With(s, b), env, cfg) == (With(s, b), Done(l))
  }

  /** What the reports of other chains say plays no part in that. */
  lemma ReplaysFrame(s: St, t: St, env: Env, cfg: ChainConfig, l: Local)
    requires SameView(s, t, env.selector) && Replays(t, env, cfg, l)
    ensures Replays(s, env, cfg, l)
  {
    forall b: nat
      ensures Run(With(s, b), env, cfg) == (With(s, b), Done(l))
    {
      FoldFrame(With(s, b), With(t, b), env, START, Program(env, cfg));
      assert Run(With(t, b), env, cfg) == (With(t, b), Done(l));
      var s' := Run(With(s, b), env, cfg).0;
      assert forall k: Key :: k in s'.reports <==> k in s.reports;
      assert s'.reports == s.reports;
    }
  }

  /** A run that completes, after any series of the chain's own runs, replays. */
  lemma DoneReplays(start: St, env: Env, cfg: ChainConfig, hasMCMS: bool, own: seq<nat>, s: St)
    requires Resumable(start, env, cfg, hasMCMS) && SameView(s, After(start, env, cfg, own), env.selector)
    requires Run(s, env, cfg).1.Done?
    ensures Replays(Run(s, env, cfg).0, env, cfg, Run(s, env, cfg).1.value)
  {
    hide Run, After, Resumable;
    var t := After(start, env, cfg, own);
    var (s', o) := Run(s, env, cfg);
    assert With(s, s.budget) == s;
    RunFrame(s, t, env, cfg, s.budget);
    var t' := Run(With(t, s.budget), env, cfg).0;
    SeriesIsOneRun(start, env, cfg, hasMCMS, own, s.budget);
    var whole := With(start, Sum(own) + s.budget);
    ResumableAnyBudget(start, env, cfg, hasMCMS, Sum(own) + s.budget);
    var u := Run(whole, env, cfg).0;
    forall b: nat
      ensures Run(With(t', b), env, cfg) == (With(t', b), Done(o.value))
    {
      CompletedRunReplays(whole, env, cfg, hasMCMS, b);
      assert With(With(u, 0), b) == With(u, b) && With(With(t', 0), b) == With(t', b);
    }
    ReplaysFrame(s', t', env, cfg, o.value);
  }

  lemma ResumableAnyBudget(s: St, env: Env, cfg: ChainConfig, hasMCMS: bool, b: nat)
    requires Resumable(s, env, cfg, hasMCMS)
    ensures Resumable(With(s, b), env, cfg, hasMCMS)
  {}

  /** Every reported chain replays. */
  ghost predicate Stored(m: Memo, envs: Envs, cfgs: Configs, order: seq<nat>)
    requires Configured(m.world, envs, cfgs, order)
  {
    forall k :: k in order && k in m.outputs ==> Replays(At(m.world, k), envs[k], cfgs[k], m.outputs[k])
  }

  /** Every chain has come to where it is by a series of its own runs. */
  ghost predicate Reached(start: World, w: World, envs: Envs, cfgs: Configs, order: seq<nat>, hasMCMS: bool)
    requires Configured(start, envs, cfgs, order) && Configured(w, envs, cfgs, order)
  {
    forall k :: k in order ==>
      && Resumable(At(start, k), envs[k], cfgs[k], hasMCMS)
      && exists own :: SameView(At(w, k), After(At(start, k), envs[k], cfgs[k], own), k)
  }

  lemma PutStored(m: Memo, envs: Envs, cfgs: Configs, order: seq<nat>, x: nat)
    requires Configured(m.world, envs, cfgs, order) && Stored(m, envs, cfgs, order) && x in order
    ensures
      var w' := Put(m.world, x, Run(At(m.world, x), envs[x], cfgs[x]).0);
      && Configured(w', envs, cfgs, order)
      && forall k :: k in order && k != x && k in m.outputs ==> Replays(At(w', k), envs[k], cfgs[k], m.outputs[k])
  {
    hide Run, Replays;
    assert With(At(m.world, x), m.world.budget) == At(m.world, x);
    RunFrame(At(m.world, x), At(m.world, x), envs[x], cfgs[x], m.world.budget);
    var w' := Put(m.world, x, Run(At(m.world, x), envs[x], cfgs[x]).0);
    forall k | k in order && k != x && k in m.outputs
      ensures Replays(At(w', k), envs[k], cfgs[k], m.outputs[k])
    {
      ReplaysFrame(At(w', k), At(m.world, k), envs[k], cfgs[k], m.outputs[k]);
    }
  }

  /** One changeset over the first `n` chains. */
  lemma {:induction false} StoredAgrees(start: World, m: Memo, envs: Envs, cfgs: Configs, order: seq<nat>,
                                        hasMCMS: bool, n: nat)
    requires Configured(start, envs, cfgs, order) && Configured(m.world, envs, cfgs, order) && n <= |order|
    requires Reached(start, m.world, envs, cfgs, order, hasMCMS) && Stored(m, envs, cfgs, order)
    ensures Configured(m.world, envs, cfgs, order[..n])
    ensures
      var (m', o) := ApplyStored(m, envs, cfgs, order[..n]);
      && (m'.world, o) == Apply(m.world, envs, cfgs, order[..n])
      && Configured(m'.world, envs, cfgs, order) && Stored(m', envs, cfgs, order)
  {
    hide Run, Stored, Reached, Put;
    if n > 0 {
      assert order[..n][..n - 1] == order[..n - 1] && order[n - 1] in order;
      StoredAgrees(start, m, envs, cfgs, order, hasMCMS, n - 1);
      var (m1, o1) := ApplyStored(m, envs, cfgs, order[..n - 1]);
      if o1.Done? {
        OneChainAgrees(start, m.world, m1, envs, cfgs, order, hasMCMS, n - 1);
      }
    }
  }

  /** One more chain, answered from its report or run. */
  lemma OneChainAgrees(start: World, w: World, m1: Memo, envs: Envs, cfgs: Configs, order: seq<nat>, hasMCMS: bool,
                       i: nat)
    requires Configured(start, envs, cfgs, order) && Configured(w, envs, cfgs, order) && i < |order|
    requires Reached(start, w, envs, cfgs, order, hasMCMS)
    requires Configured(w, envs, cfgs, order[..i]) && m1.world == Apply(w, envs, cfgs, order[..i]).0
    requires Configured(m1.world, envs, cfgs, order) && Stored(m1, envs, cfgs, order)
    ensures
      var k := order[i];
      k in m1.world.chains && k in envs && k in cfgs &&
      var (s, o) := Run(At(m1.world, k), envs[k], cfgs[k]);
      var w' := Put(m1.world, k, s);
      && (k in m1.outputs ==> w' == m1.world && o == Done(m1.outputs[k]))
      && Configured(w', envs, cfgs, order)
      && (k !in m1.outputs ==>
            Stored(Memo(w', if o.Done? then m1.outputs[k := o.value] else m1.outputs), envs, cfgs, order))
  {
    hide Run, Replays, Resumable, Reached, Apply;
    var k := order[i];
    assert k in order;
    PutStored(m1, envs, cfgs, order, k);
    if k in m1.outputs {
      Unchanged(m1.world, k, envs[k], cfgs[k], m1.outputs[k]);
    } else {
      ChainDone(start, w, m1, envs, cfgs, order, hasMCMS, i);
    }
  }

  lemma Unchanged(w: World, k: nat, env: Env, cfg: ChainConfig, l: Local)
    requires k in w.chains && Replays(At(w, k), env, cfg, l)
    ensures Run(At(w, k), env, cfg) == (At(w, k), Done(l)) && Put(w, k, At(w, k)) == w
  {
    assert With(At(w, k), w.budget) == At(w, k);
    assert w.chains[k := w.chains[k]] == w.chains;
  }

  lemma ChainDone(start: World, w: World, m1: Memo, envs: Envs, cfgs: Configs, order: seq<nat>, hasMCMS: bool, i: nat)
    requires Configured(start, envs, cfgs, order) && Configured(w, envs, cfgs, order) && i < |order|
    requires Reached(start, w, envs, cfgs, order, hasMCMS)
    requires Configured(w, envs, cfgs, order[..i]) && m1.world == Apply(w, envs, cfgs, order[..i]).0
    ensures
      var k := order[i];
      k in m1.world.chains &&
      var (s, o) := Run(At(m1.world, k), envs[k], cfgs[k]);
      o.Done? ==> Replays(s, envs[k], cfgs[k], o.value)
  {
    hide Run, Replays, Resumable;
    var k := order[i];
    assert k in order && k !in order[..i];
    ApplyOff(w, envs, cfgs, order[..i], k);
    var own :| SameView(At(w, k), After(At(start, k), envs[k], cfgs[k], own), k);
    if Run(At(m1.world, k), envs[k], cfgs[k]).1.Done? {
      DoneReplays(At(start, k), envs[k], cfgs[k], hasMCMS, own, At(m1.world, k));
    }
  }

  // ----- series

  /** A series of changesets, each with its budget, over all reports. */
  function AfterStored(m: Memo, envs: Envs, cfgs: Configs, order: seq<nat>, budgets: seq<nat>): (r: Memo)
    requires Configured(m.world, envs, cfgs, order)
    ensures r.world.chains.Keys == m.world.chains.Keys
  {
    if budgets == [] then m
    else
      var before := AfterStored(m, envs, cfgs, order, budgets[..|budgets| - 1]);
      ApplyStored(before.(world := before.world.(budget := budgets[|budgets| - 1])), envs, cfgs, order).0
  }

  /** Memoising the sequences changes neither what a series of changesets leaves nor
      what the last one returns. */
  lemma {:induction false} StoredSeriesAgrees(start: World, envs: Envs, cfgs: Configs, order: seq<nat>, hasMCMS: bool,
                                              budgets: seq<nat>, last: nat)
    requires Configured(start, envs, cfgs, order)
    requires forall k :: k in order ==> Resumable(At(start, k), envs[k], cfgs[k], hasMCMS)
    ensures
      var m := AfterStored(Memo(start, map[]), envs, cfgs, order, budgets);
      && m.world == AfterApplies(start, envs, cfgs, order, budgets) && Stored(m, envs, cfgs, order)
      && var (m', o) := ApplyStored(m.(world := m.world.(budget := last)), envs, cfgs, order);
      (m'.world, o) == Apply(AfterApplies(start, envs, cfgs, order, budgets).(budget := last), envs, cfgs, order)
        && Stored(m', envs, cfgs, order)
  {
    hide Run, Apply, ApplyStored, Resumable, Replays;
    assert order[..|order|] == order;
    if budgets != [] {
      var n := |budgets| - 1;
      StoredSeriesAgrees(start, envs, cfgs, order, hasMCMS, budgets[..n], budgets[n]);
    }
    var w := AfterApplies(start, envs, cfgs, order, budgets);
    var m := AfterStored(Memo(start, map[]), envs, cfgs, order, budgets);
    NewBudget(m, envs, cfgs, order, last);
    SeriesReached(start, envs, cfgs, order, hasMCMS, budgets, last);
    hide Reached, Stored, AfterApplies;
    StoredAgrees(start, m.(world := m.world.(budget := last)), envs, cfgs, order, hasMCMS, |order|);
  }

  lemma SeriesReached(start: World, envs: Envs, cfgs: Configs, order: seq<nat>, hasMCMS: bool, budgets: seq<nat>,
                      last: nat)
    requires Configured(start, envs, cfgs, order)
    requires forall k :: k in order ==> Resumable(At(start, k), envs[k], cfgs[k], hasMCMS)
    ensures
      var w := AfterApplies(start, envs, cfgs, order, budgets).(budget := last);
      Configured(w, envs, cfgs, order) && Reached(start, w, envs, cfgs, order, hasMCMS)
  {
    hide Run, Resumable, AfterApplies, After;
    var w := AfterApplies(start, envs, cfgs, order, budgets).(budget := last);
    forall k | k in order
      ensures exists own :: SameView(At(w, k), After(At(start, k), envs[k], cfgs[k], own), k)
    {
      var i :| 0 <= i < |order| && order[i] == k;
      var own := SeriesOn(start, envs, cfgs, order, i, budgets);
      assert SameView(At(w, k), After(At(start, k), envs[k], cfgs[k], own), k);
    }
  }

  lemma NewBudget(m: Memo, envs: Envs, cfgs: Configs, order: seq<nat>, budget: nat)
    requires Configured(m.world, envs, cfgs, order) && Stored(m, envs, cfgs, order)
    ensures
      var m' := m.(world := m.world.(budget := budget));
      Configured(m'.world, envs, cfgs, order) && Stored(m', envs, cfgs, order)
  {
    var m' := m.(world := m.world.(budget := budget));
    forall k, b: nat | k in order && k in m.outputs
      ensures Run(With(At(m'.world, k), b), envs[k], cfgs[k]) == (With(At(m'.world, k), b), Done(m.outputs[k]))
    {
      assert Replays(At(m.world, k), envs[k], cfgs[k], m.outputs[k]);
      assert With(At(m'.world, k), b) == With(At(m.world, k), b);
    }
  }
}
