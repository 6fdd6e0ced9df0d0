/** The changeset over several chains: one run per chain, in selector order, all over
    one report store. Each chain sees of a series of interrupted changesets only a
    series of its own interrupted runs. */
module TopologyApply {
  import opened Evm
  import opened Topology
  import opened TopologyRun
  import opened TopologyResume
  import opened TopologyProgram
  import opened TopologyRouting

  datatype World = World(chains: map<nat, Chain>, reports: map<Key, Address>, budget: nat)

  type Envs = map<nat, Env>

  /** Chains that are configured, each with its own selector. */
  predicate Configured(w: World, envs: Envs, cfgs: Configs, order: seq<nat>) {
    && (forall k :: k in order ==> k in w.chains && k in envs && k in cfgs && envs[k].selector == k)
    && (forall i, j :: 0 <= i < j < |order| ==> order[i] != order[j])
  }

  function At(w: World, k: nat): St
    requires k in w.chains
  {
    St(w.chains[k], w.reports, w.budget)
  }

  function Put(w: World, k: nat, s: St): World {
    World(w.chains[k := s.chain], s.reports, s.budget)
  }

  /** One changeset: the outputs of the chains, or what stopped it. */
  function Apply(w: World, envs: Envs, cfgs: Configs, order: seq<nat>): (r: (World, Outcome<seq<Local>>))
    requires Configured(w, envs, cfgs, order)
    ensures r.0.chains.Keys == w.chains.Keys
    ensures r.1.Done? ==> |r.1.value| == |order|
  {
    if order == [] then (w, Done([]))
    else
      var n := |order| - 1;
      var k := order[n];
      match Apply(w, envs, cfgs, order[..n])
      case (w1, Done(outs)) =>
        (match Run(At(w1, k), envs[k], cfgs[k])
         case (s, Done(l)) => (Put(w1, k, s), Done(outs + [l]))
         case (s, Failed(e)) => (Put(w1, k, s), Failed(e))
         case (s, Killed) => (Put(w1, k, s), Killed))
      case (w1, o) => (w1, o)
  }

  // ----- what a run of one chain reads

  /** The same as far as a chain can see: its contracts and its reports. */
  ghost predicate SameView(s: St, t: St, selector: nat) {
    && s.chain == t.chain
    && forall k: Key :: k.selector == selector ==>
         (k in s.reports <==> k in t.reports) && (k in s.reports ==> s.reports[k] == t.reports[k])
  }

  /** Reports of other chains are left alone. */
  ghost predicate OthersKept(s: St, s': St, selector: nat) {
    forall k: Key :: k.selector != selector ==>
      (k in s.reports <==> k in s'.reports) && (k in s.reports ==> s.reports[k] == s'.reports[k])
  }

  lemma StepFrame(s: St, t: St, env: Env, l: Local, cmd: Cmd)
    requires SameView(s, t, env.selector) && s.budget == t.budget
    ensures
      var (s', o), (t', p) := Step(s, env, l, cmd), Step(t, env, l, cmd);
      o == p && SameView(s', t', env.selector) && s'.budget == t'.budget && OthersKept(s, s', env.selector)
  {
    match Decide(s.chain, env, l, cmd) {
      case Do(k) => assert k.selector == env.selector;
      case _ =>
    }
  }

  lemma {:induction false} FoldFrame(s: St, t: St, env: Env, l: Local, cmds: seq<Cmd>)
    requires SameView(s, t, env.selector) && s.budget == t.budget
    ensures
      var (s', o), (t', p) := Fold(s, env, l, cmds), Fold(t, env, l, cmds);
      o == p && SameView(s', t', env.selector) && s'.budget == t'.budget && OthersKept(s, s', env.selector)
  {
    if cmds != [] {
      var n := |cmds| - 1;
      FoldFrame(s, t, env, l, cmds[..n]);
      var (s1, o1) := Fold(s, env, l, cmds[..n]);
      if o1.Done? {
        StepFrame(s1, Fold(t, env, l, cmds[..n]).0, env, o1.value, cmds[n]);
      }
    }
  }

  lemma RunFrame(s: St, t: St, env: Env, cfg: ChainConfig, budget: nat)
    requires SameView(s, t, env.selector)
    ensures
      var (s', o), (t', p) := Run(With(s, budget), env, cfg), Run(With(t, budget), env, cfg);
      o == p && SameView(s', t', env.selector) && OthersKept(s, s', env.selector)
  {
    FoldFrame(With(s, budget), With(t, budget), env, START, Program(env, cfg));
  }

  // ----- one changeset, seen from one chain

  lemma OneMoreChain(w: World, envs: Envs, cfgs: Configs, order: seq<nat>)
    requires order != [] && Configured(w, envs, cfgs, order)
    ensures
      var n := |order| - 1;
      var k := order[n];
      && Configured(w, envs, cfgs, order[..n])
      && var (w1, o1), (w', o) := Apply(w, envs, cfgs, order[..n]), Apply(w, envs, cfgs, order);
      && (!o1.Done? ==> (w', o) == (w1, o1))
      && (o1.Done? ==>
            var (s, r) := Run(At(w1, k), envs[k], cfgs[k]);
            w' == Put(w1, k, s) && (o.Done? <==> r.Done?) && (o.Done? ==> o.value == o1.value + [r.value]))
  {}

  /** A chain that is not among those applied is not affected. */
  lemma {:induction false} ApplyOff(w: World, envs: Envs, cfgs: Configs, order: seq<nat>, k: nat)
    requires Configured(w, envs, cfgs, order) && k !in order && k in w.chains
    ensures SameView(At(Apply(w, envs, cfgs, order).0, k), At(w, k), k)
  {
    if order != [] {
      var n := |order| - 1;
      assert order == order[..n] + [order[n]];
      OneMoreChain(w, envs, cfgs, order);
      ApplyOff(w, envs, cfgs, order[..n], k);
      var w1 := Apply(w, envs, cfgs, order[..n]).0;
      RunFrame(At(w1, order[n]), At(w1, order[n]), envs[order[n]], cfgs[order[n]], w1.budget);
      assert With(At(w1, order[n]), w1.budget) == At(w1, order[n]);
    }
  }

  /** A chain that is among them has at most one run of its own, and exactly one if
      the changeset completes. */
  lemma {:induction false} ApplyOn(w: World, envs: Envs, cfgs: Configs, order: seq<nat>, i: nat)
    returns (ran: bool, budget: nat)
    requires Configured(w, envs, cfgs, order) && i < |order|
    ensures
      var k := order[i];
      var (w', o) := Apply(w, envs, cfgs, order);
      var (s', r) := Run(With(At(w, k), budget), envs[k], cfgs[k]);
      && (ran ==> SameView(At(w', k), s', k))
      && (o.Done? ==> ran && r == Done(o.value[i]))
      && (!ran ==> SameView(At(w', k), At(w, k), k))
  {
    hide Run, Apply;
    var n := |order| - 1;
    var x := order[n];
    assert order == order[..n] + [x];
    OneMoreChain(w, envs, cfgs, order);
    var (w1, o1) := Apply(w, envs, cfgs, order[..n]);
    assert With(At(w1, x), w1.budget) == At(w1, x);
    if i < n {
      assert order[..n][i] == order[i];
      ran, budget := ApplyOn(w, envs, cfgs, order[..n], i);
      RunFrame(At(w1, x), At(w1, x), envs[x], cfgs[x], w1.budget);
    } else {
      ApplyOff(w, envs, cfgs, order[..n], x);
      RunFrame(At(w1, x), At(w, x), envs[x], cfgs[x], w1.budget);
      ran, budget := o1.Done?, w1.budget;
    }
  }

  // ----- series of changesets

  function AfterApplies(w: World, envs: Envs, cfgs: Configs, order: seq<nat>, budgets: seq<nat>): (r: World)
    requires Configured(w, envs, cfgs, order)
    ensures r.chains.Keys == w.chains.Keys
  {
    if budgets == [] then w
    else Apply(AfterApplies(w, envs, cfgs, order, budgets[..|budgets| - 1]).(budget := budgets[|budgets| - 1]), envs,
      cfgs, order).0
  }

  lemma AfterOneMore(s: St, env: Env, cfg: ChainConfig, budgets: seq<nat>, b: nat)
    ensures After(s, env, cfg, budgets + [b]) == Run(With(After(s, env, cfg, budgets), b), env, cfg).0
  {
    assert (budgets + [b])[..|budgets|] == budgets;
  }

  lemma {:induction false} SeriesOn(w: World, envs: Envs, cfgs: Configs, order: seq<nat>, i: nat, budgets: seq<nat>)
    returns (own: seq<nat>)
    requires Configured(w, envs, cfgs, order) && i < |order|
    ensures
      var k := order[i];
      SameView(At(AfterApplies(w, envs, cfgs, order, budgets), k), After(At(w, k), envs[k], cfgs[k], own), k)
  {
    hide Run;
    var k := order[i];
    if budgets == [] {
      own := [];
    } else {
      var n := |budgets| - 1;
      own := SeriesOn(w, envs, cfgs, order, i, budgets[..n]);
      var w1 := AfterApplies(w, envs, cfgs, order, budgets[..n]).(budget := budgets[n]);
      var ran, b := ApplyOn(w1, envs, cfgs, order, i);
      if ran {
        RunFrame(At(w1, k), After(At(w, k), envs[k], cfgs[k], own), envs[k], cfgs[k], b);
        AfterOneMore(At(w, k), envs[k], cfgs[k], own, b);
        own := own + [b];
      }
    }
  }

  /** After any series of changesets, a completed one has on each chain the outputs
      and the contracts of one uninterrupted run from the start. */
  lemma SeriesOfApplies(w: World, envs: Envs, cfgs: Configs, order: seq<nat>, i: nat, budgets: seq<nat>, last: nat,
                        hasMCMS: bool)
    returns (budget: nat)
    requires Configured(w, envs, cfgs, order) && i < |order|
    requires Resumable(At(w, order[i]), envs[order[i]], cfgs[order[i]], hasMCMS)
    requires Apply(AfterApplies(w, envs, cfgs, order, budgets).(budget := last), envs, cfgs, order).1.Done?
    ensures
      var k := order[i];
      var (w', o) := Apply(AfterApplies(w, envs, cfgs, order, budgets).(budget := last), envs, cfgs, order);
      var (s', r) := Run(With(At(w, k), budget), envs[k], cfgs[k]);
      r == Done(o.value[i]) && w'.chains[k] == s'.chain
  {
    hide Run, Apply, AfterApplies, Resumable;
    var k, w1 := order[i], AfterApplies(w, envs, cfgs, order, budgets).(budget := last);
    var own := SeriesOn(w, envs, cfgs, order, i, budgets);
    var ran, b := ApplyOn(w1, envs, cfgs, order, i);
    RunFrame(At(w1, k), After(At(w, k), envs[k], cfgs[k], own), envs[k], cfgs[k], b);
    SeriesIsOneRun(At(w, k), envs[k], cfgs[k], hasMCMS, own, b);
    budget := Sum(own) + b;
  }
}
