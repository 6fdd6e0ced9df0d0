/** A series of changesets always can be completed: one more changeset that gets
    enough operations completes, whatever the earlier ones left. */
module TopologyCompletion {
  import opened Wrappers
  import opened Topology
  import opened TopologyRun
  import opened TopologyResume
  import opened TopologyProgram
  import opened TopologyProgress
  import opened TopologyRouting
  import opened TopologyConservation
  import opened TopologyApply
  import opened TopologyEndToEnd

  /** As many operations as all chains have commands. */
  function Total(envs: Envs, cfgs: Configs, order: seq<nat>): nat
    requires forall k :: k in order ==> k in envs && k in cfgs
  {
    if order == [] then 0
    else
      var n := |order| - 1;
      assert order[n] in order;
      Total(envs, cfgs, order[..n]) + |Program(envs[order[n]], cfgs[order[n]])|
  }

  /** Given that many operations, a run of the chain completes. */
  ghost predicate Completable(s: St, env: Env, cfg: ChainConfig) {
    forall b: nat :: b >= |Program(env, cfg)| ==> Run(With(s, b), env, cfg).1.Done?
  }

  lemma RunBudget(s: St, env: Env, cfg: ChainConfig)
    requires s.budget >= |Program(env, cfg)| && Run(s, env, cfg).1.Done?
    ensures Run(s, env, cfg).0.budget >= s.budget - |Program(env, cfg)|
  {
    BudgetSuffices(s, env, START, Program(env, cfg));
  }

  lemma {:induction false} ApplyCompletes(w: World, envs: Envs, cfgs: Configs, order: seq<nat>)
    requires Configured(w, envs, cfgs, order) && w.budget >= Total(envs, cfgs, order)
    requires forall k :: k in order ==> Completable(At(w, k), envs[k], cfgs[k])
    ensures
      var (w', o) := Apply(w, envs, cfgs, order);
      o.Done? && w'.budget >= w.budget - Total(envs, cfgs, order)
  {
    hide Run, Program;
    if order != [] {
      var n := |order| - 1;
      var k := order[n];
      assert order == order[..n] + [k];
      OneMoreChain(w, envs, cfgs, order);
      ApplyCompletes(w, envs, cfgs, order[..n]);
      ApplyOff(w, envs, cfgs, order[..n], k);
      var w1 := Apply(w, envs, cfgs, order[..n]).0;
      RunFrame(At(w1, k), At(w, k), envs[k], cfgs[k], w1.budget);
      assert With(At(w1, k), w1.budget) == At(w1, k) && Completable(At(w, k), envs[k], cfgs[k]);
      RunBudget(At(w1, k), envs[k], cfgs[k]);
    }
  }

  /** Whatever runs came before, a chain can still be completed. */
  lemma SeriesCompletable(s: St, env: Env, cfg: ChainConfig, hasMCMS: bool, budgets: seq<nat>)
    requires Resumable(s, env, cfg, hasMCMS) && AllSupported(cfg.mcms)
    ensures Completable(After(s, env, cfg, budgets), env, cfg)
  {
    forall b: nat | b >= |Program(env, cfg)|
      ensures Run(With(After(s, env, cfg, budgets), b), env, cfg).1.Done?
    {
      SeriesIsOneRun(s, env, cfg, hasMCMS, budgets, b);
      hide Run, After, ValidChainConfig, ClaimedOnce;
      CompletesIff(With(s, Sum(budgets) + b), env, cfg, hasMCMS);
    }
  }

  lemma ViewCompletable(s: St, t: St, env: Env, cfg: ChainConfig)
    requires SameView(s, t, env.selector) && Completable(t, env, cfg)
    ensures Completable(s, env, cfg)
  {
    forall b: nat | b >= |Program(env, cfg)|
      ensures Run(With(s, b), env, cfg).1.Done?
    {
      RunFrame(s, t, env, cfg, b);
    }
  }

  /** After any series of changesets, killed or failed anywhere, one more with enough
      operations completes; so the end-to-end result is always within reach. */
  lemma LastApplyCompletes(w: World, envs: Envs, cfgs: Configs, order: seq<nat>, hasMCMS: bool, budgets: seq<nat>,
                           last: nat)
    requires GoodStart(w, envs, cfgs, order, hasMCMS) && forall k :: k in order ==> AllSupported(cfgs[k].mcms)
    requires last >= Total(envs, cfgs, order)
    ensures LastApply(w, envs, cfgs, order, budgets, last).1.Done?
  {
    hide Run, Resumable, Completable, AllSupported, Apply, AfterApplies;
    var w1 := AfterApplies(w, envs, cfgs, order, budgets).(budget := last);
    forall k | k in order
      ensures Completable(At(w1, k), envs[k], cfgs[k])
    {
      var i :| 0 <= i < |order| && order[i] == k;
      var own := SeriesOn(w, envs, cfgs, order, i, budgets);
      SeriesCompletable(At(w, k), envs[k], cfgs[k], hasMCMS, own);
      ViewCompletable(At(w1, k), After(At(w, k), envs[k], cfgs[k], own), envs[k], cfgs[k]);
    }
    ApplyCompletes(w1, envs, cfgs, order);
  }

  /** The hypotheses are met, for one, by a chain with one MCM that a timelock asks for. */
  lemma SmallTopology() returns (w: World, envs: Envs, cfgs: Configs)
    ensures GoodStart(w, envs, cfgs, [1], true) && AllSupported(cfgs[1].mcms)
    ensures QualifiersWithTransfers(cfgs) == {"main"}
  {
    var mcm := MCMSpec("m", Config(0), "main", PROPOSER, "");
    var h := RoleHolder("m", None);
    var none: seq<RoleHolder> := [];
    var tl := TimelockSpec("t", 0, "main", "", RoleAssignments([h], none, none, none, none), [h]);
    var cfg := ChainConfig([mcm], [tl], map[]);
    var chain := Chain(map[], map[], map[], map[], 5);
    var env := Env(1, 2, map[]);
    w, envs, cfgs := World(map[1 := chain], map[], 0), map[1 := env], map[1 := cfg];
    assert mcm in cfg.mcms && tl in cfg.timelocks && h in tl.transferOwnership;
    assert McmRefs(cfg.mcms) == {"m"};
    assert ValidHolders([h], {"m"}) && ValidHolders(none, {"m"});
    assert ValidTimelock(tl, {"m"}, true);
    assert ValidChainConfig(cfg, true);
    assert tl in cfgs[1].timelocks && tl.qualifier in QualifiersWithTransfers(cfgs);
    hide RoutesOwn, ValidChainConfig;
    UniqueMcmsSuffice(At(w, 1), env, cfg, true);
  }
}
