/** The changeset as the code performs it: the chains in selector order, the outputs
    aggregated, and one proposal built per qualifier. */
module TopologyChangeset {
  import opened Evm
  import opened Topology
  import opened TopologyRun
  import opened TopologyResume
  import opened TopologyProgram
  import opened TopologyEffect
  import opened TopologyResult
  import opened TopologyRouting
  import opened TopologyConservation
  import opened TopologyApply
  import opened TopologyStored
  import opened TopologySession
  import opened TopologyEndToEnd

  ghost predicate AllTrueReports(w: World, envs: Envs, cfgs: Configs, order: seq<nat>)
    requires Configured(w, envs, cfgs, order)
  {
    forall k :: k in order ==> TrueReports(At(w, k), envs[k])
  }

  predicate AllValid(cfgs: Configs, order: seq<nat>, hasMCMS: bool) {
    forall k :: k in order && k in cfgs ==> ValidChainConfig(cfgs[k], hasMCMS)
  }

  /** Running one chain keeps what the reports of the others say true. */
  lemma OthersStayTrue(w: World, envs: Envs, cfgs: Configs, order: seq<nat>, k: nat)
    requires Configured(w, envs, cfgs, order) && AllTrueReports(w, envs, cfgs, order) && k in order
    ensures
      var w' := Put(w, k, Run(At(w, k), envs[k], cfgs[k]).0);
      Configured(w', envs, cfgs, order) && forall x :: x in order && x != k ==> TrueReports(At(w', x), envs[x])
  {
    hide Run;
    assert With(At(w, k), w.budget) == At(w, k);
    RunFrame(At(w, k), At(w, k), envs[k], cfgs[k], w.budget);
    var w' := Put(w, k, Run(At(w, k), envs[k], cfgs[k]).0);
    forall x | x in order && x != k
      ensures TrueReports(At(w', x), envs[x])
    {
      assert TrueReports(At(w, x), envs[x]);
    }
  }

  /** The duplicate-free list of qualifiers; the code's sorting is one such order. */
  method ListQualifiers(cfgs: Configs) returns (order: seq<string>)
    ensures Orders(order, cfgs)
  {
    var seen := CollectQualifiers(cfgs);
    order := [];
    while seen != {}
      invariant NoDuplicates(order)
      invariant forall q :: q in QualifiersWithTransfers(cfgs) <==> q in order || q in seen
      invariant forall q :: q in order ==> q !in seen
      decreases |seen|
    {
      var q :| q in seen;
      order, seen := order + [q], seen - {q};
    }
  }

  /** What the report of a sequence holds. */
  datatype Output = Output(addresses: seq<AddressRef>, batchOps: seq<BatchOp>)

  class Environment {
    var chains: map<nat, Chain>
    var reports: map<Key, Address>
    var outputs: map<nat, Output>
    var budget: nat
    ghost var locals: map<nat, Local>

    function State(): World
      reads this
    {
      World(chains, reports, budget)
    }

    /** The reported outputs are those of the runs that are remembered. */
    ghost predicate Valid()
      reads this
    {
      outputs == map k | k in locals :: Output(locals[k].addresses, locals[k].batchOps)
    }

    ghost function Contents(): Memo
      reads this
    {
      Memo(State(), locals)
    }

    constructor (ghost m: Memo, w: World, outputs: map<nat, Output>)
      requires m.world == w && outputs == map k | k in m.outputs ::
        Output(m.outputs[k].addresses, m.outputs[k].batchOps)
      ensures Valid() && Contents() == m
    {
      this.chains, this.reports, this.budget, this.outputs, this.locals :=
        w.chains, w.reports, w.budget, outputs, m.outputs;
    }

    /** One chain's sequence, on that chain and the shared reports. */
    method RunChain(env: Env, cfg: ChainConfig, ghost hasMCMS: bool)
      returns (o: Outcome<()>, addresses: seq<AddressRef>, batchOps: seq<BatchOp>)
      requires env.selector in chains && TrueReports(At(State(), env.selector), env) && ValidChainConfig(cfg, hasMCMS)
      modifies this`chains, this`reports, this`budget
      ensures
        var (s', r) := Run(At(old(State()), env.selector), env, cfg);
        && State() == Put(old(State()), env.selector, s') && SameEnd(o, r)
        && TrueReports(s', env)
        && (o.Done? ==> addresses == r.value.addresses && batchOps == r.value.batchOps)
    {
      hide Run;
      var session := new Session(env, St(chains[env.selector], reports, budget));
      o := session.RunEVMDeployTopology(cfg, hasMCMS);
      chains, reports, budget := chains[env.selector := session.chain], session.reports, session.budget;
      addresses, batchOps := session.addresses, session.batchOps;
    }

    /** One chain's sequence in the framework: answered from its report, or run and
        reported if it completes. */
    method ExecuteChain(env: Env, cfg: ChainConfig, ghost hasMCMS: bool)
      returns (o: Outcome<()>, output: Output, ghost l: Local)
      requires Valid() && env.selector in chains && TrueReports(At(State(), env.selector), env)
      requires ValidChainConfig(cfg, hasMCMS)
      modifies this
      ensures Valid()
      ensures
        var k, before := env.selector, old(Contents());
        if k in before.outputs then Contents() == before && o.Done? && l == before.outputs[k]
        else
          var (s, r) := Run(At(before.world, k), env, cfg);
          && Contents() ==
               Memo(Put(before.world, k, s), if r.Done? then before.outputs[k := r.value] else before.outputs)
          && SameEnd(o, r) && TrueReports(s, env) && (r.Done? ==> l == r.value)
      ensures o.Done? ==> output == Output(l.addresses, l.batchOps)
    {
      hide Run, TrueReports;
      var k := env.selector;
      if k in outputs {
        return Done(()), outputs[k], locals[k];
      }
      l := Last(Run(At(State(), k), env, cfg).1);
      var addresses, batchOps;
      o, addresses, batchOps := RunChain(env, cfg, hasMCMS);
      output := Output(addresses, batchOps);
      if o.Done? {
        outputs, locals := outputs[k := output], locals[k := l];
      }
    }

    /** Apply: a chain whose sequence is reported is answered from its report, the others
        run. It completes exactly when every chain does and no batch lacks a proposal to
        go to, and then returns all addresses and the proposals. */
    method ApplyTopology(envs: Envs, cfgs: Configs, order: seq<nat>, hasMCMS: bool)
      returns (o: Outcome<seq<Proposal>>, addresses: seq<AddressRef>, ghost qualifiers: seq<string>)
      requires Valid() && Configured(State(), envs, cfgs, order)
      requires AllTrueReports(State(), envs, cfgs, order) && AllValid(cfgs, order, hasMCMS)
      modifies this
      ensures Valid()
      ensures
        var (m, r) := ApplyStored(old(Contents()), envs, cfgs, order);
        && Contents() == m
        && (if !r.Done? then SameEnd(o, r)
            else if OpsOut(r.value) != [] && !hasMCMS then o == Failed(NoMCMSInput)
            else
              && Orders(qualifiers, cfgs) && addresses == AddressesOut(r.value)
              && o == Done(if hasMCMS then Proposals(qualifiers, OpsOut(r.value), AddressesOut(r.value), cfgs) else []))
    {
      hide Run, Proposals, Orders, TrueReports;
      addresses, qualifiers := [], [];
      var batchOps: seq<BatchOp> := [];
      ghost var m, outs := Contents(), [];
      assert order[..0] == [] && ApplyStored(m, envs, cfgs, []) == (m, Done([]));
      assert AddressesOut(outs) == [] && OpsOut(outs) == [];
      hide ApplyStored, AddressesOut, OpsOut, Put;
      for i := 0 to |order|
        invariant Valid() && Configured(State(), envs, cfgs, order) && AllTrueReports(State(), envs, cfgs, order)
        invariant Configured(m.world, envs, cfgs, order[..i])
        invariant ApplyStored(m, envs, cfgs, order[..i]) == (Contents(), Done(outs))
        invariant addresses == AddressesOut(outs) && batchOps == OpsOut(outs)
      {
        var k := order[i];
        NextChain(m, envs, cfgs, order, i);
        if k !in locals {
          OthersStayTrue(State(), envs, cfgs, order, k);
        }
        var ran, output, l := ExecuteChain(envs[k], cfgs[k], hasMCMS);
        if !ran.Done? {
          o := if ran.Killed? then Killed else Failed(ran.error);
          return;
        }
        OutsOneMore(outs, l);
        outs := outs + [l];
        addresses, batchOps := addresses + output.addresses, batchOps + output.batchOps;
      }
      assert order[..|order|] == order;
      if |batchOps| > 0 && !hasMCMS {
        return Failed(NoMCMSInput), addresses, qualifiers;
      }
      var listed := ListQualifiers(cfgs);
      qualifiers := listed;
      if hasMCMS {
        var proposals := BuildProposals(listed, batchOps, addresses, cfgs);
        o := Done(proposals);
      } else {
        o := Done([]);
      }
    }
  }

  ghost function Last(o: Outcome<Local>): Local {
    if o.Done? then o.value else START
  }

  lemma OutsOneMore(outs: seq<Local>, l: Local)
    ensures AddressesOut(outs + [l]) == AddressesOut(outs) + l.addresses
      && OpsOut(outs + [l]) == OpsOut(outs) + l.batchOps
  {
    assert (outs + [l])[..|outs|] == outs;
  }

  /** The chain `k` is answered from its report, or run and reported if it completes. */
  ghost predicate OneMore(m: Memo, outs: seq<Local>, m': Memo, o: Outcome<seq<Local>>, k: nat, env: Env,
                          cfg: ChainConfig)
    requires k in m.world.chains
  {
    if k in m.outputs then (m', o) == (m, Done(outs + [m.outputs[k]]))
    else
      var (s, r) := Run(At(m.world, k), env, cfg);
      && m' == Memo(Put(m.world, k, s), if r.Done? then m.outputs[k := r.value] else m.outputs)
      && SameEnd(o, r) && SameEnd(r, o) && (o.Done? ==> o.value == outs + [r.value])
  }

  /** One more chain; if it stops, so does the changeset. */
  lemma NextChain(m: Memo, envs: Envs, cfgs: Configs, order: seq<nat>, i: nat)
    requires Configured(m.world, envs, cfgs, order) && i < |order| && Configured(m.world, envs, cfgs, order[..i])
    requires ApplyStored(m, envs, cfgs, order[..i]).1.Done?
    ensures
      Configured(m.world, envs, cfgs, order[..i + 1]) &&
      var k := order[i];
      var (m1, o1) := ApplyStored(m, envs, cfgs, order[..i]);
      var (m', o) := ApplyStored(m, envs, cfgs, order[..i + 1]);
      && OneMore(m1, o1.value, m', o, k, envs[k], cfgs[k])
      && (!o.Done? ==> ApplyStored(m, envs, cfgs, order).0 == m' && SameEnd(o, ApplyStored(m, envs, cfgs, order).1))
  {
    hide Run, Put, OneMore, ApplyStored, Configured;
    var upTo := order[..i + 1];
    ConfiguredPrefix(m.world, envs, cfgs, order, i + 1);
    assert upTo[..i] == order[..i] && upTo[i] == order[i];
    AppliedOneMore(m, envs, cfgs, upTo);
    if !ApplyStored(m, envs, cfgs, upTo).1.Done? {
      StoppedApply(m, envs, cfgs, order, i + 1);
    }
  }

  lemma ConfiguredPrefix(w: World, envs: Envs, cfgs: Configs, order: seq<nat>, n: nat)
    requires Configured(w, envs, cfgs, order) && n <= |order|
    ensures Configured(w, envs, cfgs, order[..n])
    ensures forall k :: k in order ==> k in w.chains && k in envs && k in cfgs
  {}

  lemma AppliedOneMore(m: Memo, envs: Envs, cfgs: Configs, order: seq<nat>)
    requires order != [] && Configured(m.world, envs, cfgs, order)
      && Configured(m.world, envs, cfgs, order[..|order| - 1])
    requires ApplyStored(m, envs, cfgs, order[..|order| - 1]).1.Done?
    ensures
      var k := order[|order| - 1];
      var (m1, o1) := ApplyStored(m, envs, cfgs, order[..|order| - 1]);
      var (m', o) := ApplyStored(m, envs, cfgs, order);
      OneMore(m1, o1.value, m', o, k, envs[k], cfgs[k])
  {
    hide Run, Put;
  }

  lemma {:induction false} StoppedApply(m: Memo, envs: Envs, cfgs: Configs, order: seq<nat>, n: nat)
    requires Configured(m.world, envs, cfgs, order) && n <= |order| && Configured(m.world, envs, cfgs, order[..n])
    requires !ApplyStored(m, envs, cfgs, order[..n]).1.Done?
    ensures ApplyStored(m, envs, cfgs, order) == ApplyStored(m, envs, cfgs, order[..n])
  {
    hide Run;
    if n == |order| {
      assert order[..n] == order;
    } else {
      var last := |order| - 1;
      assert order[..last][..n] == order[..n];
      StoppedApply(m, envs, cfgs, order[..last], n);
    }
  }

  // ----- the check for a missing proposal input

  lemma {:induction false} NothingEmitted(r: ChainRun, timelocks: seq<TimelockSpec>)
    requires AllResolvable(timelocks, RefsOf(r)) && forall tl :: tl in timelocks ==> tl.transferOwnership == []
    ensures EmissionsOf(r, timelocks) == []
  {
    if timelocks != [] {
      var n := |timelocks| - 1;
      assert timelocks[n] in timelocks;
      NothingEmitted(r, timelocks[..n]);
      assert Resolved(timelocks[n].transferOwnership, RefsOf(r)) == [];
    }
  }

  lemma {:induction false} NoOpsOut(outs: seq<Local>)
    requires forall i :: 0 <= i < |outs| ==> outs[i].batchOps == []
    ensures OpsOut(outs) == []
  {
    if outs != [] {
      NoOpsOut(outs[..|outs| - 1]);
    }
  }

  /** Validation already rules out what the changeset checks at its end: without a
      proposal input, a validated configuration never emits a batch. */
  lemma MissingInputNeverSeen(w: World, envs: Envs, cfgs: Configs, order: seq<nat>, budgets: seq<nat>, last: nat)
    requires GoodStart(w, envs, cfgs, order, false) && LastApply(w, envs, cfgs, order, budgets, last).1.Done?
    ensures OpsOut(LastApply(w, envs, cfgs, order, budgets, last).1.value) == []
  {
    hide LastApply, Resumable, EmissionsOf, AddressesOf, Disjoint, AllOwned, Targets;
    var outs := LastApply(w, envs, cfgs, order, budgets, last).1.value;
    forall i | 0 <= i < |outs|
      ensures outs[i].batchOps == []
    {
      ChainAt(w, envs, cfgs, order, false, budgets, last, i);
      assert order[i] in order;
      ResumableIsValid(At(w, order[i]), envs[order[i]], cfgs[order[i]], false);
      var r := RunsOf(w, envs, cfgs, order)[i];
      NoTransfersValid(r.cfg);
      NothingEmitted(r, r.cfg.timelocks);
    }
    NoOpsOut(outs);
  }

  lemma NoTransfersValid(cfg: ChainConfig)
    requires ValidChainConfig(cfg, false)
    ensures forall tl :: tl in cfg.timelocks ==> tl.transferOwnership == []
  {
    forall tl | tl in cfg.timelocks
      ensures tl.transferOwnership == []
    {
      assert ValidTimelock(tl, McmRefs(cfg.mcms), false);
    }
  }
}
