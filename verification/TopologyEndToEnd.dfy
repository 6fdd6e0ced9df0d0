/** End to end: after any series of interrupted changesets over any chains, executing
    the returned proposals in any order leaves every contract with its timelock. */
module TopologyEndToEnd {
  import opened Wrappers
  import opened Evm
  import opened Ownership
  import opened Topology
  import opened TopologyRun
  import opened TopologyResume
  import opened TopologyOutcome
  import opened TopologyProgram
  import opened TopologyProgress
  import opened TopologyEffect
  import opened TopologyResult
  import opened TopologyRouting
  import opened TopologyConservation
  import opened TopologyApply

  // ----- executing proposals

  /** The timelock of a qualifier on a chain, found as the MCMs are. */
  function TimelockFor(addresses: seq<AddressRef>, selector: nat, qualifier: string): Option<Address> {
    FirstAddress(addresses, selector, MCMSpec("", Config(0), qualifier, TIMELOCK, ""))
  }

  /** The targets of the batches of one chain, in order. */
  function TargetsIn(selector: nat, ops: seq<BatchOp>): seq<Address> {
    if ops == [] then []
    else
      var n := |ops| - 1;
      TargetsIn(selector, ops[..n]) + if ops[n].selector == selector then ops[n].transactions else []
  }

  function CallsBy(t: Address, targets: seq<Address>): seq<AcceptCall> {
    seq(|targets|, i requires 0 <= i < |targets| => AcceptCall(t, targets[i]))
  }

  /** The calls that the proposals make on one chain, each through the timelock of
      the proposal's qualifier. */
  function CallsOn(selector: nat, ps: seq<Proposal>, addresses: seq<AddressRef>): seq<AcceptCall> {
    if ps == [] then []
    else
      var n := |ps| - 1;
      var t := TimelockFor(addresses, selector, ps[n].qualifier);
      CallsOn(selector, ps[..n], addresses) + CallsBy(if t.Some? then t.value else ZERO, TargetsIn(selector, ps[n].ops))
  }

  // ----- the timelock of a qualifier

  predicate UniqueQualifiers(timelocks: seq<TimelockSpec>) {
    forall i, j :: 0 <= i < j < |timelocks| ==> timelocks[i].qualifier != timelocks[j].qualifier
  }

  lemma {:induction false} TimelockFound(env: Env, first: Address, timelocks: seq<TimelockSpec>, m: MCMSpec, i: nat)
    requires UniqueQualifiers(timelocks) && i < |timelocks| && m.contractType == TIMELOCK
      && m.qualifier == timelocks[i].qualifier
    ensures FirstAddress(AllTimelockAddresses(env, first, timelocks), env.selector, m) ==
      Some(TimelockAddress(env, first, timelocks, i))
  {
    hide FirstAddress, TimelockAddress, TimelockAddresses;
    var n := |timelocks| - 1;
    var rest, t := timelocks[..n], first + Widths(env, timelocks[..n]);
    FirstAddressJoin(AllTimelockAddresses(env, first, rest), TimelockAddresses(env, t, timelocks[n]), env.selector, m);
    AddressesOfRest(env, first, timelocks);
    if i < n {
      TimelockFound(env, first, rest, m, i);
    } else {
      OtherQualifiers(env, first, rest, m);
      FirstIsTimelock(env, t, timelocks[n], m);
    }
  }

  lemma FirstIsTimelock(env: Env, t: Address, tl: TimelockSpec, m: MCMSpec)
    requires m.contractType == TIMELOCK && m.qualifier == tl.qualifier
    ensures FirstAddress(TimelockAddresses(env, t, tl), env.selector, m) == Some(t)
  {}

  lemma {:induction false} OtherQualifiers(env: Env, first: Address, timelocks: seq<TimelockSpec>, m: MCMSpec)
    requires forall i :: 0 <= i < |timelocks| ==> timelocks[i].qualifier != m.qualifier
    ensures FirstAddress(AllTimelockAddresses(env, first, timelocks), env.selector, m) == None
  {
    if timelocks != [] {
      var n := |timelocks| - 1;
      OtherQualifiers(env, first, timelocks[..n], m);
      var last := TimelockAddresses(env, first + Widths(env, timelocks[..n]), timelocks[n]);
      NoneMatches(last, env.selector, m);
      FirstAddressJoin(AllTimelockAddresses(env, first, timelocks[..n]), last, env.selector, m);
    }
  }

  predicate AllSupported(mcms: seq<MCMSpec>) {
    forall m :: m in mcms ==> SupportedType(m.contractType)
  }

  lemma TimelockOf(runs: seq<ChainRun>, r: ChainRun, i: nat)
    requires r in runs && forall i, j :: 0 <= i < j < |runs| ==> runs[i].env.selector != runs[j].env.selector
    requires UniqueQualifiers(r.cfg.timelocks) && AllSupported(r.cfg.mcms) && i < |r.cfg.timelocks|
    ensures TimelockFor(AllAddresses(runs), r.env.selector, r.cfg.timelocks[i].qualifier) ==
      Some(TimelockAddress(r.env, r.first + |r.cfg.mcms|, r.cfg.timelocks, i))
  {
    hide AllAddresses, FirstAddress, TimelockAddress, AllTimelockAddresses, UniqueQualifiers;
    var m := MCMSpec("", Config(0), r.cfg.timelocks[i].qualifier, TIMELOCK, "");
    var mine := McmAddresses(r.env, r.first, r.cfg.mcms);
    McmsDiffer(r, m);
    NoneMatches(mine, r.env.selector, m);
    OwnChainOnly(runs, r, m);
    FirstAddressJoin(mine, AllTimelockAddresses(r.env, r.first + |r.cfg.mcms|, r.cfg.timelocks), r.env.selector, m);
    TimelockFound(r.env, r.first + |r.cfg.mcms|, r.cfg.timelocks, m, i);
  }

  lemma McmsDiffer(r: ChainRun, m: MCMSpec)
    requires AllSupported(r.cfg.mcms) && m.contractType == TIMELOCK
    ensures forall x :: x in McmAddresses(r.env, r.first, r.cfg.mcms) ==> !RefMatches(x, r.env.selector, m)
  {
    var mine := McmAddresses(r.env, r.first, r.cfg.mcms);
    forall x | x in mine
      ensures !RefMatches(x, r.env.selector, m)
    {
      var j :| 0 <= j < |mine| && mine[j] == x;
      assert SupportedType(r.cfg.mcms[j].contractType);
    }
  }

  // ----- targets under reordering

  predicate NoDuplicates<T(==)>(s: seq<T>) {
    forall i, j :: 0 <= i < j < |s| ==> s[i] != s[j]
  }

  lemma {:induction false} AtMostOnce<T>(s: seq<T>)
    ensures NoDuplicates(s) <==> forall x :: multiset(s)[x] <= 1
  {
    if s != [] {
      var n := |s| - 1;
      assert s == s[..n] + [s[n]];
      AtMostOnce(s[..n]);
      if NoDuplicates(s) {
        assert s[n] !in s[..n];
      } else if NoDuplicates(s[..n]) {
        var i, j :| 0 <= i < j < |s| && s[i] == s[j];
        assert j == n && s[..n][i] == s[n];
        assert s[n] in multiset(s[..n]) && multiset(s)[s[n]] >= 2;
      } else {
        var x :| multiset(s[..n])[x] > 1;
        assert multiset(s)[x] > 1;
      }
    }
  }

  lemma {:induction false} TargetsJoin(selector: nat, p: seq<BatchOp>, q: seq<BatchOp>)
    ensures TargetsIn(selector, p + q) == TargetsIn(selector, p) + TargetsIn(selector, q)
  {
    if q == [] {
      assert p + q == p;
    } else {
      var n := |q| - 1;
      assert (p + q)[..|p + q| - 1] == p + q[..n] && (p + q)[|p + q| - 1] == q[n];
      TargetsJoin(selector, p, q[..n]);
    }
  }

  lemma TargetsWithout(selector: nat, a: seq<BatchOp>, x: seq<BatchOp>, b: seq<BatchOp>)
    ensures multiset(TargetsIn(selector, a + x + b)) == multiset(TargetsIn(selector, a + b))
      + multiset(TargetsIn(selector, x))
  {
    hide TargetsIn;
    TargetsJoin(selector, a, b);
    TargetsJoin(selector, a + x, b);
    TargetsJoin(selector, a, x);
  }

  lemma WithMiddle<T>(a: seq<T>, y: T, b: seq<T>)
    ensures multiset(a + [y] + b) == multiset(a + b) + multiset{y}
  {
    assert multiset(a + [y] + b) == multiset(a) + multiset([y]) + multiset(b);
    assert multiset(a + b) == multiset(a) + multiset(b);
  }

  lemma Cancel<T>(x: multiset<T>, z: multiset<T>, y: T)
    requires x + multiset{y} == z + multiset{y}
    ensures x == z
  {
    assert x == (x + multiset{y}) - multiset{y} && z == (z + multiset{y}) - multiset{y};
  }

  lemma TakeOut<T>(p: seq<T>, q: seq<T>) returns (a: seq<T>, b: seq<T>)
    requires p != [] && multiset(p) == multiset(q)
    ensures q == a + [p[|p| - 1]] + b && multiset(p[..|p| - 1]) == multiset(a + b)
  {
    var n := |p| - 1;
    assert p[n] in multiset(p) && p[n] in multiset(q);
    var i :| 0 <= i < |q| && q[i] == p[n];
    a, b := q[..i], q[i + 1..];
    SplitAround(p, q, i);
    WithMiddle(a, p[n], b);
    WithMiddle(p[..n], p[n], []);
    assert p[..n] + [] == p[..n];
    Cancel(multiset(p[..n]), multiset(a + b), p[n]);
  }

  lemma SplitAround<T>(p: seq<T>, q: seq<T>, i: nat)
    requires p != [] && i < |q|
    ensures p == p[..|p| - 1] + [p[|p| - 1]] + [] && q == q[..i] + [q[i]] + q[i + 1..]
  {}

  lemma TargetsLast(selector: nat, p: seq<BatchOp>)
    requires p != []
    ensures multiset(TargetsIn(selector, p)) == multiset(TargetsIn(selector, p[..|p| - 1]))
      + multiset(TargetsIn(selector, [p[|p| - 1]]))
  {
    hide TargetsIn;
    var n := |p| - 1;
    assert p == p[..n] + [p[n]];
    TargetsJoin(selector, p[..n], [p[n]]);
  }

  /** Reordering batches only reorders their targets. */
  lemma {:induction false} TargetsReordered(selector: nat, p: seq<BatchOp>, q: seq<BatchOp>)
    requires multiset(p) == multiset(q)
    ensures multiset(TargetsIn(selector, p)) == multiset(TargetsIn(selector, q))
  {
    hide TargetsIn;
    if p == [] {
      assert |q| == |multiset(q)|;
    } else {
      var n := |p| - 1;
      var a, b := TakeOut(p, q);
      TargetsReordered(selector, p[..n], a + b);
      TargetsWithout(selector, a, [p[n]], b);
      TargetsLast(selector, p);
    }
  }

  lemma {:induction false} TargetIn(selector: nat, ops: seq<BatchOp>)
    ensures forall a :: a in TargetsIn(selector, ops) <==>
      exists op :: op in ops && op.selector == selector && a in op.transactions
  {
    if ops != [] {
      var n := |ops| - 1;
      TargetIn(selector, ops[..n]);
      assert ops == ops[..n] + [ops[n]];
    }
  }

  // ----- one chain

  function PlaceOf(r: ChainRun, i: nat): Address
    requires i < |r.cfg.timelocks|
  {
    TimelockAddress(r.env, r.first + |r.cfg.mcms|, r.cfg.timelocks, i)
  }

  /** Each target has been transferred to the timelock that names it. */
  predicate AllHanded(r: ChainRun, own: Ownables) {
    forall i, a :: 0 <= i < |r.cfg.timelocks| && a in Targets(r.cfg.timelocks[i], RefsOf(r)) && a in r.own ==>
      a in own && own[a] == Transfer(r.own[a], r.env.deployer, PlaceOf(r, i))
  }

  /** What a completed run of one chain amounts to for the proposals. */
  ghost predicate ChainDone(c: Chain, r: ChainRun, c': Chain, l: Local) {
    var timelocks, refs := r.cfg.timelocks, RefsOf(r);
    && r.first == c.next && AllSupported(r.cfg.mcms)
    && AllResolvable(timelocks, refs) && Disjoint(timelocks, refs) && AllOwned(r.own, r.env, refs, timelocks)
    && l.addresses == AddressesOf(r) && l.batchOps == Ops(EmissionsOf(r, timelocks))
    && (forall tl :: tl in timelocks ==> Targets(tl, refs) <= r.own.Keys)
    && c'.ownables.Keys == r.own.Keys
    && AllHanded(r, c'.ownables)
    && (forall i :: 0 <= i < |timelocks| ==>
          timelocks[i].ref in l.refToAddr && l.refToAddr[timelocks[i].ref] == PlaceOf(r, i))
    && Sub(refs, l.refToAddr)
  }

  function ChainRunOf(c: Chain, env: Env, cfg: ChainConfig): ChainRun {
    ChainRun(env, cfg, c.next, AfterMcms(c, env.deployer, cfg.mcms).ownables)
  }

  lemma ChainOutcome(s: St, env: Env, cfg: ChainConfig, hasMCMS: bool)
    requires Resumable(s, env, cfg, hasMCMS) && Run(s, env, cfg).1.Done?
    ensures
      var (s', o) := Run(s, env, cfg);
      ChainDone(s.chain, ChainRunOf(s.chain, env, cfg), s'.chain, o.value)
  {
    hide Run, AfterMcms, AfterTimelocks, FreshRefs, CleanStart, OutsideOwned, ClaimedOnce, ValidChainConfig,
      AllResolvable, Disjoint, AllOwned, Targets,
      Batches, EmissionsOf, Ops, McmPlaces, TimelockAddress, Transfer, McmAddresses, AllTimelockAddresses, Assign,
        Program, Sub, UnsupportedMcm;
    var r, refs := ChainRunOf(s.chain, env, cfg), McmPlaces(s.chain.next, cfg.mcms);
    var c1 := AfterMcms(s.chain, env.deployer, cfg.mcms);
    RunOutcome(s, env, cfg, hasMCMS);
    TargetsReady(s, env, cfg, hasMCMS);
    McmsKeep(s.chain, env.deployer, cfg.mcms);
    KeysKept(c1, env, refs, cfg.timelocks);
    EmissionsAreBatches(r, cfg.timelocks);
    RefsAre(s, env, cfg, hasMCMS);
    SupportedByRun(s, env, cfg, hasMCMS);
    forall i, a | 0 <= i < |cfg.timelocks| && a in Targets(cfg.timelocks[i], refs)
      ensures
        var own' := AfterTimelocks(c1, env, refs, cfg.timelocks).ownables;
        own'[a] == Transfer(r.own[a], env.deployer, PlaceOf(r, i))
    {
      OwnershipMoves(c1, env, refs, cfg.timelocks, i, a);
    }
    RefsKnown(cfg, refs, Run(s, env, cfg).1.value.refToAddr);
  }

  lemma KeysKept(c: Chain, env: Env, refs: map<string, Address>, timelocks: seq<TimelockSpec>)
    requires AllResolvable(timelocks, refs)
    ensures AfterTimelocks(c, env, refs, timelocks).ownables.Keys == c.ownables.Keys
  {
    SameOutside(c, env, refs, timelocks);
  }

  lemma RefsKnown(cfg: ChainConfig, refs: map<string, Address>, all: map<string, Address>)
    requires all.Keys == McmRefs(cfg.mcms) + TimelockRefs(cfg.timelocks)
    ensures forall i :: 0 <= i < |cfg.timelocks| ==> cfg.timelocks[i].ref in all
  {}

  lemma SupportedByRun(s: St, env: Env, cfg: ChainConfig, hasMCMS: bool)
    requires CleanStart(s, env) && ValidChainConfig(cfg, hasMCMS) && Run(s, env, cfg).1.Done?
    ensures AllSupported(cfg.mcms)
  {
    ValidRunFailures(s, env, cfg, hasMCMS);
    hide Run, CleanStart, ValidChainConfig;
  }

  // ----- the calls of one chain

  function CallTargets(calls: seq<AcceptCall>): seq<Address> {
    seq(|calls|, i requires 0 <= i < |calls| => calls[i].target)
  }

  lemma {:induction false} CallsAreTargets(selector: nat, ps: seq<Proposal>, addresses: seq<AddressRef>)
    ensures CallTargets(CallsOn(selector, ps, addresses)) == TargetsIn(selector, AllProposed(ps))
  {
    if ps != [] {
      var n := |ps| - 1;
      CallsAreTargets(selector, ps[..n], addresses);
      TargetsJoin(selector, AllProposed(ps[..n]), ps[n].ops);
    }
  }

  /** Every call comes from a batch of a proposal, through its qualifier's timelock. */
  lemma {:induction false} CallOrigin(selector: nat, ps: seq<Proposal>, addresses: seq<AddressRef>, call: AcceptCall)
    returns (p: Proposal, op: BatchOp)
    requires call in CallsOn(selector, ps, addresses)
    ensures p in ps && op in p.ops && op.selector == selector && call.target in op.transactions
    ensures TimelockFor(addresses, selector, p.qualifier).Some? ==>
      call.timelock == TimelockFor(addresses, selector, p.qualifier).value
  {
    hide TimelockFor;
    var n := |ps| - 1;
    if call in CallsOn(selector, ps[..n], addresses) {
      p, op := CallOrigin(selector, ps[..n], addresses, call);
    } else {
      p := ps[n];
      TargetIn(selector, p.ops);
      assert call.target in TargetsIn(selector, p.ops);
      op :| op in p.ops && op.selector == selector && call.target in op.transactions;
    }
  }

  lemma {:induction false} OpOrigin(es: seq<Emission>, qualifier: string, op: BatchOp) returns (e: Emission)
    requires op in Ops(ForQualifier(es, qualifier))
    ensures e in es && e.op == op && e.timelock.qualifier == qualifier
  {
    var ops := Ops(ForQualifier(es, qualifier));
    var i :| 0 <= i < |ops| && ops[i] == op;
    e := ForQualifier(es, qualifier)[i];
    AllOfQualifier(es, qualifier);
  }

  lemma {:induction false} AllOfQualifier(es: seq<Emission>, qualifier: string)
    ensures forall e :: e in ForQualifier(es, qualifier) ==> e in es && e.timelock.qualifier == qualifier
  {
    if es != [] {
      AllOfQualifier(es[..|es| - 1], qualifier);
    }
  }

  /** A contract that a run of these timelocks leaves pending. */
  predicate LeftPending(r: ChainRun, timelocks: seq<TimelockSpec>, a: Address) {
    a in r.own && r.own[a].twoStep && exists i :: 0 <= i < |timelocks| && a in Targets(timelocks[i], RefsOf(r))
  }

  /** No target of a run is accepted twice, and every two-step target is accepted. */
  lemma {:induction false} RunTargets(r: ChainRun, timelocks: seq<TimelockSpec>)
    requires AllResolvable(timelocks, RefsOf(r)) && Disjoint(timelocks, RefsOf(r))
    ensures
      var targets := TargetsIn(r.env.selector, Ops(EmissionsOf(r, timelocks)));
      NoDuplicates(targets) && forall a :: a in targets <==> LeftPending(r, timelocks, a)
  {
    if timelocks != [] {
      var n := |timelocks| - 1;
      var tl := timelocks[n];
      RunTargets(r, timelocks[..n]);
      LastTargets(r, timelocks, r.env.selector);
      var txs := ToAccept(r.own, Resolved(tl.transferOwnership, RefsOf(r)));
      ToAcceptAre(r.own, Resolved(tl.transferOwnership, RefsOf(r)));
      TargetsAre(tl, RefsOf(r));
      hide TargetsIn, EmissionsOf, Ops, ToAccept, RefsOf, Targets, AllResolvable, Resolved, Resolvable, LeftPending;
      PendingOneMore(r, timelocks);
      JoinedOnce(TargetsIn(r.env.selector, Ops(EmissionsOf(r, timelocks[..n]))), txs);
    }
  }

  lemma PendingOneMore(r: ChainRun, timelocks: seq<TimelockSpec>)
    requires timelocks != [] && Disjoint(timelocks, RefsOf(r))
    ensures
      var n := |timelocks| - 1;
      forall a :: && (LeftPending(r, timelocks, a) <==>
                        LeftPending(r, timelocks[..n], a)
                          || (a in r.own && r.own[a].twoStep && a in Targets(timelocks[n], RefsOf(r))))
                  && !(LeftPending(r, timelocks[..n], a) && a in Targets(timelocks[n], RefsOf(r)))
  {
    hide RefsOf, Targets;
    var n := |timelocks| - 1;
    assert forall i :: 0 <= i < n ==> timelocks[..n][i] == timelocks[i];
    assert forall i :: 0 <= i < n ==> Targets(timelocks[i], RefsOf(r)) !! Targets(timelocks[n], RefsOf(r));
  }

  lemma JoinedOnce(x: seq<Address>, y: seq<Address>)
    requires NoDuplicates(x) && NoDuplicates(y) && forall a :: !(a in x && a in y)
    ensures NoDuplicates(x + y)
  {
    forall i, j | 0 <= i < j < |x + y|
      ensures (x + y)[i] != (x + y)[j]
    {
      if i < |x| <= j {
        assert x[i] in x && y[j - |x|] in y;
      }
    }
  }

  lemma OneEmission(selector: nat, e: Emission)
    ensures TargetsIn(selector, Ops([e])) == if e.op.selector == selector then e.op.transactions else []
  {
    assert Ops([e]) == [e.op] && [e.op][..0] == [];
  }

  /** The targets of the last timelock's batch, if it emits one. */
  lemma LastTargets(r: ChainRun, timelocks: seq<TimelockSpec>, selector: nat)
    requires timelocks != [] && AllResolvable(timelocks, RefsOf(r))
    ensures
      var n := |timelocks| - 1;
      TargetsIn(selector, Ops(EmissionsOf(r, timelocks))) ==
        TargetsIn(selector, Ops(EmissionsOf(r, timelocks[..n])))
        + if r.env.selector == selector then ToAccept(r.own, Resolved(timelocks[n].transferOwnership, RefsOf(r)))
          else []
  {
    var n := |timelocks| - 1;
    var txs := ToAccept(r.own, Resolved(timelocks[n].transferOwnership, RefsOf(r)));
    var before := EmissionsOf(r, timelocks[..n]);
    var e := Emission(r, timelocks[n], BatchOp(r.env.selector, txs));
    assert EmissionsOf(r, timelocks) == before + if txs == [] then [] else [e];
    hide TargetsIn, Ops, EmissionsOf, ToAccept, AllResolvable;
    assert before + [] == before && TargetsIn(selector, Ops(before)) + [] == TargetsIn(selector, Ops(before));
    OpsJoin(before, [e]);
    TargetsJoin(selector, Ops(before), Ops([e]));
    OneEmission(selector, e);
  }

  /** Other chains' batches have no targets here. */
  lemma {:induction false} OtherTargets(r: ChainRun, timelocks: seq<TimelockSpec>, selector: nat)
    requires AllResolvable(timelocks, RefsOf(r)) && r.env.selector != selector
    ensures TargetsIn(selector, Ops(EmissionsOf(r, timelocks))) == []
  {
    if timelocks != [] {
      OtherTargets(r, timelocks[..|timelocks| - 1], selector);
      LastTargets(r, timelocks, selector);
    }
  }

  predicate DistinctChains(runs: seq<ChainRun>) {
    forall i, j :: 0 <= i < j < |runs| ==> runs[i].env.selector != runs[j].env.selector
  }

  lemma {:induction false} OwnTargetsOnly(runs: seq<ChainRun>, i: nat)
    requires AllRunsResolvable(runs) && DistinctChains(runs) && i < |runs|
    ensures TargetsIn(runs[i].env.selector, Ops(AllEmissions(runs))) ==
      TargetsIn(runs[i].env.selector, Ops(EmissionsOf(runs[i], runs[i].cfg.timelocks)))
  {
    hide EmissionsOf, Ops, AllResolvable, TargetsIn;
    var n, k := |runs| - 1, runs[i].env.selector;
    var before, last := AllEmissions(runs[..n]), EmissionsOf(runs[n], runs[n].cfg.timelocks);
    OpsJoin(before, last);
    TargetsJoin(k, Ops(before), Ops(last));
    if i < n {
      OwnTargetsOnly(runs[..n], i);
      OtherTargets(runs[n], runs[n].cfg.timelocks, k);
    } else {
      NoTargetsYet(runs[..n], k);
    }
  }

  lemma {:induction false} NoTargetsYet(runs: seq<ChainRun>, selector: nat)
    requires AllRunsResolvable(runs) && forall i :: 0 <= i < |runs| ==> runs[i].env.selector != selector
    ensures TargetsIn(selector, Ops(AllEmissions(runs))) == []
  {
    if runs != [] {
      var n := |runs| - 1;
      NoTargetsYet(runs[..n], selector);
      OtherTargets(runs[n], runs[n].cfg.timelocks, selector);
      OpsJoin(AllEmissions(runs[..n]), EmissionsOf(runs[n], runs[n].cfg.timelocks));
      TargetsJoin(selector, Ops(AllEmissions(runs[..n])), Ops(EmissionsOf(runs[n], runs[n].cfg.timelocks)));
    }
  }

  // ----- executing the calls

  /** Completed runs of distinct chains, with all that routing asks for. */
  ghost predicate Completed(runs: seq<ChainRun>, cfgs: Configs, hasMCMS: bool) {
    && ValidRuns(runs, cfgs, hasMCMS) && AllRunsResolvable(runs)
    && forall r :: r in runs ==>
         Disjoint(r.cfg.timelocks, RefsOf(r)) && UniqueQualifiers(r.cfg.timelocks) && AllSupported(r.cfg.mcms)
           && RoutesOwn(r)
  }

  function ProposalsOf(runs: seq<ChainRun>, cfgs: Configs, order: seq<string>): seq<Proposal>
    requires AllRunsResolvable(runs)
  {
    Proposals(order, Ops(AllEmissions(runs)), AllAddresses(runs), cfgs)
  }

  ghost predicate Orders(order: seq<string>, cfgs: Configs) {
    NoDuplicates(order) && forall q :: q in order <==> q in QualifiersWithTransfers(cfgs)
  }

  lemma Conserved(runs: seq<ChainRun>, cfgs: Configs, hasMCMS: bool, order: seq<string>)
    requires Completed(runs, cfgs, hasMCMS) && Orders(order, cfgs)
    ensures RoutesHome(ProposalsOf(runs, cfgs, order), AllEmissions(runs))
    ensures multiset(AllProposed(ProposalsOf(runs, cfgs, order))) == multiset(Ops(AllEmissions(runs)))
    ensures InOrder(ProposalsOf(runs, cfgs, order), order)
    ensures forall p :: p in ProposalsOf(runs, cfgs, order) ==> p.ops != []
  {
    hide ValidRuns, AllEmissions, AllAddresses, AllRunsResolvable, RoutesOwn, QualifiersWithTransfers;
    Conservation(runs, cfgs, hasMCMS, order);
  }

  /** A call is made by the timelock that asked for its target. */
  lemma CallOwner(runs: seq<ChainRun>, cfgs: Configs, hasMCMS: bool, order: seq<string>, r: ChainRun, call: AcceptCall)
    returns (i: nat)
    requires Completed(runs, cfgs, hasMCMS) && Orders(order, cfgs) && r in runs
    requires call in CallsOn(r.env.selector, ProposalsOf(runs, cfgs, order), AllAddresses(runs))
    ensures i < |r.cfg.timelocks| && call.target in Targets(r.cfg.timelocks[i], RefsOf(r))
      && call.timelock == PlaceOf(r, i)
  {
    hide Orders, Proposals, CallsOn, AllAddresses, TimelockFor, AllRunsResolvable, AllEmissions, Ops, ForQualifier,
      RefsOf, Targets, TimelockAddress;
    var es, k := AllEmissions(runs), r.env.selector;
    Conserved(runs, cfgs, hasMCMS, order);
    var p, op := CallOrigin(k, ProposalsOf(runs, cfgs, order), AllAddresses(runs), call);
    var e := OpOrigin(es, p.qualifier, op);
    AllHonest(runs);
    SameChain(runs, e.run, r);
    i :| 0 <= i < |r.cfg.timelocks| && r.cfg.timelocks[i] == e.timelock;
    TimelockOf(runs, r, i);
  }

  lemma SameChain(runs: seq<ChainRun>, r: ChainRun, r': ChainRun)
    requires DistinctChains(runs) && r in runs && r' in runs && r.env.selector == r'.env.selector
    ensures r == r'
  {
    var i :| 0 <= i < |runs| && runs[i] == r;
    var j :| 0 <= j < |runs| && runs[j] == r';
    assert i == j;
  }

  /** The calls of a chain accept each pending contract once. */
  lemma CallsOnce(runs: seq<ChainRun>, cfgs: Configs, hasMCMS: bool, order: seq<string>, r: ChainRun)
    requires Completed(runs, cfgs, hasMCMS) && Orders(order, cfgs) && r in runs
    ensures
      var targets := CallTargets(CallsOn(r.env.selector, ProposalsOf(runs, cfgs, order), AllAddresses(runs)));
      NoDuplicates(targets) && forall a :: a in targets <==> LeftPending(r, r.cfg.timelocks, a)
  {
    hide Proposals, CallsOn, CallTargets, AllAddresses, AllEmissions, EmissionsOf, Ops, TargetsIn, LeftPending, RefsOf,
      Targets, ValidRuns, Disjoint, AllResolvable;
    var k, ps := r.env.selector, ProposalsOf(runs, cfgs, order);
    var i :| 0 <= i < |runs| && runs[i] == r;
    Conserved(runs, cfgs, hasMCMS, order);
    GoodAreDistinct(runs, cfgs, hasMCMS);
    CallsAreTargets(k, ps, AllAddresses(runs));
    TargetsReordered(k, AllProposed(ps), Ops(AllEmissions(runs)));
    OwnTargetsOnly(runs, i);
    RunTargets(r, r.cfg.timelocks);
    SameElements(TargetsIn(k, AllProposed(ps)), TargetsIn(k, Ops(AllEmissions(runs))));
  }

  lemma GoodAreDistinct(runs: seq<ChainRun>, cfgs: Configs, hasMCMS: bool)
    requires ValidRuns(runs, cfgs, hasMCMS)
    ensures DistinctChains(runs)
  {}

  lemma SameElements<T>(x: seq<T>, y: seq<T>)
    requires multiset(x) == multiset(y)
    ensures NoDuplicates(x) <==> NoDuplicates(y)
    ensures forall a :: a in x <==> a in y
  {
    AtMostOnce(x);
    AtMostOnce(y);
    forall a
      ensures a in x <==> a in y
    {
      assert a in x <==> a in multiset(x);
      assert a in y <==> a in multiset(y);
    }
  }

  /** Calls with distinct targets have them in any order. */
  lemma AnyOrderDistinct(made: seq<AcceptCall>, calls: seq<AcceptCall>)
    requires NoDuplicates(CallTargets(made)) && multiset(calls) == multiset(made)
    ensures DistinctTargets(calls)
  {
    SameElements(calls, made);
    DistinctCalls(made);
    forall i, j | 0 <= i < j < |calls|
      ensures calls[i].target != calls[j].target
    {
      assert calls[i] in calls && calls[j] in calls;
      SameTargetSameCall(made, calls[i], calls[j]);
    }
  }

  lemma DistinctCalls(calls: seq<AcceptCall>)
    requires NoDuplicates(CallTargets(calls))
    ensures NoDuplicates(calls)
  {
    assert forall i :: 0 <= i < |calls| ==> CallTargets(calls)[i] == calls[i].target;
  }

  lemma SameTargetSameCall(calls: seq<AcceptCall>, x: AcceptCall, y: AcceptCall)
    requires NoDuplicates(CallTargets(calls)) && x in calls && y in calls
    ensures x.target == y.target ==> x == y
  {
    var i :| 0 <= i < |calls| && calls[i] == x;
    var j :| 0 <= j < |calls| && calls[j] == y;
    assert x.target == y.target ==> CallTargets(calls)[i] == CallTargets(calls)[j];
  }

  /** A target after the run: pending for its timelock, or already its. */
  lemma HandedTarget(r: ChainRun, own: Ownables, i: nat, a: Address)
    requires AllHanded(r, own) && i < |r.cfg.timelocks| && a in Targets(r.cfg.timelocks[i], RefsOf(r))
    requires a in r.own && r.own[a].owner == r.env.deployer
    ensures a in own && r.own[a].twoStep == own[a].twoStep
    ensures if own[a].twoStep then own[a].pending == Some(PlaceOf(r, i)) else own[a].owner == PlaceOf(r, i)
  {
    hide RefsOf, Targets, TimelockAddress;
  }

  lemma OwnedTarget(c: Chain, r: ChainRun, c': Chain, l: Local, i: nat, a: Address)
    requires ChainDone(c, r, c', l) && i < |r.cfg.timelocks| && a in Targets(r.cfg.timelocks[i], RefsOf(r))
    ensures AllHanded(r, c'.ownables) && a in r.own && r.own[a].owner == r.env.deployer
  {
    hide RefsOf, Targets, EmissionsOf, Ops, AddressesOf, TimelockAddress, AllResolvable, Disjoint;
    assert r.cfg.timelocks[i] in r.cfg.timelocks;
  }

  lemma OneClaim(r: ChainRun, i: nat, j: nat, a: Address)
    requires Disjoint(r.cfg.timelocks, RefsOf(r)) && i < |r.cfg.timelocks| && j < |r.cfg.timelocks|
    requires a in Targets(r.cfg.timelocks[i], RefsOf(r)) && a in Targets(r.cfg.timelocks[j], RefsOf(r))
    ensures i == j
  {}

  lemma TargetMade(calls: seq<AcceptCall>, a: Address)
    ensures a in CallTargets(calls) <==> exists call :: call in calls && call.target == a
  {
    if call :| call in calls && call.target == a {
      var i :| 0 <= i < |calls| && calls[i] == call;
      assert CallTargets(calls)[i] == a;
    }
  }

  /** Executing the proposals' calls on one chain, in any order, goes through and
      makes every target its timelock's. */
  lemma ExecuteInAnyOrder(runs: seq<ChainRun>, cfgs: Configs, hasMCMS: bool, order: seq<string>, r: ChainRun, c: Chain,
                          c': Chain, l: Local, calls: seq<AcceptCall>)
    requires Completed(runs, cfgs, hasMCMS) && Orders(order, cfgs) && r in runs && ChainDone(c, r, c', l)
    requires multiset(calls) == multiset(CallsOn(r.env.selector, ProposalsOf(runs, cfgs, order), AllAddresses(runs)))
    ensures
      var done := ExecuteAccepts(c'.ownables, calls);
      && done.Some?
      && forall i, a :: 0 <= i < |r.cfg.timelocks| && a in Targets(r.cfg.timelocks[i], RefsOf(r)) ==>
           a in done.value && done.value[a].owner == PlaceOf(r, i)
  {
    assert AllRunsResolvable(runs);
    var made := CallsOn(r.env.selector, ProposalsOf(runs, cfgs, order), AllAddresses(runs));
    hide Proposals, CallsOn, CallTargets, AllAddresses, Completed, AllRunsResolvable, Orders, RefsOf, Targets,
      ExecuteAccepts, TimelockAddress, ChainDone;
    CallsOnce(runs, cfgs, hasMCMS, order, r);
    AnyOrderDistinct(made, calls);
    AcceptsOutcome(c'.ownables, calls);
    forall call | call in calls
      ensures Awaits(c'.ownables, call)
    {
      CallAwaits(runs, cfgs, hasMCMS, order, r, c, c', l, calls, call);
    }
    forall i, a | 0 <= i < |r.cfg.timelocks| && a in Targets(r.cfg.timelocks[i], RefsOf(r))
      ensures
        var done := ExecuteAccepts(c'.ownables, calls).value;
        a in done && done[a].owner == PlaceOf(r, i)
    {
      OwnedTarget(c, r, c', l, i, a);
      HandedTarget(r, c'.ownables, i, a);
      TargetCalled(runs, cfgs, hasMCMS, order, r, calls, i, a);
    }
  }

  lemma CallAwaits(runs: seq<ChainRun>, cfgs: Configs, hasMCMS: bool, order: seq<string>, r: ChainRun, c: Chain,
                   c': Chain, l: Local, calls: seq<AcceptCall>, call: AcceptCall)
    requires Completed(runs, cfgs, hasMCMS) && Orders(order, cfgs) && r in runs && ChainDone(c, r, c', l)
    requires multiset(calls) == multiset(CallsOn(r.env.selector, ProposalsOf(runs, cfgs, order), AllAddresses(runs)))
      && call in calls
    ensures Awaits(c'.ownables, call)
  {
    assert AllRunsResolvable(runs);
    var made := CallsOn(r.env.selector, ProposalsOf(runs, cfgs, order), AllAddresses(runs));
    hide Proposals, CallsOn, CallTargets, AllAddresses, Completed, AllRunsResolvable, Orders, RefsOf, Targets,
      TimelockAddress, ChainDone;
    SameElements(calls, made);
    CallsOnce(runs, cfgs, hasMCMS, order, r);
    TargetMade(made, call.target);
    var i := CallOwner(runs, cfgs, hasMCMS, order, r, call);
    OwnedTarget(c, r, c', l, i, call.target);
    HandedTarget(r, c'.ownables, i, call.target);
  }

  /** A two-step target has a call, made by its timelock; a one-step target has none. */
  lemma TargetCalled(runs: seq<ChainRun>, cfgs: Configs, hasMCMS: bool, order: seq<string>, r: ChainRun,
                     calls: seq<AcceptCall>, i: nat, a: Address)
    requires Completed(runs, cfgs, hasMCMS) && Orders(order, cfgs) && r in runs
    requires multiset(calls) == multiset(CallsOn(r.env.selector, ProposalsOf(runs, cfgs, order), AllAddresses(runs)))
    requires i < |r.cfg.timelocks| && a in Targets(r.cfg.timelocks[i], RefsOf(r)) && a in r.own
    ensures if r.own[a].twoStep then AcceptCall(PlaceOf(r, i), a) in calls else forall call :: call in calls ==>
      call.target != a
  {
    assert Disjoint(r.cfg.timelocks, RefsOf(r));
    var made := CallsOn(r.env.selector, ProposalsOf(runs, cfgs, order), AllAddresses(runs));
    hide Proposals, CallsOn, CallTargets, AllAddresses, Completed, Orders, RefsOf, Targets, TimelockAddress, Disjoint;
    SameElements(calls, made);
    CallsOnce(runs, cfgs, hasMCMS, order, r);
    TargetMade(made, a);
    if r.own[a].twoStep {
      assert LeftPending(r, r.cfg.timelocks, a);
      var call :| call in made && call.target == a;
      var j := CallOwner(runs, cfgs, hasMCMS, order, r, call);
      OneClaim(r, i, j, a);
    }
  }

  // ----- the changeset

  /** Outputs are appended chain by chain. */
  function AddressesOut(outs: seq<Local>): seq<AddressRef> {
    if outs == [] then [] else AddressesOut(outs[..|outs| - 1]) + outs[|outs| - 1].addresses
  }

  function OpsOut(outs: seq<Local>): seq<BatchOp> {
    if outs == [] then [] else OpsOut(outs[..|outs| - 1]) + outs[|outs| - 1].batchOps
  }

  /** Every chain is configured validly, with each target claimed once and outside
      targets the deployer's, qualifiers tell its timelocks apart, and its batches are
      routed to their own timelocks. */
  ghost predicate GoodStart(w: World, envs: Envs, cfgs: Configs, order: seq<nat>, hasMCMS: bool) {
    && Configured(w, envs, cfgs, order)
    && forall k :: k in order ==>
         Resumable(At(w, k), envs[k], cfgs[k], hasMCMS) && RoutesOwn(ChainRunOf(w.chains[k], envs[k], cfgs[k]))
           && UniqueQualifiers(cfgs[k].timelocks)
  }

  /** Unique qualifiers and types of the MCMs suffice for the routing. */
  lemma UniqueMcmsSuffice(s: St, env: Env, cfg: ChainConfig, hasMCMS: bool)
    requires Resumable(s, env, cfg, hasMCMS) && UniqueMcms(cfg.mcms)
    ensures RoutesOwn(ChainRunOf(s.chain, env, cfg))
  {
    hide AfterMcms, McmPlaces, OutsideOwned, ClaimedOnce, AllOwned, AllResolvable, ValidChainConfig, UniqueMcms,
      Disjoint, RoutesOwn;
    TargetsReady(s, env, cfg, hasMCMS);
    var r := ChainRunOf(s.chain, env, cfg);
    DisjointByQualifier(r);
    UniqueRoutesOwn(r, map[env.selector := cfg], hasMCMS);
  }

  function RunsOf(w: World, envs: Envs, cfgs: Configs, order: seq<nat>): seq<ChainRun>
    requires Configured(w, envs, cfgs, order)
  {
    seq(|order|, i requires 0 <= i < |order| =>
      assert order[i] in order; ChainRunOf(w.chains[order[i]], envs[order[i]], cfgs[order[i]]))
  }

  /** The changeset that ends a series of interrupted ones. */
  function LastApply(w: World, envs: Envs, cfgs: Configs, order: seq<nat>, budgets: seq<nat>, last: nat)
    : (r: (World, Outcome<seq<Local>>))
    requires Configured(w, envs, cfgs, order)
    ensures r.0.chains.Keys == w.chains.Keys && (r.1.Done? ==> |r.1.value| == |order|)
  {
    Apply(AfterApplies(w, envs, cfgs, order, budgets).(budget := last), envs, cfgs, order)
  }

  lemma ChainAt(w: World, envs: Envs, cfgs: Configs, order: seq<nat>, hasMCMS: bool, budgets: seq<nat>, last: nat,
                i: nat)
    requires GoodStart(w, envs, cfgs, order, hasMCMS) && LastApply(w, envs, cfgs, order, budgets, last).1.Done?
      && i < |order|
    ensures
      var (w', o) := LastApply(w, envs, cfgs, order, budgets, last);
      && order[i] in w.chains
      && ChainDone(w.chains[order[i]], RunsOf(w, envs, cfgs, order)[i], w'.chains[order[i]], o.value[i])
  {
    var k := order[i];
    assert k in order;
    assert Resumable(At(w, k), envs[k], cfgs[k], hasMCMS);
    hide Run, Apply, ChainDone, AfterApplies;
    var b := SeriesOfApplies(w, envs, cfgs, order, i, budgets, last, hasMCMS);
    ChainOutcome(With(At(w, k), b), envs[k], cfgs[k], hasMCMS);
  }

  lemma {:induction false} OutputsAre(runs: seq<ChainRun>, outs: seq<Local>)
    requires |runs| == |outs| && AllRunsResolvable(runs)
    requires forall i :: 0 <= i < |runs| ==>
      outs[i].addresses == AddressesOf(runs[i]) && outs[i].batchOps == Ops(EmissionsOf(runs[i], runs[i].cfg.timelocks))
    ensures AddressesOut(outs) == AllAddresses(runs) && OpsOut(outs) == Ops(AllEmissions(runs))
  {
    hide AddressesOf, EmissionsOf, Ops, AllResolvable;
    if runs == [] {
      NoEmissions();
    } else {
      var n := |runs| - 1;
      OutputsAre(runs[..n], outs[..n]);
      OpsJoin(AllEmissions(runs[..n]), EmissionsOf(runs[n], runs[n].cfg.timelocks));
    }
  }

  lemma NoEmissions()
    ensures Ops([]) == []
  {}

  /** One run with all that routing asks for, and its outputs. */
  ghost predicate RunReady(r: ChainRun, cfgs: Configs, hasMCMS: bool, l: Local) {
    && AllResolvable(r.cfg.timelocks, RefsOf(r)) && Disjoint(r.cfg.timelocks, RefsOf(r)) && AllSupported(r.cfg.mcms)
    && l.addresses == AddressesOf(r) && l.batchOps == Ops(EmissionsOf(r, r.cfg.timelocks))
    && ValidRun(r, cfgs, hasMCMS) && RoutesOwn(r) && UniqueQualifiers(r.cfg.timelocks)
  }

  lemma RunReadyAt(w: World, envs: Envs, cfgs: Configs, order: seq<nat>, hasMCMS: bool, budgets: seq<nat>, last: nat,
                   i: nat)
    requires GoodStart(w, envs, cfgs, order, hasMCMS) && LastApply(w, envs, cfgs, order, budgets, last).1.Done?
      && i < |order|
    ensures RunReady(RunsOf(w, envs, cfgs, order)[i], cfgs, hasMCMS,
      LastApply(w, envs, cfgs, order, budgets, last).1.value[i])
  {
    hide LastApply, Resumable, AllResolvable, Disjoint, UniqueQualifiers, RoutesOwn, AllSupported, AllOwned,
      EmissionsOf, Ops, AddressesOf, RefsOf, AfterMcms;
    ChainAt(w, envs, cfgs, order, hasMCMS, budgets, last, i);
    assert order[i] in order;
    ResumableIsValid(At(w, order[i]), envs[order[i]], cfgs[order[i]], hasMCMS);
  }

  lemma RunsReady(w: World, envs: Envs, cfgs: Configs, order: seq<nat>, hasMCMS: bool, budgets: seq<nat>, last: nat)
    requires GoodStart(w, envs, cfgs, order, hasMCMS) && LastApply(w, envs, cfgs, order, budgets, last).1.Done?
    ensures
      var runs, outs := RunsOf(w, envs, cfgs, order), LastApply(w, envs, cfgs, order, budgets, last).1.value;
      && Completed(runs, cfgs, hasMCMS)
      && AddressesOut(outs) == AllAddresses(runs) && OpsOut(outs) == Ops(AllEmissions(runs))
  {
    hide LastApply, Resumable, AllResolvable, Disjoint, UniqueQualifiers, RoutesOwn, AllSupported, ValidRun,
      EmissionsOf, Ops, AddressesOf, RefsOf, AfterMcms,
      AddressesOut, OpsOut, AllAddresses, AllEmissions;
    var runs, outs := RunsOf(w, envs, cfgs, order), LastApply(w, envs, cfgs, order, budgets, last).1.value;
    forall i | 0 <= i < |runs|
      ensures RunReady(runs[i], cfgs, hasMCMS, outs[i])
    {
      RunReadyAt(w, envs, cfgs, order, hasMCMS, budgets, last, i);
    }
    OutputsAre(runs, outs);
  }

  lemma ResumableIsValid(s: St, env: Env, cfg: ChainConfig, hasMCMS: bool)
    requires Resumable(s, env, cfg, hasMCMS)
    ensures ValidChainConfig(cfg, hasMCMS)
  {}

  /** A completed changeset loses no batch: its proposals, none of them empty and in the
      order of the qualifiers, hold each exactly once. */
  lemma ChangesetConserves(w: World, envs: Envs, cfgs: Configs, order: seq<nat>, hasMCMS: bool, budgets: seq<nat>,
                           last: nat, qualifiers: seq<string>)
    requires GoodStart(w, envs, cfgs, order, hasMCMS) && LastApply(w, envs, cfgs, order, budgets, last).1.Done?
      && Orders(qualifiers, cfgs)
    ensures
      var outs := LastApply(w, envs, cfgs, order, budgets, last).1.value;
      var ps := Proposals(qualifiers, OpsOut(outs), AddressesOut(outs), cfgs);
      && multiset(AllProposed(ps)) == multiset(OpsOut(outs))
      && InOrder(ps, qualifiers) && forall p :: p in ps ==> p.ops != []
  {
    hide LastApply, Resumable, Completed, Orders, Proposals, AllProposed, Ops;
    var runs := RunsOf(w, envs, cfgs, order);
    RunsReady(w, envs, cfgs, order, hasMCMS, budgets, last);
    CompletedResolvable(runs, cfgs, hasMCMS);
    Conserved(runs, cfgs, hasMCMS, qualifiers);
  }

  /** Every contract that a timelock asked for is owned by it. */
  predicate AllHandedOver(own: Ownables, timelocks: seq<TimelockSpec>, refs: map<string, Address>) {
    forall tl, a :: tl in timelocks && a in Targets(tl, refs) ==>
      a in own && tl.ref in refs && own[a].owner == refs[tl.ref]
  }

  /** End to end: after any series of changesets, killed or failed anywhere,
      a completed one returns proposals whose calls, executed on a chain in any
      order, go through and leave every contract with the timelock that asked for it. */
  lemma EndToEnd(w: World, envs: Envs, cfgs: Configs, order: seq<nat>, hasMCMS: bool, budgets: seq<nat>, last: nat,
                 qualifiers: seq<string>, i: nat, calls: seq<AcceptCall>)
    requires GoodStart(w, envs, cfgs, order, hasMCMS) && LastApply(w, envs, cfgs, order, budgets, last).1.Done?
      && Orders(qualifiers, cfgs)
    requires i < |order|
    requires
      var outs := LastApply(w, envs, cfgs, order, budgets, last).1.value;
      multiset(calls) ==
        multiset(CallsOn(order[i], Proposals(qualifiers, OpsOut(outs), AddressesOut(outs), cfgs), AddressesOut(outs)))
    ensures
      order[i] in w.chains && order[i] in cfgs &&
      var (w', o) := LastApply(w, envs, cfgs, order, budgets, last);
      var done := ExecuteAccepts(w'.chains[order[i]].ownables, calls);
      done.Some? && AllHandedOver(done.value, cfgs[order[i]].timelocks, o.value[i].refToAddr)
  {
    assert order[i] in order;
    hide LastApply, Completed, Orders, Proposals, ExecuteAccepts, CallsOn, ChainDone, Resumable, Targets, Ops,
      AllAddresses, AllEmissions, AllRunsResolvable,
      AddressesOut, OpsOut, ValidChainConfig, AfterMcms, TimelockAddress, RoutesOwn, UniqueQualifiers, RefsOf;
    var runs := RunsOf(w, envs, cfgs, order);
    var r, k := runs[i], order[i];
    var (w', o) := LastApply(w, envs, cfgs, order, budgets, last);
    RunsReady(w, envs, cfgs, order, hasMCMS, budgets, last);
    CompletedResolvable(runs, cfgs, hasMCMS);
    ChainAt(w, envs, cfgs, order, hasMCMS, budgets, last, i);
    ResumableIsValid(At(w, k), envs[k], cfgs[k], hasMCMS);
    ExecuteNamed(runs, cfgs, hasMCMS, qualifiers, r, w.chains[k], w'.chains[k], o.value[i], calls);
  }

  /** The same in terms of the refs the run returned. */
  lemma ExecuteNamed(runs: seq<ChainRun>, cfgs: Configs, hasMCMS: bool, order: seq<string>, r: ChainRun, c: Chain,
                     c': Chain, l: Local, calls: seq<AcceptCall>)
    requires Completed(runs, cfgs, hasMCMS) && Orders(order, cfgs) && r in runs && ChainDone(c, r, c', l)
      && ValidChainConfig(r.cfg, hasMCMS)
    requires AllRunsResolvable(runs)
    requires multiset(calls) == multiset(CallsOn(r.env.selector, ProposalsOf(runs, cfgs, order), AllAddresses(runs)))
    ensures
      var done := ExecuteAccepts(c'.ownables, calls);
      done.Some? && AllHandedOver(done.value, r.cfg.timelocks, l.refToAddr)
  {
    hide Completed, Orders, ExecuteAccepts, CallsOn, ChainDone, Targets, AllAddresses, ProposalsOf, ValidChainConfig,
      TimelockAddress, RefsOf;
    ExecuteInAnyOrder(runs, cfgs, hasMCMS, order, r, c, c', l, calls);
    forall j | 0 <= j < |r.cfg.timelocks|
      ensures
        var tl := r.cfg.timelocks[j];
        tl.ref in l.refToAddr && l.refToAddr[tl.ref] == PlaceOf(r, j)
          && Targets(tl, l.refToAddr) == Targets(tl, RefsOf(r))
    {
      PlaceKnown(c, r, c', l, hasMCMS, j);
    }
    HandedByIndex(ExecuteAccepts(c'.ownables, calls).value, r, l.refToAddr);
  }

  lemma HandedByIndex(own: Ownables, r: ChainRun, refs: map<string, Address>)
    requires forall i, a :: 0 <= i < |r.cfg.timelocks| && a in Targets(r.cfg.timelocks[i], RefsOf(r)) ==>
      a in own && own[a].owner == PlaceOf(r, i)
    requires forall i :: 0 <= i < |r.cfg.timelocks| ==>
      var tl := r.cfg.timelocks[i];
      tl.ref in refs && refs[tl.ref] == PlaceOf(r, i) && Targets(tl, refs) == Targets(tl, RefsOf(r))
    ensures AllHandedOver(own, r.cfg.timelocks, refs)
  {
    hide Targets, RefsOf, TimelockAddress;
    forall tl, a | tl in r.cfg.timelocks && a in Targets(tl, refs)
      ensures a in own && tl.ref in refs && own[a].owner == refs[tl.ref]
    {
      var i :| 0 <= i < |r.cfg.timelocks| && r.cfg.timelocks[i] == tl;
      assert a in Targets(r.cfg.timelocks[i], RefsOf(r));
    }
  }

  lemma CompletedResolvable(runs: seq<ChainRun>, cfgs: Configs, hasMCMS: bool)
    requires Completed(runs, cfgs, hasMCMS)
    ensures AllRunsResolvable(runs)
  {}

  lemma PlaceKnown(c: Chain, r: ChainRun, c': Chain, l: Local, hasMCMS: bool, i: nat)
    requires ChainDone(c, r, c', l) && ValidChainConfig(r.cfg, hasMCMS) && i < |r.cfg.timelocks|
    ensures
      var tl := r.cfg.timelocks[i];
      tl.ref in l.refToAddr && l.refToAddr[tl.ref] == PlaceOf(r, i)
        && Targets(tl, l.refToAddr) == Targets(tl, RefsOf(r))
  {
    McmPlacesAre(r.first, r.cfg.mcms);
    MatrixSame(r.env, r.cfg.timelocks[i], RefsOf(r), l.refToAddr, McmRefs(r.cfg.mcms), hasMCMS, ZERO);
  }
}
