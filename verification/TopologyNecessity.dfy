/** The conditions under which a run's contracts end with the timelocks that name them
    are exact: where two timelocks name one contract, or a contract named by address is
    not the deployer's, no execution of accept calls hands everything over. */
module TopologyNecessity {
  import opened Wrappers
  import opened Evm
  import opened MapOrder
  import opened Ownership
  import opened Topology
  import opened TopologyRun
  import opened TopologyResume
  import opened TopologyOutcome
  import opened TopologyProgram
  import opened TopologyEffect
  import opened TopologyResult
  import opened TopologyRouting
  import opened TopologyConservation
  import opened TopologyEndToEnd

  /** The calls go through, and leave every contract with every timelock that names it. */
  predicate HandsOver(own: Ownables, calls: seq<AcceptCall>, cfg: ChainConfig, refs: map<string, Address>) {
    var after := ExecuteAccepts(own, calls);
    && after.Some?
    && forall tl, h :: tl in cfg.timelocks && h in tl.transferOwnership ==> Owns(after.value, refs, tl, h)
  }

  predicate Owns(own: Ownables, refs: map<string, Address>, tl: TimelockSpec, h: RoleHolder) {
    var a := ResolveHolder(h, refs);
    tl.ref in refs && a.Some? && a.value in own && own[a.value].owner == refs[tl.ref]
  }

  /** Owners are addresses in use, and contracts named by address are on the chain. */
  predicate Settled(c: Chain, cfg: ChainConfig) {
    && (forall a :: a in c.ownables ==>
          c.ownables[a].owner < c.next && (c.ownables[a].pending.Some? ==> c.ownables[a].pending.value < c.next))
    && (forall tl, h :: tl in cfg.timelocks && h in tl.transferOwnership && h.mcmRef == "" && h.address.Some? ==>
          h.address.value in c.ownables)
  }

  // ----- needed

  lemma StepLeaves(s: St, env: Env, l: Local, cmd: Cmd, a: Address)
    requires a in s.chain.ownables && a < s.chain.next && s.chain.ownables[a].owner != env.deployer
    ensures
      var c := Step(s, env, l, cmd).0.chain;
      a in c.ownables && a < c.next && c.ownables[a] == s.chain.ownables[a]
  {}

  /** A run leaves a contract of somebody else's alone. */
  lemma {:induction false} ForeignLeft(s: St, env: Env, l: Local, cmds: seq<Cmd>, a: Address)
    requires a in s.chain.ownables && a < s.chain.next && s.chain.ownables[a].owner != env.deployer
    ensures
      var c := Fold(s, env, l, cmds).0.chain;
      a in c.ownables && a < c.next && c.ownables[a] == s.chain.ownables[a]
  {
    hide Step;
    if cmds != [] {
      var n := |cmds| - 1;
      ForeignLeft(s, env, l, cmds[..n], a);
      var (s1, o1) := Fold(s, env, l, cmds[..n]);
      if o1.Done? {
        StepLeaves(s1, env, o1.value, cmds[n], a);
      }
    }
  }

  /** Accept calls only ever make the pending owner the owner. */
  lemma {:induction false} OwnerWasPending(own: Ownables, calls: seq<AcceptCall>, a: Address)
    requires ExecuteAccepts(own, calls).Some? && a in own
    ensures
      var after := ExecuteAccepts(own, calls).value;
      a in after && (after[a].owner == own[a].owner || own[a].pending == Some(after[a].owner))
  {
    if calls != [] {
      var call := calls[0];
      var own' := own[call.target := Accept(own[call.target], call.timelock).value];
      OwnerWasPending(own', calls[1..], a);
    }
  }

  /** A completed run's addresses: all new, one for each ref. */
  lemma RefsOfRun(s: St, env: Env, cfg: ChainConfig, hasMCMS: bool)
    requires CleanStart(s, env) && ValidChainConfig(cfg, hasMCMS) && Run(s, env, cfg).1.Done?
    ensures
      var refs := Run(s, env, cfg).1.value.refToAddr;
      && (forall ref :: ref in refs ==> refs[ref] >= s.chain.next)
      && (forall ref, ref' :: ref in refs && ref' in refs && refs[ref] == refs[ref'] ==> ref == ref')
  {
    var cmds := Program(env, cfg);
    ProgramShape(env, cfg, hasMCMS);
    StartInv(s, env);
    assert [] + cmds == cmds;
    hide Run, Program, ValidChainConfig, CleanStart, FreshRefs, Paired;
    FoldKeeps(s.chain.next, env, [], s, START, cmds);
    assert Run(s, env, cfg) == Fold(s, env, START, cmds) by {
      RunIsFold(s, env, cfg);
    }
    AssignKeys(s.chain.next, cmds);
    AssignInjective(s.chain.next, cmds);
  }

  lemma RunIsFold(s: St, env: Env, cfg: ChainConfig)
    ensures Run(s, env, cfg) == Fold(s, env, START, Program(env, cfg))
  {}

  lemma OwnersNeeded(s: St, env: Env, cfg: ChainConfig, hasMCMS: bool, calls: seq<AcceptCall>)
    requires CleanStart(s, env) && ValidChainConfig(cfg, hasMCMS) && Settled(s.chain, cfg) && Run(s, env, cfg).1.Done?
    requires HandsOver(Run(s, env, cfg).0.chain.ownables, calls, cfg, Run(s, env, cfg).1.value.refToAddr)
    ensures OutsideOwned(cfg, env, s.chain.ownables)
  {
    RefsOfRun(s, env, cfg, hasMCMS);
    RunIsFold(s, env, cfg);
    var (s', o) := Run(s, env, cfg);
    hide Run, Fold, Program, ValidChainConfig, ExecuteAccepts;
    forall tl, h | tl in cfg.timelocks && h in tl.transferOwnership && h.mcmRef == "" && h.address.Some?
      ensures h.address.value in s.chain.ownables && s.chain.ownables[h.address.value].owner == env.deployer
    {
      var a := h.address.value;
      assert ResolveHolder(h, o.value.refToAddr) == Some(a);
      if s.chain.ownables[a].owner != env.deployer {
        assert Owns(ExecuteAccepts(s'.chain.ownables, calls).value, o.value.refToAddr, tl, h);
        ForeignLeft(s, env, START, Program(env, cfg), a);
        OwnerWasPending(s'.chain.ownables, calls, a);
        assert false;
      }
    }
  }

  lemma ClaimsNeeded(s: St, env: Env, cfg: ChainConfig, hasMCMS: bool, own: Ownables, calls: seq<AcceptCall>)
    requires CleanStart(s, env) && ValidChainConfig(cfg, hasMCMS) && Run(s, env, cfg).1.Done?
    requires HandsOver(own, calls, cfg, Run(s, env, cfg).1.value.refToAddr)
    ensures ClaimedOnce(cfg)
  {
    RefsOfRun(s, env, cfg, hasMCMS);
    var refs := Run(s, env, cfg).1.value.refToAddr;
    hide Run, ValidChainConfig, ExecuteAccepts, ResolveHolder;
    forall tl, tl', h | tl in cfg.timelocks && tl' in cfg.timelocks && h in tl.transferOwnership
      && h in tl'.transferOwnership
      ensures tl.ref == tl'.ref
    {
      var after := ExecuteAccepts(own, calls).value;
      assert Owns(after, refs, tl, h) && Owns(after, refs, tl', h);
    }
  }

  // ----- enough

  /** The accepts of the contracts that are left pending. */
  ghost function AcceptsLeft(r: ChainRun): set<AcceptCall>
    requires forall tl :: tl in r.cfg.timelocks ==> Targets(tl, RefsOf(r)) <= r.own.Keys
  {
    set i, a | 0 <= i < |r.cfg.timelocks| && a in Targets(r.cfg.timelocks[i], RefsOf(r)) && r.own[a].twoStep ::
      AcceptCall(PlaceOf(r, i), a)
  }

  lemma LeftAwaits(c: Chain, r: ChainRun, c': Chain, l: Local)
    requires ChainDone(c, r, c', l)
    ensures forall call :: call in AcceptsLeft(r) ==> Awaits(c'.ownables, call)
  {
    hide RefsOf, Targets, AddressesOf, EmissionsOf, Ops, TimelockAddress, AllResolvable;
  }

  lemma LeftApart(r: ChainRun)
    requires forall tl :: tl in r.cfg.timelocks ==> Targets(tl, RefsOf(r)) <= r.own.Keys
    requires Disjoint(r.cfg.timelocks, RefsOf(r))
    ensures DistinctTargets(SomeOrder(AcceptsLeft(r)))
  {
    var calls := SomeOrder(AcceptsLeft(r));
    hide RefsOf, Targets, TimelockAddress;
    forall call, call' | call in AcceptsLeft(r) && call' in AcceptsLeft(r) && call.target == call'.target
      ensures call == call'
    {}
    hide AcceptsLeft;
    assert forall i :: 0 <= i < |calls| ==> calls[i] in calls;
  }

  lemma EnoughCalls(c: Chain, r: ChainRun, c': Chain, l: Local)
    requires ChainDone(c, r, c', l)
    ensures HandsOver(c'.ownables, SomeOrder(AcceptsLeft(r)), r.cfg, l.refToAddr)
  {
    var calls := SomeOrder(AcceptsLeft(r));
    LeftAwaits(c, r, c', l);
    LeftApart(r);
    AcceptsOutcome(c'.ownables, calls);
    hide ExecuteAccepts;
    forall tl, h | tl in r.cfg.timelocks && h in tl.transferOwnership
      ensures Owns(ExecuteAccepts(c'.ownables, calls).value, l.refToAddr, tl, h)
    {
      var i :| 0 <= i < |r.cfg.timelocks| && r.cfg.timelocks[i] == tl;
      TargetKept(c, r, c', l, calls, i, h);
    }
  }

  lemma TargetKept(c: Chain, r: ChainRun, c': Chain, l: Local, calls: seq<AcceptCall>, i: nat, h: RoleHolder)
    requires ChainDone(c, r, c', l) && Enumerates(calls, AcceptsLeft(r)) && i < |r.cfg.timelocks|
    requires h in r.cfg.timelocks[i].transferOwnership
    requires ExecuteAccepts(c'.ownables, calls).Some?
    requires
      var after := ExecuteAccepts(c'.ownables, calls).value;
      && after.Keys == c'.ownables.Keys
      && (forall call :: call in calls ==>
            call.target in after && after[call.target] == Ownable(call.timelock, None, true))
      && (forall a :: a in c'.ownables && (forall call :: call in calls ==> call.target != a) ==>
            after[a] == c'.ownables[a])
    ensures Owns(ExecuteAccepts(c'.ownables, calls).value, l.refToAddr, r.cfg.timelocks[i], h)
  {
    hide ExecuteAccepts, AddressesOf, EmissionsOf, Ops, TimelockAddress;
    var tl := r.cfg.timelocks[i];
    assert ResolveHolder(h, RefsOf(r)).Some?;
    var a := ResolveHolder(h, RefsOf(r)).value;
    assert ResolveHolder(h, l.refToAddr) == Some(a) && a in Targets(tl, RefsOf(r));
    hide RefsOf, Targets, ResolveHolder;
    if r.own[a].twoStep {
      assert AcceptCall(PlaceOf(r, i), a) in AcceptsLeft(r);
    }
  }

  /** A completed run from a clean start can be carried through, by whatever accept
      calls, exactly when no contract is named by two timelocks and every contract named
      by address is the deployer's. */
  lemma HandOverIff(s: St, env: Env, cfg: ChainConfig, hasMCMS: bool)
    requires CleanStart(s, env) && ValidChainConfig(cfg, hasMCMS) && Settled(s.chain, cfg) && Run(s, env, cfg).1.Done?
    ensures
      var (s', o) := Run(s, env, cfg);
      (exists calls :: HandsOver(s'.chain.ownables, calls, cfg, o.value.refToAddr)) <==>
        ClaimedOnce(cfg) && OutsideOwned(cfg, env, s.chain.ownables)
  {
    var (s', o) := Run(s, env, cfg);
    var own, refs := s'.chain.ownables, o.value.refToAddr;
    hide Run, HandsOver, ValidChainConfig, CleanStart, ClaimedOnce, OutsideOwned, Settled;
    if calls :| HandsOver(own, calls, cfg, refs) {
      OwnersNeeded(s, env, cfg, hasMCMS, calls);
      ClaimsNeeded(s, env, cfg, hasMCMS, own, calls);
    }
    if ClaimedOnce(cfg) && OutsideOwned(cfg, env, s.chain.ownables) {
      var r := ChainRunOf(s.chain, env, cfg);
      ChainOutcome(s, env, cfg, hasMCMS);
      EnoughCalls(s.chain, r, s'.chain, o.value);
    }
  }
}
