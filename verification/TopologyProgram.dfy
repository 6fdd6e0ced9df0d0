/** The command list of a validated configuration is well formed; hence every
    series of interrupted runs comes out as one run. */
module TopologyProgram {
  import opened Evm
  import opened Ownership
  import opened Topology
  import opened TopologyRun
  import opened TopologyResume
  import opened TopologyOutcome

  // ----- fresh refs

  predicate FreshAfter(p: seq<Cmd>, q: seq<Cmd>) {
    forall i :: 0 <= i < |q| ==> FreshCmd(q[i], p + q[..i])
  }

  lemma FreshJoin(p: seq<Cmd>, q: seq<Cmd>)
    requires FreshRefs(p) && FreshAfter(p, q)
    ensures FreshRefs(p + q)
  {
    forall i | 0 <= i < |p + q|
      ensures FreshCmd((p + q)[i], (p + q)[..i])
    {
      if i < |p| {
        assert (p + q)[..i] == p[..i] && FreshCmd(p[i], p[..i]);
      } else {
        assert (p + q)[..i] == p + q[..i - |p|] && FreshCmd(q[i - |p|], p + q[..i - |p|]);
      }
    }
  }

  lemma RefsJoin(p: seq<Cmd>, q: seq<Cmd>)
    ensures McmRefsIn(p + q) == McmRefsIn(p) + McmRefsIn(q)
    ensures TimelockRefsIn(p + q) == TimelockRefsIn(p) + TimelockRefsIn(q)
    ensures ProxyRefsIn(p + q) == ProxyRefsIn(p) + ProxyRefsIn(q)
  {}

  lemma {:induction false} McmCmdsFresh(mcms: seq<MCMSpec>)
    requires forall i, j :: 0 <= i < j < |mcms| ==> mcms[i].ref != mcms[j].ref
    ensures FreshRefs(McmCmds(mcms))
    ensures McmRefsIn(McmCmds(mcms)) == McmRefs(mcms)
    ensures TimelockRefsIn(McmCmds(mcms)) == {} && ProxyRefsIn(McmCmds(mcms)) == {}
  {
    if mcms != [] {
      var rest, m := mcms[..|mcms| - 1], mcms[|mcms| - 1];
      assert mcms == rest + [m];
      McmCmdsFresh(rest);
      assert m.ref !in McmRefs(rest) && McmRefs(mcms) == McmRefs(rest) + {m.ref};
      hide FreshRefs, McmRefsIn, TimelockRefsIn, ProxyRefsIn;
      OneMcmFresh(McmCmds(rest), m);
    }
  }

  lemma OneMcmFresh(p: seq<Cmd>, m: MCMSpec)
    requires FreshRefs(p) && m.ref !in McmRefsIn(p) + TimelockRefsIn(p)
    ensures
      var q := p + [DeployMcmCmd(m), SetConfigCmd(m)];
      && FreshRefs(q) && McmRefsIn(q) == McmRefsIn(p) + {m.ref}
      && TimelockRefsIn(q) == TimelockRefsIn(p) && ProxyRefsIn(q) == ProxyRefsIn(p)
  {
    var q := [DeployMcmCmd(m), SetConfigCmd(m)];
    assert q[..0] == [] && p + [] == p;
    FreshJoin(p, q);
    RefsJoin(p, q);
    assert McmRefsIn(q) == {m.ref};
  }

  /** Commands that create nothing. */
  predicate NoDeploy(cmds: seq<Cmd>) {
    forall c :: c in cmds ==> !Deploys(c)
  }

  lemma {:induction false} PairsNoDeploy(tl: TimelockSpec, holders: seq<RoleHolder>)
    ensures NoDeploy(TransferPairs(tl, holders)) && Paired(TransferPairs(tl, holders))
    ensures forall c :: c in TransferPairs(tl, holders) ==> Owning(c) && c.tl == tl && c.holder in holders
  {
    if holders != [] {
      var rest, h := holders[..|holders| - 1], holders[|holders| - 1];
      assert holders == rest + [h];
      PairsNoDeploy(tl, rest);
      PairedJoin(TransferPairs(tl, rest), [TransferCmd(tl, h), AcceptCmd(tl, h)]);
    }
  }

  lemma PairedJoin(p: seq<Cmd>, q: seq<Cmd>)
    requires Paired(p) && Paired(q)
    ensures Paired(p + q)
  {
    forall i | 0 <= i < |p + q| && (p + q)[i].AcceptCmd?
      ensures i > 0 && (p + q)[i - 1] == TransferCmd((p + q)[i].tl, (p + q)[i].holder)
    {
      if i < |p| {
        assert p[i].AcceptCmd?;
      } else {
        assert q[i - |p|].AcceptCmd?;
      }
    }
  }

  /** What follows the two creations of a timelock. */
  function WiringCmds(env: Env, tl: TimelockSpec): seq<Cmd> {
    RoleCmds(env, tl) + TransferCmds(tl)
  }

  lemma WiringShape(env: Env, tl: TimelockSpec)
    ensures NoDeploy(WiringCmds(env, tl)) && Paired(WiringCmds(env, tl))
    ensures forall c :: c in WiringCmds(env, tl) ==>
      GoodCmd(c) && (Owning(c) ==> c.tl == tl && c.holder in tl.transferOwnership)
    ensures TimelockCmds(env, tl) == CreateCmds(env, tl) + WiringCmds(env, tl)
  {
    RolesShape(env, tl);
    TransfersShape(tl);
    hide RoleCmds, TransferCmds, CreateCmds;
    PairedJoin(RoleCmds(env, tl), TransferCmds(tl));
    assert CreateCmds(env, tl) + RoleCmds(env, tl) + TransferCmds(tl) == CreateCmds(env, tl) + WiringCmds(env, tl);
  }

  lemma RolesShape(env: Env, tl: TimelockSpec)
    ensures NoDeploy(RoleCmds(env, tl)) && Paired(RoleCmds(env, tl))
    ensures forall c :: c in RoleCmds(env, tl) ==> GoodCmd(c) && !Owning(c)
  {}

  lemma TransfersShape(tl: TimelockSpec)
    ensures NoDeploy(TransferCmds(tl)) && Paired(TransferCmds(tl))
    ensures forall c :: c in TransferCmds(tl) ==>
      GoodCmd(c) && (Owning(c) ==> c.tl == tl && c.holder in tl.transferOwnership)
  {
    PairsNoDeploy(tl, tl.transferOwnership);
    var pairs := TransferPairs(tl, tl.transferOwnership);
    PairedJoin([CheckTransfersCmd(tl)], pairs);
    PairedJoin([CheckTransfersCmd(tl)] + pairs, [CloseCmd(tl)]);
  }

  lemma TimelockCmdsFresh(env: Env, tl: TimelockSpec, p: seq<Cmd>)
    requires tl.ref !in McmRefsIn(p) + TimelockRefsIn(p) && tl.ref !in ProxyRefsIn(p)
    ensures FreshAfter(p, TimelockCmds(env, tl))
    ensures McmRefsIn(TimelockCmds(env, tl)) == {} && TimelockRefsIn(TimelockCmds(env, tl)) == {tl.ref}
    ensures ProxyRefsIn(TimelockCmds(env, tl)) <= {tl.ref}
    ensures Paired(TimelockCmds(env, tl))
    ensures forall c :: c in TimelockCmds(env, tl) ==>
      GoodCmd(c) && (Owning(c) ==> c.tl == tl && c.holder in tl.transferOwnership)
  {
    hide WiringCmds, TimelockCmds, FreshAfter, Paired, GoodCmd;
    WiringShape(env, tl);
    var create, wiring := CreateCmds(env, tl), WiringCmds(env, tl);
    CreateShape(env, tl);
    PairedJoin(create, wiring);
    WiringFresh(p, create, wiring, env, tl);
    RefsJoin(create, wiring);
    NoRefs(wiring);
  }

  lemma NoRefs(cmds: seq<Cmd>)
    requires NoDeploy(cmds)
    ensures McmRefsIn(cmds) == {} && TimelockRefsIn(cmds) == {} && ProxyRefsIn(cmds) == {}
  {}

  lemma CreateShape(env: Env, tl: TimelockSpec)
    ensures
      var create := CreateCmds(env, tl);
      && Paired(create) && (forall c :: c in create ==> GoodCmd(c) && !Owning(c))
      && McmRefsIn(create) == {} && TimelockRefsIn(create) == {tl.ref} && ProxyRefsIn(create) <= {tl.ref}
  {
    var create, x := CreateCmds(env, tl), DeployTimelockCmd(tl);
    assert create == [x] + create[1..];
    assert x in create;
  }

  lemma WiringFresh(p: seq<Cmd>, create: seq<Cmd>, wiring: seq<Cmd>, env: Env, tl: TimelockSpec)
    requires tl.ref !in McmRefsIn(p) + TimelockRefsIn(p) && tl.ref !in ProxyRefsIn(p)
    requires create == CreateCmds(env, tl) && NoDeploy(wiring)
    ensures FreshAfter(p, create + wiring)
  {
    var q := create + wiring;
    forall i | 0 <= i < |q|
      ensures FreshCmd(q[i], p + q[..i])
    {
      if i == 0 {
        assert p + q[..0] == p;
      } else if i < |create| {
        assert i == 1 && q[..i] == [DeployTimelockCmd(tl)] && q[i] == DeployProxyCmd(tl);
        RefsJoin(p, [DeployTimelockCmd(tl)]);
      } else {
        assert q[i] == wiring[i - |create|] && q[i] in wiring;
      }
    }
  }

  lemma {:induction false} AllTimelockCmdsFresh(env: Env, p: seq<Cmd>, timelocks: seq<TimelockSpec>)
    requires forall i, j :: 0 <= i < j < |timelocks| ==> timelocks[i].ref != timelocks[j].ref
    requires forall t :: t in timelocks ==> t.ref !in McmRefsIn(p)
    requires TimelockRefsIn(p) == {} && ProxyRefsIn(p) == {} && FreshRefs(p)
    ensures
      var q := AllTimelockCmds(env, timelocks);
      && FreshRefs(p + q)
      && McmRefsIn(q) == {} && TimelockRefsIn(q) == TimelockRefs(timelocks) && ProxyRefsIn(q) <= TimelockRefs(timelocks)
      && Paired(q)
      && forall c :: c in q ==> GoodCmd(c) && (Owning(c) ==> c.tl in timelocks && c.holder in c.tl.transferOwnership)
  {
    hide TimelockCmds, FreshRefs, Paired;
    if timelocks == [] {
      assert p + [] == p;
      NonePaired();
    } else {
      var rest, tl := timelocks[..|timelocks| - 1], timelocks[|timelocks| - 1];
      assert timelocks == rest + [tl];
      AllTimelockCmdsFresh(env, p, rest);
      assert tl.ref !in TimelockRefs(rest);
      var q, last := AllTimelockCmds(env, rest), TimelockCmds(env, tl);
      OneMoreTimelock(env, p, q, rest, tl);
      assert AllTimelockCmds(env, timelocks) == q + last;
      assert TimelockRefs(timelocks) == TimelockRefs(rest) + {tl.ref};
    }
  }

  lemma NonePaired()
    ensures Paired([])
  {}

  lemma OneMoreTimelock(env: Env, p: seq<Cmd>, q: seq<Cmd>, rest: seq<TimelockSpec>, tl: TimelockSpec)
    requires FreshRefs(p + q) && Paired(q)
    requires TimelockRefsIn(p) == {} && ProxyRefsIn(p) == {} && tl.ref !in McmRefsIn(p) && tl.ref !in TimelockRefs(rest)
    requires McmRefsIn(q) == {} && TimelockRefsIn(q) == TimelockRefs(rest) && ProxyRefsIn(q) <= TimelockRefs(rest)
    ensures
      var q' := q + TimelockCmds(env, tl);
      && FreshRefs(p + q') && Paired(q')
      && McmRefsIn(q') == {} && TimelockRefsIn(q') == TimelockRefs(rest) + {tl.ref}
         && ProxyRefsIn(q') <= TimelockRefs(rest) + {tl.ref}
      && forall c :: c in q' ==>
           c in q || (GoodCmd(c) && (Owning(c) ==> c.tl == tl && c.holder in tl.transferOwnership))
  {
    hide TimelockCmds, McmRefsIn, TimelockRefsIn, ProxyRefsIn, FreshRefs, Paired, FreshAfter;
    var last := TimelockCmds(env, tl);
    RefsJoin(p, q);
    TimelockCmdsFresh(env, tl, p + q);
    FreshJoin(p + q, last);
    RefsJoin(q, last);
    PairedJoin(q, last);
    assert p + (q + last) == (p + q) + last;
  }

  /** Everything the resumption and outcome proofs need of a validated configuration. */
  lemma ProgramShape(env: Env, cfg: ChainConfig, hasMCMS: bool)
    requires ValidChainConfig(cfg, hasMCMS)
    ensures
      var cmds := Program(env, cfg);
      && FreshRefs(cmds) && Paired(cmds)
      && McmRefsIn(cmds) == McmRefs(cfg.mcms) && TimelockRefsIn(cmds) == TimelockRefs(cfg.timelocks)
      && forall c :: c in cmds ==>
           GoodCmd(c) && (Owning(c) ==> c.tl in cfg.timelocks && c.holder in c.tl.transferOwnership)
  {
    McmCmdsFresh(cfg.mcms);
    var p := McmCmds(cfg.mcms);
    forall t | t in cfg.timelocks
      ensures t.ref !in McmRefsIn(p)
    {
      assert ValidTimelock(t, McmRefs(cfg.mcms), hasMCMS);
    }
    AllTimelockCmdsFresh(env, p, cfg.timelocks);
    var q := AllTimelockCmds(env, cfg.timelocks);
    RefsJoin(p, q);
    McmCmdsPlain(cfg.mcms);
    PairedJoin(p, q);
  }

  lemma {:induction false} McmCmdsPlain(mcms: seq<MCMSpec>)
    ensures Paired(McmCmds(mcms))
    ensures forall c :: c in McmCmds(mcms) ==> c.DeployMcmCmd? || c.SetConfigCmd?
  {
    if mcms != [] {
      McmCmdsPlain(mcms[..|mcms| - 1]);
    }
  }

  // ----- claims

  /** No target is named by two timelocks: neither an MCM ref nor an address. */
  predicate ClaimedOnce(cfg: ChainConfig) {
    forall tl, tl', h, h' ::
      tl in cfg.timelocks && tl' in cfg.timelocks && tl.ref != tl'.ref && h in tl.transferOwnership
        && h' in tl'.transferOwnership ==>
      h != h'
  }

  /** Targets named by address are on the chain, owned by the deployer. */
  predicate OutsideOwned(cfg: ChainConfig, env: Env, ownables: Ownables) {
    forall tl, h :: tl in cfg.timelocks && h in tl.transferOwnership && h.mcmRef == "" && h.address.Some? ==>
      h.address.value in ownables && ownables[h.address.value].owner == env.deployer
  }

  lemma {:induction false} AssignInjective(first: Address, cmds: seq<Cmd>)
    requires FreshRefs(cmds)
    ensures
      var all := Assign(first, cmds);
      forall r, r' :: r in all && r' in all && all[r] == all[r'] ==> r == r'
  {
    if cmds != [] {
      var rest, last := cmds[..|cmds| - 1], cmds[|cmds| - 1];
      assert cmds == rest + [last];
      assert forall i :: 0 <= i < |rest| ==> rest[..i] == cmds[..i];
      AssignInjective(first, rest);
      AssignKeys(first, rest);
      AssignOneMore(first, rest, last);
      assert FreshCmd(cmds[|cmds| - 1], cmds[..|cmds| - 1]);
    }
  }

  lemma ClaimsClashFree(s: St, env: Env, cfg: ChainConfig, hasMCMS: bool)
    requires CleanStart(s, env) && ValidChainConfig(cfg, hasMCMS) && ClaimedOnce(cfg)
      && OutsideOwned(cfg, env, s.chain.ownables)
    ensures NoClash(Program(env, cfg), Assign(s.chain.next, Program(env, cfg)))
  {
    var cmds := Program(env, cfg);
    var all := Assign(s.chain.next, cmds);
    ProgramShape(env, cfg, hasMCMS);
    AssignKeys(s.chain.next, cmds);
    AssignInjective(s.chain.next, cmds);
    forall x, y | x in cmds && y in cmds
      ensures ClashFree(x, y, all)
    {
      if Owning(x) && Owning(y) && x.tl.ref != y.tl.ref {
        assert ValidTimelock(x.tl, McmRefs(cfg.mcms), hasMCMS) && ValidTimelock(y.tl, McmRefs(cfg.mcms), hasMCMS);
        assert ValidHolder(x.holder, McmRefs(cfg.mcms)) && ValidHolder(y.holder, McmRefs(cfg.mcms));
      }
    }
  }

  lemma RunsAlong(s: St, env: Env, cfg: ChainConfig, hasMCMS: bool)
    requires CleanStart(s, env) && ValidChainConfig(cfg, hasMCMS)
    ensures Along(s, env, START, Program(env, cfg), Assign(s.chain.next, Program(env, cfg)))
  {
    var cmds, first := Program(env, cfg), s.chain.next;
    ProgramShape(env, cfg, hasMCMS);
    StartInv(s, env);
    hide Program, ValidChainConfig, CleanStart, Fold, Inv, Assign, Sub;
    forall i | 0 <= i <= |cmds| && Fold(s, env, START, cmds[..i]).1.Done?
      ensures Sub(Fold(s, env, START, cmds[..i]).1.value.refToAddr, Assign(first, cmds))
    {
      PrefixAlong(first, s, env, cmds, i);
    }
  }

  lemma PrefixAlong(first: Address, s: St, env: Env, cmds: seq<Cmd>, i: nat)
    requires i <= |cmds| && FreshRefs(cmds) && (forall c :: c in cmds ==> GoodCmd(c))
    requires Inv(first, env, [], s, START) && Fold(s, env, START, cmds[..i]).1.Done?
    ensures Sub(Fold(s, env, START, cmds[..i]).1.value.refToAddr, Assign(first, cmds))
  {
    var before: seq<Cmd> := [];
    assert before + cmds[..i] == cmds[..i];
    assert forall j :: 0 <= j < i ==> cmds[..i][..j] == cmds[..j];
    assert FreshRefs(cmds[..i]);
    AssignGrows(first, cmds, i);
    hide Fold, FreshRefs, Sub, Assign;
    FoldKeeps(first, env, before, s, START, cmds[..i]);
  }

  lemma StartInv(s: St, env: Env)
    requires CleanStart(s, env)
    ensures Inv(s.chain.next, env, [], s, START)
  {}

  // ----- series of runs

  function Sum(budgets: seq<nat>): nat {
    if budgets == [] then 0 else Sum(budgets[..|budgets| - 1]) + budgets[|budgets| - 1]
  }

  /** The chain and reports after a series of runs, each with its budget. */
  function After(s: St, env: Env, cfg: ChainConfig, budgets: seq<nat>): St {
    if budgets == [] then s
    else Run(With(After(s, env, cfg, budgets[..|budgets| - 1]), budgets[|budgets| - 1]), env, cfg).0
  }

  predicate Resumable(s: St, env: Env, cfg: ChainConfig, hasMCMS: bool) {
    CleanStart(s, env) && ValidChainConfig(cfg, hasMCMS) && ClaimedOnce(cfg) && OutsideOwned(cfg, env, s.chain.ownables)
  }

  /** Resumption is transparent: after any series of runs over one report store,
      killed at any operation, failed or even completed, the next run returns what
      one uninterrupted run with all their budgets returns, and leaves the same
      chain and the same reports. */
  lemma {:induction false} SeriesIsOneRun(s: St, env: Env, cfg: ChainConfig, hasMCMS: bool, budgets: seq<nat>,
                                          last: nat)
    requires Resumable(s, env, cfg, hasMCMS)
    ensures SameUpToBudget(Run(With(After(s, env, cfg, budgets), last), env, cfg),
      Run(With(s, Sum(budgets) + last), env, cfg))
  {
    hide Run, Fold, Step, ValidChainConfig, ClaimedOnce, OutsideOwned;
    if budgets == [] {
      assert With(After(s, env, cfg, budgets), last) == With(s, Sum(budgets) + last);
    } else {
      var rest, k := budgets[..|budgets| - 1], budgets[|budgets| - 1];
      SeriesIsOneRun(s, env, cfg, hasMCMS, rest, k);
      RunOnceMore(With(s, Sum(rest) + k), env, cfg, hasMCMS, last);
      var s1, s2 := Run(With(s, Sum(rest) + k), env, cfg).0, After(s, env, cfg, budgets);
      assert With(s1, last) == With(With(s1, 0), last) && With(s2, last) == With(With(s2, 0), last);
      assert With(With(s, Sum(rest) + k), Sum(rest) + k + last) == With(s, Sum(budgets) + last);
    }
  }

  lemma RunOnceMore(s: St, env: Env, cfg: ChainConfig, hasMCMS: bool, more: nat)
    requires Resumable(s, env, cfg, hasMCMS)
    ensures SameUpToBudget(Run(With(Run(s, env, cfg).0, more), env, cfg), Run(With(s, s.budget + more), env, cfg))
  {
    RunsAlong(s, env, cfg, hasMCMS);
    ClaimsClashFree(s, env, cfg, hasMCMS);
    ProgramShape(env, cfg, hasMCMS);
    RunAgain(s, env, START, Program(env, cfg), Assign(s.chain.next, Program(env, cfg)), more);
  }

  /** A completed run repeated over its reports returns the same outputs and leaves
      everything as it is: answering from the sequence's own report instead makes no
      difference. */
  lemma CompletedRunReplays(s: St, env: Env, cfg: ChainConfig, hasMCMS: bool, budget: nat)
    requires Resumable(s, env, cfg, hasMCMS) && Run(s, env, cfg).1.Done?
    ensures
      var (s', o) := Run(s, env, cfg);
      Run(With(s', budget), env, cfg) == (With(s', budget), o)
  {
    hide Fold, ValidChainConfig, ClaimedOnce, OutsideOwned, Assign, AllFirm;
    var cmds, all := Program(env, cfg), Assign(s.chain.next, Program(env, cfg));
    RunsAlong(s, env, cfg, hasMCMS);
    ClaimsClashFree(s, env, cfg, hasMCMS);
    ProgramShape(env, cfg, hasMCMS);
    FoldSettles(s, env, START, cmds, all);
    AllFirmFolds(Run(s, env, cfg).0, env, START, cmds, all, budget);
  }
}
