/** When a custom topology run succeeds: validation leaves only two reasons to
    fail, and both can be read off the configuration and the starting chain. */
module TopologyProgress {
  import opened Wrappers
  import opened Evm
  import opened Ownership
  import opened Topology
  import opened TopologyRun
  import opened TopologyResume
  import opened TopologyOutcome
  import opened TopologyProgram

  predicate McmsOnly(cmds: seq<Cmd>) {
    forall c :: c in cmds ==> c.DeployMcmCmd? || c.SetConfigCmd?
  }

  /** What has been deployed is on the chain, and still the deployer's as long as
      only MCMs are dealt with. */
  predicate Built(own: Ownables, first: Address, env: Env, cmds: seq<Cmd>, c: Chain) {
    var refs := Assign(first, cmds);
    && own.Keys <= c.ownables.Keys
    && (forall r :: r in McmRefsIn(cmds) && r in refs ==>
          refs[r] in c.ownables && refs[r] in c.configs
            && (McmsOnly(cmds) ==> c.ownables[refs[r]].owner == env.deployer))
    && (forall r :: r in TimelockRefsIn(cmds) && r in refs ==> refs[r] in c.tables)
  }

  /** A command has what it needs: earlier commands have assigned the refs it reads. */
  predicate Prepared(cmd: Cmd, before: seq<Cmd>, cfg: ChainConfig) {
    var declared := McmRefs(cfg.mcms);
    match cmd
    case DeployMcmCmd(m) => m in cfg.mcms && McmsOnly(before)
    case SetConfigCmd(m) => m.ref in McmRefsIn(before) && McmsOnly(before)
    case DeployTimelockCmd(tl) => declared <= McmRefsIn(before) && tl in cfg.timelocks
    case DeployProxyCmd(tl) => tl.ref in TimelockRefsIn(before)
    case GrantCmd(tl, role, who) =>
      && tl.ref in TimelockRefsIn(before) && declared <= McmRefsIn(before)
         && (who.Holder? ==> ValidHolder(who.h, declared))
    case CheckTransfersCmd(tl) => declared <= McmRefsIn(before) && tl in cfg.timelocks
    case TransferCmd(tl, h) =>
      tl.ref in TimelockRefsIn(before) && declared <= McmRefsIn(before) && tl in cfg.timelocks
        && h in tl.transferOwnership
    case AcceptCmd(tl, h) =>
      tl.ref in TimelockRefsIn(before) && declared <= McmRefsIn(before) && tl in cfg.timelocks
        && h in tl.transferOwnership
    case CloseCmd(_) => true
  }

  predicate PreparedAfter(p: seq<Cmd>, q: seq<Cmd>, cfg: ChainConfig) {
    forall i :: 0 <= i < |q| ==> Prepared(q[i], p + q[..i], cfg)
  }

  predicate UnsupportedMcm(cfg: ChainConfig) {
    exists m :: m in cfg.mcms && !SupportedType(m.contractType)
  }

  /** A transfer target named by address that is not on the chain. */
  predicate MissingTarget(cfg: ChainConfig, own: Ownables) {
    exists tl, h ::
      tl in cfg.timelocks && h in tl.transferOwnership && h.mcmRef == "" && h.address.Some? && h.address.value !in own
  }

  /** Contracts stay, and keep their owner unless a transfer moves them. */
  predicate Extends(c: Chain, c': Chain, transfer: bool) {
    && c.ownables.Keys <= c'.ownables.Keys && c.configs.Keys <= c'.configs.Keys && c.tables.Keys <= c'.tables.Keys
    && (!transfer ==> forall a :: a in c.ownables ==> c'.ownables[a].owner == c.ownables[a].owner)
  }

  lemma PerformExtends(c: Chain, deployer: Address, k: Key, c': Chain, out: Address)
    requires ValidChain(c) && Perform(c, deployer, k) == Some((c', out))
    ensures Extends(c, c', k.TransferKey?)
    ensures k.McmKey? ==> out in c'.ownables && out in c'.configs && c'.ownables[out].owner == deployer
    ensures k.TimelockKey? ==> out in c'.tables
  {}

  lemma StepExtends(first: Address, env: Env, cmds: seq<Cmd>, s: St, l: Local, cmd: Cmd)
    requires Inv(first, env, cmds, s, l) && FreshCmd(cmd, cmds) && GoodCmd(cmd)
    requires Step(s, env, l, cmd).1.Done?
    ensures
      var c, c', a := s.chain, Step(s, env, l, cmd).0.chain, s.chain.next;
      && Extends(c, c', cmd.TransferCmd?)
      && (cmd.DeployMcmCmd? ==> a in c'.ownables && a in c'.configs && c'.ownables[a].owner == env.deployer)
      && (cmd.DeployTimelockCmd? ==> a in c'.tables)
  {
    if Decide(s.chain, env, l, cmd).Do? {
      KeyFacts(first, env, cmds, s, l, cmd);
      var k := Decide(s.chain, env, l, cmd).key;
      if k !in s.reports {
        var (chain, out) := Perform(s.chain, env.deployer, k).value;
        PerformExtends(s.chain, env.deployer, k, chain, out);
      }
    }
  }

  lemma BuiltStep(own: Ownables, first: Address, env: Env, cmds: seq<Cmd>, s: St, l: Local, cmd: Cmd)
    requires Inv(first, env, cmds, s, l) && FreshCmd(cmd, cmds) && GoodCmd(cmd) && Built(own, first, env, cmds, s.chain)
    requires Step(s, env, l, cmd).1.Done?
    ensures Built(own, first, env, cmds + [cmd], Step(s, env, l, cmd).0.chain)
  {
    hide Inv, Built, Extends, FreshCmd, GoodCmd, Step, McmsOnly;
    var c' := Step(s, env, l, cmd).0.chain;
    NextIs(first, env, cmds, s, l);
    StepExtends(first, env, cmds, s, l, cmd);
    McmsOnlyOneMore(cmds, cmd);
    BuiltOnExtension(own, first, env, cmds, s.chain, c', cmd);
  }

  lemma BuiltOnExtension(own: Ownables, first: Address, env: Env, cmds: seq<Cmd>, c: Chain, c': Chain, cmd: Cmd)
    requires Built(own, first, env, cmds, c) && Extends(c, c', cmd.TransferCmd?) && FreshCmd(cmd, cmds)
    requires McmsOnly(cmds + [cmd]) ==> McmsOnly(cmds) && !cmd.TransferCmd?
    requires
      var a := first + Created(cmds);
      && (cmd.DeployMcmCmd? ==> a in c'.ownables && a in c'.configs && c'.ownables[a].owner == env.deployer)
      && (cmd.DeployTimelockCmd? ==> a in c'.tables)
    ensures Built(own, first, env, cmds + [cmd], c')
  {
    hide McmRefsIn, TimelockRefsIn, McmsOnly, Assign, Created;
    RefsInOneMore(cmds, cmd);
    AssignOneMore(first, cmds, cmd);
  }

  lemma NextIs(first: Address, env: Env, cmds: seq<Cmd>, s: St, l: Local)
    requires Inv(first, env, cmds, s, l)
    ensures s.chain.next == first + Created(cmds)
  {}

  lemma McmsOnlyOneMore(cmds: seq<Cmd>, cmd: Cmd)
    ensures McmsOnly(cmds + [cmd]) <==> McmsOnly(cmds) && (cmd.DeployMcmCmd? || cmd.SetConfigCmd?)
  {
    assert cmd in cmds + [cmd] && forall c :: c in cmds ==> c in cmds + [cmd];
  }

  /** A prepared command fails only for an unsupported type or a missing target. */
  lemma StepFails(own: Ownables, first: Address, env: Env, cfg: ChainConfig, hasMCMS: bool, cmds: seq<Cmd>, s: St,
                  l: Local, cmd: Cmd)
    requires ValidChainConfig(cfg, hasMCMS) && Inv(first, env, cmds, s, l) && Built(own, first, env, cmds, s.chain)
    requires Prepared(cmd, cmds, cfg) && GoodCmd(cmd)
    ensures
      var o := Step(s, env, l, cmd).1;
      && (o.Failed? ==>
            (o.error == UnsupportedContractType && UnsupportedMcm(cfg))
              || (o.error == Unreadable && MissingTarget(cfg, own)))
      && (cmd.DeployMcmCmd? && o.Done? ==> SupportedType(cmd.mcm.contractType))
  {
    hide Step, ValidChainConfig, Inv, Built, Prepared, UnsupportedMcm, MissingTarget, SupportedType;
    if cmd.TransferCmd? || cmd.AcceptCmd? {
      OwningFails(own, first, env, cfg, hasMCMS, cmds, s, l, cmd);
    } else if cmd.DeployMcmCmd? || cmd.SetConfigCmd? {
      McmFails(own, first, env, cfg, cmds, s, l, cmd);
    } else {
      TimelockFails(own, first, env, cfg, hasMCMS, cmds, s, l, cmd);
    }
  }

  lemma McmFails(own: Ownables, first: Address, env: Env, cfg: ChainConfig, cmds: seq<Cmd>, s: St, l: Local, cmd: Cmd)
    requires Inv(first, env, cmds, s, l) && Built(own, first, env, cmds, s.chain)
    requires Prepared(cmd, cmds, cfg) && (cmd.DeployMcmCmd? || cmd.SetConfigCmd?)
    ensures
      var o := Step(s, env, l, cmd).1;
      && (o.Failed? ==> o.error == UnsupportedContractType && UnsupportedMcm(cfg))
      && (cmd.DeployMcmCmd? && o.Done? ==> SupportedType(cmd.mcm.contractType))
  {
    AssignKeys(first, cmds);
  }

  lemma TimelockFails(own: Ownables, first: Address, env: Env, cfg: ChainConfig, hasMCMS: bool, cmds: seq<Cmd>, s: St,
                      l: Local, cmd: Cmd)
    requires ValidChainConfig(cfg, hasMCMS) && Inv(first, env, cmds, s, l) && Built(own, first, env, cmds, s.chain)
    requires Prepared(cmd, cmds, cfg) && !Owning(cmd) && !cmd.DeployMcmCmd? && !cmd.SetConfigCmd?
    ensures !Step(s, env, l, cmd).1.Failed?
  {
    AssignKeys(first, cmds);
    hide ValidChainConfig, RolesResolvable, Resolvable;
    match cmd {
      case DeployTimelockCmd(tl) => ValidResolves(cfg, hasMCMS, tl, l.refToAddr);
      case CheckTransfersCmd(tl) => ValidResolves(cfg, hasMCMS, tl, l.refToAddr);
      case _ =>
    }
  }

  lemma OwningFails(own: Ownables, first: Address, env: Env, cfg: ChainConfig, hasMCMS: bool, cmds: seq<Cmd>, s: St,
                    l: Local, cmd: Cmd)
    requires ValidChainConfig(cfg, hasMCMS) && Inv(first, env, cmds, s, l) && Built(own, first, env, cmds, s.chain)
    requires Prepared(cmd, cmds, cfg) && Owning(cmd)
    ensures
      var o := Step(s, env, l, cmd).1;
      o.Failed? ==> o.error == Unreadable && MissingTarget(cfg, own)
  {
    AssignKeys(first, cmds);
    hide ValidChainConfig, MissingTarget;
    TargetReadable(own, first, env, cfg, hasMCMS, cmds, s, l, cmd.tl, cmd.holder);
  }

  lemma ValidResolves(cfg: ChainConfig, hasMCMS: bool, tl: TimelockSpec, refs: map<string, Address>)
    requires ValidChainConfig(cfg, hasMCMS) && tl in cfg.timelocks && McmRefs(cfg.mcms) <= refs.Keys
    ensures RolesResolvable(tl.roles, refs) && Resolvable(tl.transferOwnership, refs)
  {
    var declared := McmRefs(cfg.mcms);
    assert ValidTimelock(tl, declared, hasMCMS);
    ResolutionStable(tl.transferOwnership, declared, refs, refs);
    ResolutionStable(tl.roles.proposers, declared, refs, refs);
    ResolutionStable(tl.roles.cancellers, declared, refs, refs);
    ResolutionStable(tl.roles.bypassers, declared, refs, refs);
    ResolutionStable(tl.roles.executors, declared, refs, refs);
    ResolutionStable(tl.roles.admins, declared, refs, refs);
  }

  lemma TargetReadable(own: Ownables, first: Address, env: Env, cfg: ChainConfig, hasMCMS: bool, cmds: seq<Cmd>, s: St,
                       l: Local, tl: TimelockSpec, h: RoleHolder)
    requires ValidChainConfig(cfg, hasMCMS) && Inv(first, env, cmds, s, l) && Built(own, first, env, cmds, s.chain)
    requires McmRefs(cfg.mcms) <= McmRefsIn(cmds) && tl in cfg.timelocks && h in tl.transferOwnership
    ensures
      var a := ResolveHolder(h, l.refToAddr);
      a.Some? && (a.value !in s.chain.ownables ==> MissingTarget(cfg, own))
  {
    AssignKeys(first, cmds);
    assert ValidTimelock(tl, McmRefs(cfg.mcms), hasMCMS) && ValidHolder(h, McmRefs(cfg.mcms));
  }

  // ----- every command of a program is prepared

  lemma PreparedJoin(p: seq<Cmd>, q: seq<Cmd>, r: seq<Cmd>, cfg: ChainConfig)
    requires PreparedAfter(p, q, cfg) && PreparedAfter(p + q, r, cfg)
    ensures PreparedAfter(p, q + r, cfg)
  {
    forall i | 0 <= i < |q + r|
      ensures Prepared((q + r)[i], p + (q + r)[..i], cfg)
    {
      if i < |q| {
        assert (q + r)[..i] == q[..i];
      } else {
        assert p + (q + r)[..i] == (p + q) + r[..i - |q|];
      }
    }
  }

  lemma {:induction false} McmCmdsPrepared(mcms: seq<MCMSpec>, cfg: ChainConfig)
    requires forall m :: m in mcms ==> m in cfg.mcms
    ensures PreparedAfter([], McmCmds(mcms), cfg)
  {
    if mcms != [] {
      var rest, m := mcms[..|mcms| - 1], mcms[|mcms| - 1];
      assert mcms == rest + [m];
      McmCmdsPrepared(rest, cfg);
      McmCmdsPlain(rest);
      hide PreparedAfter, McmsOnly;
      var p := McmCmds(rest);
      OneMcmPrepared(p, m, cfg);
      assert [] + p == p;
      PreparedJoin([], p, [DeployMcmCmd(m), SetConfigCmd(m)], cfg);
    }
  }

  lemma OneMcmPrepared(p: seq<Cmd>, m: MCMSpec, cfg: ChainConfig)
    requires m in cfg.mcms && forall c :: c in p ==> c.DeployMcmCmd? || c.SetConfigCmd?
    ensures PreparedAfter(p, [DeployMcmCmd(m), SetConfigCmd(m)], cfg)
  {
    var x := DeployMcmCmd(m);
    var q := [x, SetConfigCmd(m)];
    RefsInOneMore(p, x);
    McmsOnlyOneMore(p, x);
    assert p + q[..0] == p && p + q[..1] == p + [x];
  }

  /** Commands that need the timelock, all MCMs and valid holders, and nothing else. */
  predicate Late(c: Cmd, tl: TimelockSpec, cfg: ChainConfig) {
    match c
    case GrantCmd(t, _, who) => t == tl && (who.Holder? ==> ValidHolder(who.h, McmRefs(cfg.mcms)))
    case CheckTransfersCmd(t) => t == tl
    case TransferCmd(t, h) => t == tl && h in tl.transferOwnership
    case AcceptCmd(t, h) => t == tl && h in tl.transferOwnership
    case CloseCmd(_) => true
    case _ => false
  }

  lemma WiringLate(env: Env, tl: TimelockSpec, cfg: ChainConfig, hasMCMS: bool)
    requires ValidTimelock(tl, McmRefs(cfg.mcms), hasMCMS)
    ensures forall c :: c in WiringCmds(env, tl) ==> Late(c, tl, cfg)
  {
    PairsNoDeploy(tl, tl.transferOwnership);
    forall c | c in RoleCmds(env, tl)
      ensures Late(c, tl, cfg)
    {}
  }

  lemma LatePrepared(p: seq<Cmd>, q: seq<Cmd>, tl: TimelockSpec, cfg: ChainConfig)
    requires tl.ref in TimelockRefsIn(p) && McmRefs(cfg.mcms) <= McmRefsIn(p) && tl in cfg.timelocks
    requires forall c :: c in q ==> Late(c, tl, cfg)
    ensures PreparedAfter(p, q, cfg)
  {
    forall i | 0 <= i < |q|
      ensures Prepared(q[i], p + q[..i], cfg)
    {
      assert q[i] in q;
      RefsJoin(p, q[..i]);
    }
  }

  lemma TimelockCmdsPrepared(env: Env, p: seq<Cmd>, tl: TimelockSpec, cfg: ChainConfig, hasMCMS: bool)
    requires tl in cfg.timelocks && ValidTimelock(tl, McmRefs(cfg.mcms), hasMCMS) && McmRefs(cfg.mcms) <= McmRefsIn(p)
    ensures PreparedAfter(p, TimelockCmds(env, tl), cfg)
  {
    var create, wiring := CreateCmds(env, tl), WiringCmds(env, tl);
    WiringShape(env, tl);
    WiringLate(env, tl, cfg, hasMCMS);
    hide WiringCmds, TimelockCmds;
    RefsInOneMore(p, DeployTimelockCmd(tl));
    assert p + create[..0] == p && (|create| > 1 ==> p + create[..1] == p + [DeployTimelockCmd(tl)]);
    RefsJoin(p, create);
    assert create[0] in create;
    LatePrepared(p + create, wiring, tl, cfg);
    PreparedJoin(p, create, wiring, cfg);
  }

  lemma {:induction false} AllTimelockCmdsPrepared(env: Env, p: seq<Cmd>, timelocks: seq<TimelockSpec>,
      cfg: ChainConfig, hasMCMS: bool)
    requires forall tl :: tl in timelocks ==> tl in cfg.timelocks && ValidTimelock(tl, McmRefs(cfg.mcms), hasMCMS)
    requires McmRefs(cfg.mcms) <= McmRefsIn(p)
    ensures PreparedAfter(p, AllTimelockCmds(env, timelocks), cfg)
  {
    if timelocks != [] {
      var rest, tl := timelocks[..|timelocks| - 1], timelocks[|timelocks| - 1];
      assert timelocks == rest + [tl];
      hide TimelockCmds, PreparedAfter;
      AllTimelockCmdsPrepared(env, p, rest, cfg, hasMCMS);
      RefsJoin(p, AllTimelockCmds(env, rest));
      TimelockCmdsPrepared(env, p + AllTimelockCmds(env, rest), tl, cfg, hasMCMS);
      PreparedJoin(p, AllTimelockCmds(env, rest), TimelockCmds(env, tl), cfg);
    }
  }

  lemma ProgramPrepared(env: Env, cfg: ChainConfig, hasMCMS: bool)
    requires ValidChainConfig(cfg, hasMCMS)
    ensures PreparedAfter([], Program(env, cfg), cfg)
  {
    var p := McmCmds(cfg.mcms);
    McmCmdsFresh(cfg.mcms);
    McmCmdsPrepared(cfg.mcms, cfg);
    AllTimelockCmdsPrepared(env, p, cfg.timelocks, cfg, hasMCMS);
    assert [] + p == p;
    PreparedJoin([], p, AllTimelockCmds(env, cfg.timelocks), cfg);
  }

  // ----- runs

  predicate ExplainedFailure(o: Outcome<Local>, cfg: ChainConfig, own: Ownables) {
    o.Failed? ==>
      (o.error == UnsupportedContractType && UnsupportedMcm(cfg)) || (o.error == Unreadable && MissingTarget(cfg, own))
  }

  lemma {:induction false} FoldFails(s: St, env: Env, cfg: ChainConfig, hasMCMS: bool, cmds: seq<Cmd>)
    requires CleanStart(s, env) && ValidChainConfig(cfg, hasMCMS)
    requires FreshRefs(cmds) && PreparedAfter([], cmds, cfg) && forall c :: c in cmds ==> GoodCmd(c)
    ensures
      var (s', o) := Fold(s, env, START, cmds);
      && ExplainedFailure(o, cfg, s.chain.ownables)
      && (o.Done? ==>
            Inv(s.chain.next, env, cmds, s', o.value) && Built(s.chain.ownables, s.chain.next, env, cmds, s'.chain))
      && (o.Done? ==> forall c :: c in cmds && c.DeployMcmCmd? ==> SupportedType(c.mcm.contractType))
  {
    var own, first := s.chain.ownables, s.chain.next;
    if cmds == [] {
      StartInv(s, env);
    } else {
      var rest, last := cmds[..|cmds| - 1], cmds[|cmds| - 1];
      assert cmds == rest + [last];
      RestPrepared(cmds, cfg);
      hide CleanStart, ValidChainConfig, FreshRefs, PreparedAfter, Inv, Built, Fold, Step, Prepared;
      FoldSnoc(s, env, START, rest, last);
      FoldFails(s, env, cfg, hasMCMS, rest);
      var (s1, o1) := Fold(s, env, START, rest);
      if o1.Done? {
        StepFails(own, first, env, cfg, hasMCMS, rest, s1, o1.value, last);
        if Step(s1, env, o1.value, last).1.Done? {
          StepKeeps(first, env, rest, s1, o1.value, last);
          BuiltStep(own, first, env, rest, s1, o1.value, last);
        }
      }
    }
  }

  lemma RestPrepared(cmds: seq<Cmd>, cfg: ChainConfig)
    requires cmds != [] && FreshRefs(cmds) && PreparedAfter([], cmds, cfg)
    ensures
      var rest, last := cmds[..|cmds| - 1], cmds[|cmds| - 1];
      FreshRefs(rest) && PreparedAfter([], rest, cfg) && FreshCmd(last, rest) && Prepared(last, rest, cfg)
  {
    var n := |cmds| - 1;
    assert [] + cmds[..n] == cmds[..n] && Prepared(cmds[n], [] + cmds[..n], cfg) && FreshCmd(cmds[n], cmds[..n]);
    forall i | 0 <= i < n
      ensures FreshCmd(cmds[..n][i], cmds[..n][..i]) && Prepared(cmds[..n][i], [] + cmds[..n][..i], cfg)
    {
      assert cmds[..n][..i] == cmds[..i] && FreshCmd(cmds[i], cmds[..i]) && Prepared(cmds[i], [] + cmds[..i], cfg);
    }
  }

  /** Each command takes at most one operation. */
  lemma {:induction false} BudgetSuffices(s: St, env: Env, l: Local, cmds: seq<Cmd>)
    requires s.budget >= |cmds|
    ensures
      var (s', o) := Fold(s, env, l, cmds);
      !o.Killed? && (o.Done? ==> s'.budget >= s.budget - |cmds|)
  {
    if cmds != [] {
      BudgetSuffices(s, env, l, cmds[..|cmds| - 1]);
    }
  }

  /** Validation implies resolution: on any chain, whatever the budget, a run of a
      validated configuration never misses a reference and no transaction of it is
      rejected. It fails only if an MCM's type is not supported or a target named by
      address does not exist. */
  lemma ValidRunFailures(s: St, env: Env, cfg: ChainConfig, hasMCMS: bool)
    requires CleanStart(s, env) && ValidChainConfig(cfg, hasMCMS)
    ensures ExplainedFailure(Run(s, env, cfg).1, cfg, s.chain.ownables)
    ensures Run(s, env, cfg).1.Done? ==> !UnsupportedMcm(cfg)
  {
    ProgramShape(env, cfg, hasMCMS);
    ProgramPrepared(env, cfg, hasMCMS);
    FoldFails(s, env, cfg, hasMCMS, Program(env, cfg));
    if Run(s, env, cfg).1.Done? {
      forall m | m in cfg.mcms
        ensures SupportedType(m.contractType)
      {
        McmCmdIn(cfg.mcms, m);
        assert DeployMcmCmd(m) in Program(env, cfg);
      }
    }
  }

  lemma {:induction false} McmCmdIn(mcms: seq<MCMSpec>, m: MCMSpec)
    requires m in mcms
    ensures DeployMcmCmd(m) in McmCmds(mcms)
  {
    if m in mcms[..|mcms| - 1] {
      McmCmdIn(mcms[..|mcms| - 1], m);
    }
  }

  /** With targets that are there and as many operations as commands, a run
      completes exactly when every MCM has a supported type. */
  lemma CompletesIff(s: St, env: Env, cfg: ChainConfig, hasMCMS: bool)
    requires Resumable(s, env, cfg, hasMCMS) && s.budget >= |Program(env, cfg)|
    ensures Run(s, env, cfg).1.Done? <==> forall m :: m in cfg.mcms ==>
      m.contractType in {"ProposerManyChainMultiSig", "CancellerManyChainMultiSig", "BypasserManyChainMultiSig"}
  {
    ValidRunFailures(s, env, cfg, hasMCMS);
    BudgetSuffices(s, env, START, Program(env, cfg));
    hide Run, ValidChainConfig, CleanStart, ClaimedOnce;
    assert !MissingTarget(cfg, s.chain.ownables);
    var o := Run(s, env, cfg).1;
    assert o == Fold(s, env, START, Program(env, cfg)).1;
  }
}
