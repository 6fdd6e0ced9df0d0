/** What was asked for is what a completed custom topology run has deployed, told in
    terms of the configuration alone: tables, call proxies and configs on the chain,
    and the operations reported with their arguments. */
module TopologyDeployed {
  import opened Wrappers
  import opened Evm
  import opened RoleTables
  import opened Topology
  import opened TopologyRun
  import opened TopologyResume
  import opened TopologyOutcome
  import opened TopologyProgram
  import opened TopologyEffect
  import opened TopologyResult

  predicate Names(h: RoleHolder, refs: map<string, Address>, a: Address) {
    if h.mcmRef != "" then h.mcmRef in refs && refs[h.mcmRef] == a else h.address == Some(a)
  }

  /** The members are those the holders name, and `extra`. */
  ghost predicate Holds(members: set<Address>, holders: seq<RoleHolder>, refs: map<string, Address>,
                        extra: set<Address>) {
    forall a :: a in members <==> a in extra || exists h :: h in holders && Names(h, refs, a)
  }

  /** The addresses are those the holders name, in order. */
  predicate Lists(addrs: seq<Address>, holders: seq<RoleHolder>, refs: map<string, Address>) {
    |addrs| == |holders| && forall i :: 0 <= i < |addrs| ==> Names(holders[i], refs, addrs[i])
  }

  /** The timelock at `refs[tl.ref]`: its tables, and exactly one new call proxy that
      points at it and may execute, or none if it is switched off. */
  ghost predicate TimelockDeployed(c: Chain, env: Env, tl: TimelockSpec, c': Chain, refs: map<string, Address>) {
    && tl.ref in refs && refs[tl.ref] in c'.tables
    && var t := refs[tl.ref];
    var (tables, off) := (c'.tables[t], tl.ref in env.callProxies && !env.callProxies[tl.ref]);
    && Holds(tables.proposers, tl.roles.proposers, refs, {})
    && Holds(tables.cancellers, tl.roles.cancellers, refs, {})
    && Holds(tables.bypassers, tl.roles.bypassers, refs, {})
    && Holds(tables.executors, tl.roles.executors, refs, if off then {} else {t + 1})
    && Holds(tables.admins, tl.roles.admins, refs, {env.deployer, t})
    && forall a :: a >= c.next ==> (a in c'.proxies && c'.proxies[a] == t <==> !off && a == t + 1)
  }

  /** Its deployment was performed with the delay and the role lists of the
      specification and the deployer as admin, and the proxy's for it. */
  ghost predicate TimelockReported(env: Env, tl: TimelockSpec, reports: map<Key, Address>, refs: map<string, Address>) {
    && tl.ref in refs
    && (exists p, c, b ::
          && Lists(p, tl.roles.proposers, refs) && Lists(c, tl.roles.cancellers, refs)
          && Lists(b, tl.roles.bypassers, refs)
          && var k := TimelockKey(env.selector, tl.ref, tl.qualifier, tl.minDelay, env.deployer, p, c, b);
             k in reports && reports[k] == refs[tl.ref])
    && (!(tl.ref in env.callProxies && !env.callProxies[tl.ref]) ==>
          ProxyKey(env.selector, tl.ref, tl.qualifier, refs[tl.ref]) in reports)
  }

  /** A multisig: deployed under its type and qualifier, and configured. */
  predicate McmDeployed(env: Env, m: MCMSpec, c': Chain, reports: map<Key, Address>, refs: map<string, Address>) {
    && m.ref in refs && refs[m.ref] in c'.configs && c'.configs[refs[m.ref]] == Some(m.config)
    && var k := McmKey(env.selector, m.ref, m.contractType, m.qualifier);
    && k in reports && reports[k] == refs[m.ref]
    && ConfigKey(env.selector, refs[m.ref], m.config, m.contractType) in reports
  }

  // ----- reports of a completed run

  /** Every command of the run needs no further operation, seen from where it stood. */
  lemma {:induction false} StoodAt(s: St, env: Env, l: Local, cmds: seq<Cmd>, all: map<string, Address>, cmd: Cmd)
    returns (before: Local, after: Local)
    requires AllFirm(s, env, l, cmds, all) && cmd in cmds
    requires
      var o := Fold(With(s, 0), env, l, cmds).1;
      o.Done? && Sub(o.value.refToAddr, all)
    ensures Sub(before.refToAddr, all) && Sub(after.refToAddr, all)
    ensures Step(With(s, 0), env, before, cmd).1 == Done(after)
  {
    var rest, last := cmds[..|cmds| - 1], cmds[|cmds| - 1];
    assert cmds == rest + [last];
    if cmd == last {
      before := Fold(With(s, 0), env, l, rest).1.value;
      after := Fold(With(s, 0), env, l, cmds).1.value;
    } else {
      before, after := StoodAt(s, env, l, rest, all, cmd);
    }
  }

  /** A run has completed, with the refs `all`, and needs no operation to complete again. */
  predicate Final(s: St, env: Env, cfg: ChainConfig, all: map<string, Address>) {
    && AllFirm(s, env, START, Program(env, cfg), all)
    && Fold(With(s, 0), env, START, Program(env, cfg)).1.Done?
    && Fold(With(s, 0), env, START, Program(env, cfg)).1.value.refToAddr == all
  }

  lemma RunIsFinal(s: St, env: Env, cfg: ChainConfig, hasMCMS: bool)
    requires Resumable(s, env, cfg, hasMCMS) && Run(s, env, cfg).1.Done?
    ensures
      var (s', o) := Run(s, env, cfg);
      Final(s', env, cfg, o.value.refToAddr)
  {
    var cmds, all := Program(env, cfg), Assign(s.chain.next, Program(env, cfg));
    RunsAlong(s, env, cfg, hasMCMS);
    ClaimsClashFree(s, env, cfg, hasMCMS);
    ProgramShape(env, cfg, hasMCMS);
    RunOutcome(s, env, cfg, hasMCMS);
    hide Fold, ValidChainConfig, ClaimedOnce, OutsideOwned, Assign, AllFirm, Program, FreshRefs;
    FoldSettles(s, env, START, cmds, all);
  }

  lemma TimelockCmdIn(env: Env, timelocks: seq<TimelockSpec>, tl: TimelockSpec)
    requires tl in timelocks
    ensures DeployTimelockCmd(tl) in AllTimelockCmds(env, timelocks)
    ensures !SwitchedOff(env, tl) ==> DeployProxyCmd(tl) in AllTimelockCmds(env, timelocks)
  {
    hide RoleCmds, TransferCmds;
    var rest, last := timelocks[..|timelocks| - 1], timelocks[|timelocks| - 1];
    assert timelocks == rest + [last];
    if tl != last {
      TimelockCmdIn(env, rest, tl);
    }
  }

  lemma {:induction false} McmCmdsIn(mcms: seq<MCMSpec>, m: MCMSpec)
    requires m in mcms
    ensures DeployMcmCmd(m) in McmCmds(mcms) && SetConfigCmd(m) in McmCmds(mcms)
  {
    if m in mcms[..|mcms| - 1] {
      McmCmdsIn(mcms[..|mcms| - 1], m);
    }
  }

  lemma ResolvedLists(holders: seq<RoleHolder>, refs: map<string, Address>, all: map<string, Address>)
    requires Resolvable(holders, refs) && Sub(refs, all)
    ensures Lists(Resolved(holders, refs), holders, all)
  {
    forall i | 0 <= i < |holders|
      ensures Names(holders[i], all, Resolved(holders, refs)[i])
    {
      assert holders[i] in holders;
    }
  }

  lemma TimelockIsReported(s: St, env: Env, cfg: ChainConfig, all: map<string, Address>, tl: TimelockSpec)
    requires Final(s, env, cfg, all) && tl in cfg.timelocks
    ensures TimelockReported(env, tl, s.reports, all)
  {
    hide Fold, AllFirm, AllTimelockCmds, McmCmds;
    TimelockCmdIn(env, cfg.timelocks, tl);
    var l, l' := StoodAt(s, env, START, Program(env, cfg), all, DeployTimelockCmd(tl));
    var r := tl.roles;
    ResolvedLists(r.proposers, l.refToAddr, all);
    ResolvedLists(r.cancellers, l.refToAddr, all);
    ResolvedLists(r.bypassers, l.refToAddr, all);
    hide Lists, Resolved, Resolvable;
    var k := TimelockKey(env.selector, tl.ref, tl.qualifier, tl.minDelay, env.deployer,
      Resolved(r.proposers, l.refToAddr),
                         Resolved(r.cancellers, l.refToAddr), Resolved(r.bypassers, l.refToAddr));
    assert k in s.reports && l'.refToAddr == l.refToAddr[tl.ref := s.reports[k]];
    if !SwitchedOff(env, tl) {
      var m, m' := StoodAt(s, env, START, Program(env, cfg), all, DeployProxyCmd(tl));
    }
  }

  lemma McmIsReported(s: St, env: Env, cfg: ChainConfig, all: map<string, Address>, m: MCMSpec)
    requires Final(s, env, cfg, all) && m in cfg.mcms
    ensures
      var k := McmKey(env.selector, m.ref, m.contractType, m.qualifier);
      && m.ref in all && k in s.reports && s.reports[k] == all[m.ref]
      && ConfigKey(env.selector, all[m.ref], m.config, m.contractType) in s.reports
  {
    hide Fold, AllFirm, AllTimelockCmds, McmCmds;
    McmCmdsIn(cfg.mcms, m);
    var l, l' := StoodAt(s, env, START, Program(env, cfg), all, DeployMcmCmd(m));
    var k := McmKey(env.selector, m.ref, m.contractType, m.qualifier);
    assert k in s.reports && l'.refToAddr == l.refToAddr[m.ref := s.reports[k]];
    var c, c' := StoodAt(s, env, START, Program(env, cfg), all, SetConfigCmd(m));
  }

  // ----- call proxies

  /** No other call proxy is created. */
  lemma {:induction false} NewProxies(c: Chain, env: Env, refs: map<string, Address>, timelocks: seq<TimelockSpec>,
                                      a: Address)
    requires AllResolvable(timelocks, refs) && (a in c.proxies ==> a < c.next)
    requires a >= c.next && a in AfterTimelocks(c, env, refs, timelocks).proxies
    ensures exists i ::
      0 <= i < |timelocks| && !SwitchedOff(env, timelocks[i]) && a == TimelockAddress(env, c.next, timelocks, i) + 1
  {
    hide RoleMatrix, AfterTimelocks, TimelockAddress;
    if timelocks == [] {
      NoTimelock(c, env, refs);
    } else {
      OneTimelockMore(c, env, refs, timelocks);
      var n := |timelocks| - 1;
      if a in AfterTimelocks(c, env, refs, timelocks[..n]).proxies {
        NewProxies(c, env, refs, timelocks[..n], a);
      } else {
        assert !SwitchedOff(env, timelocks[n]) && a == TimelockAddress(env, c.next, timelocks, n) + 1;
      }
    }
  }

  lemma {:induction false} AddressesApart(env: Env, first: Address, timelocks: seq<TimelockSpec>, i: nat, j: nat)
    requires i < j < |timelocks|
    ensures TimelockAddress(env, first, timelocks, i) + Width(env, timelocks[i])
      <= TimelockAddress(env, first, timelocks, j)
  {
    hide Width;
    assert timelocks[..i + 1][..i] == timelocks[..i];
    WidthsGrow(env, timelocks, i + 1, j);
  }

  /** At `t + 1` for the timelock at `t`, and nowhere else. */
  lemma ProxiesExactly(c: Chain, env: Env, refs: map<string, Address>, timelocks: seq<TimelockSpec>, i: nat, a: Address)
    requires AllResolvable(timelocks, refs) && i < |timelocks| && (a in c.proxies ==> a < c.next) && a >= c.next
    ensures
      var (t, proxies) := (TimelockAddress(env, c.next, timelocks, i), AfterTimelocks(c, env, refs, timelocks).proxies);
      a in proxies && proxies[a] == t <==> !SwitchedOff(env, timelocks[i]) && a == t + 1
  {
    hide AfterTimelocks, TimelockAddress;
    var t, proxies := TimelockAddress(env, c.next, timelocks, i), AfterTimelocks(c, env, refs, timelocks).proxies;
    if a in proxies {
      NewProxies(c, env, refs, timelocks, a);
      var j :| 0 <= j < |timelocks| && !SwitchedOff(env, timelocks[j])
        && a == TimelockAddress(env, c.next, timelocks, j) + 1;
      ProxiesOf(c, env, refs, timelocks, j);
      if i < j {
        AddressesApart(env, c.next, timelocks, i, j);
      } else if j < i {
        AddressesApart(env, c.next, timelocks, j, i);
      }
    }
    if !SwitchedOff(env, timelocks[i]) {
      ProxiesOf(c, env, refs, timelocks, i);
    }
  }

  // ----- tables

  lemma ResolvedHolds(holders: seq<RoleHolder>, refs: map<string, Address>, extra: set<Address>)
    requires Resolvable(holders, refs)
    ensures Holds(AsSet(Resolved(holders, refs)) + extra, holders, refs, extra)
  {
    var addrs := Resolved(holders, refs);
    forall a
      ensures a in addrs <==> exists h :: h in holders && Names(h, refs, a)
    {
      if a in addrs {
        var i :| 0 <= i < |addrs| && addrs[i] == a;
        assert holders[i] in holders && Names(holders[i], refs, a);
      }
      if h :| h in holders && Names(h, refs, a) {
        var i :| 0 <= i < |holders| && holders[i] == h;
        assert addrs[i] == a;
      }
    }
  }

  lemma MatrixHolds(env: Env, refs: map<string, Address>, tl: TimelockSpec, t: Address)
    requires RolesResolvable(tl.roles, refs)
    ensures
      var (m, r) := (RoleMatrix(env, refs, tl, t), tl.roles);
      && Holds(m.proposers, r.proposers, refs, {})
      && Holds(m.cancellers, r.cancellers, refs, {})
      && Holds(m.bypassers, r.bypassers, refs, {})
      && Holds(m.executors, r.executors, refs, if SwitchedOff(env, tl) then {} else {t + 1})
      && Holds(m.admins, r.admins, refs, {env.deployer, t})
  {
    var r := tl.roles;
    ResolvedHolds(r.proposers, refs, {});
    ResolvedHolds(r.cancellers, refs, {});
    ResolvedHolds(r.bypassers, refs, {});
    ResolvedHolds(r.executors, refs, if SwitchedOff(env, tl) then {} else {t + 1});
    ResolvedHolds(r.admins, refs, {env.deployer, t});
    hide Holds, Resolved, Resolvable, AsSet;
    var p, c, b := AsSet(Resolved(r.proposers, refs)), AsSet(Resolved(r.cancellers, refs)),
                   AsSet(Resolved(r.bypassers, refs));
    assert p + {} == p && c + {} == c && b + {} == b;
  }

  // ----- one run

  lemma TimelockIsDeployed(s: St, env: Env, cfg: ChainConfig, hasMCMS: bool, i: nat)
    requires Resumable(s, env, cfg, hasMCMS) && Run(s, env, cfg).1.Done? && i < |cfg.timelocks|
    ensures
      var (s', o) := Run(s, env, cfg);
      TimelockDeployed(s.chain, env, cfg.timelocks[i], s'.chain, o.value.refToAddr)
  {
    RunEffect(s, env, cfg, hasMCMS);
    RunOutcome(s, env, cfg, hasMCMS);
    assert ValidChain(s.chain);
    hide Run, Resumable;
    Described(s.chain, env, cfg, Run(s, env, cfg).0.chain, Run(s, env, cfg).1.value.refToAddr, i);
  }

  lemma Described(c: Chain, env: Env, cfg: ChainConfig, c': Chain, refs: map<string, Address>, i: nat)
    requires ValidChain(c) && AllResolvable(cfg.timelocks, McmPlaces(c.next, cfg.mcms)) && i < |cfg.timelocks|
    requires DeployedOnce(c, env, cfg, c', refs) && AllResolvable(cfg.timelocks, refs) && Wired(c, env, cfg, c', refs)
    requires c' == AfterTimelocks(AfterMcms(c, env.deployer, cfg.mcms), env, McmPlaces(c.next, cfg.mcms), cfg.timelocks)
    ensures TimelockDeployed(c, env, cfg.timelocks[i], c', refs)
  {
    hide AfterTimelocks, AfterMcms, RoleMatrix, Holds, OthersKept, McmsWired, ValidChain, Widths, McmPlaces,
      TimelockAddress, TimelockResolvable, TimelockDeployed, McmRefs, TimelockRefs;
    var tl := cfg.timelocks[i];
    RefKnown(cfg, i);
    forall a | a >= c.next
      ensures a in c'.proxies && c'.proxies[a] == refs[tl.ref] <==> !SwitchedOff(env, tl) && a == refs[tl.ref] + 1
    {
      ProxyThere(c, env, cfg, McmPlaces(c.next, cfg.mcms), i, a);
    }
    assert TimelockWired(env, tl, c', refs);
    Tabled(c, env, tl, c', refs);
  }

  lemma RefKnown(cfg: ChainConfig, i: nat)
    requires i < |cfg.timelocks|
    ensures cfg.timelocks[i].ref in TimelockRefs(cfg.timelocks)
  {
    assert cfg.timelocks[i] in cfg.timelocks;
  }

  lemma Tabled(c: Chain, env: Env, tl: TimelockSpec, c': Chain, refs: map<string, Address>)
    requires tl.ref in refs && TimelockResolvable(tl, refs) && TimelockWired(env, tl, c', refs)
    requires forall a :: a >= c.next ==>
      (a in c'.proxies && c'.proxies[a] == refs[tl.ref] <==> !SwitchedOff(env, tl) && a == refs[tl.ref] + 1)
    ensures TimelockDeployed(c, env, tl, c', refs)
  {
    MatrixHolds(env, refs, tl, refs[tl.ref]);
    hide Holds, RoleMatrix, Resolvable;
  }

  lemma ProxyThere(c: Chain, env: Env, cfg: ChainConfig, refs: map<string, Address>, i: nat, a: Address)
    requires ValidChain(c) && AllResolvable(cfg.timelocks, refs) && i < |cfg.timelocks| && a >= c.next
    ensures
      var t := TimelockAddress(env, c.next + |cfg.mcms|, cfg.timelocks, i);
      var proxies := AfterTimelocks(AfterMcms(c, env.deployer, cfg.mcms), env, refs, cfg.timelocks).proxies;
      a in proxies && proxies[a] == t <==> !SwitchedOff(env, cfg.timelocks[i]) && a == t + 1
  {
    hide AfterMcms, AfterTimelocks, AllResolvable;
    McmsKeep(c, env.deployer, cfg.mcms);
    var c1 := AfterMcms(c, env.deployer, cfg.mcms);
    ProxiesKept(c1, env, refs, cfg.timelocks);
    if a >= c1.next {
      ProxiesExactly(c1, env, refs, cfg.timelocks, i, a);
    }
  }

  lemma McmIsDeployed(s: St, env: Env, cfg: ChainConfig, hasMCMS: bool, m: MCMSpec)
    requires Resumable(s, env, cfg, hasMCMS) && Run(s, env, cfg).1.Done? && m in cfg.mcms
    ensures
      var (s', o) := Run(s, env, cfg);
      McmDeployed(env, m, s'.chain, s'.reports, o.value.refToAddr)
  {
    var (s', o) := Run(s, env, cfg);
    RunEffect(s, env, cfg, hasMCMS);
    RunIsFinal(s, env, cfg, hasMCMS);
    McmIsReported(s', env, cfg, o.value.refToAddr, m);
    hide Run, Resumable, OthersKept, HandedOver, Final, TimelockWired, DeployedOnce;
    var i :| 0 <= i < |cfg.mcms| && cfg.mcms[i] == m;
    assert McmsWired(cfg, s'.chain, o.value.refToAddr);
  }

  lemma Counted(s: St, env: Env, cfg: ChainConfig, hasMCMS: bool)
    requires Resumable(s, env, cfg, hasMCMS) && Run(s, env, cfg).1.Done? && env.callProxies == map[]
    ensures |Run(s, env, cfg).1.value.addresses| == |cfg.mcms| + 2 * |cfg.timelocks|
  {
    hide Run, Resumable, AfterTimelocks, AfterMcms, Assign, Program, Batches, AllTimelockAddresses, FreshRefs, Targets,
      AllResolvable;
    RunOutcome(s, env, cfg, hasMCMS);
    DefaultCount(env, s.chain.next + |cfg.mcms|, cfg.timelocks);
  }

  lemma {:induction false} DefaultCount(env: Env, first: Address, timelocks: seq<TimelockSpec>)
    requires env.callProxies == map[]
    ensures |AllTimelockAddresses(env, first, timelocks)| == 2 * |timelocks|
  {
    if timelocks != [] {
      DefaultCount(env, first, timelocks[..|timelocks| - 1]);
    }
  }

  lemma OneRunAsAsked(s: St, env: Env, cfg: ChainConfig, hasMCMS: bool)
    requires Resumable(s, env, cfg, hasMCMS) && Run(s, env, cfg).1.Done?
    ensures
      var (s', o) := Run(s, env, cfg);
      var (refs, timelocks) := (o.value.refToAddr, cfg.timelocks);
      && (forall m :: m in cfg.mcms ==> McmDeployed(env, m, s'.chain, s'.reports, refs))
      && (forall tl :: tl in timelocks ==>
            TimelockDeployed(s.chain, env, tl, s'.chain, refs) && TimelockReported(env, tl, s'.reports, refs))
  {
    hide Run, TimelockDeployed, TimelockReported, McmDeployed, Resumable, Final;
    var (s', o) := Run(s, env, cfg);
    RunIsFinal(s, env, cfg, hasMCMS);
    forall m | m in cfg.mcms
      ensures McmDeployed(env, m, s'.chain, s'.reports, o.value.refToAddr)
    {
      McmIsDeployed(s, env, cfg, hasMCMS, m);
    }
    forall tl | tl in cfg.timelocks
      ensures TimelockDeployed(s.chain, env, tl, s'.chain, o.value.refToAddr)
      ensures TimelockReported(env, tl, s'.reports, o.value.refToAddr)
    {
      var i :| 0 <= i < |cfg.timelocks| && cfg.timelocks[i] == tl;
      TimelockIsDeployed(s, env, cfg, hasMCMS, i);
      TimelockIsReported(s', env, cfg, o.value.refToAddr, tl);
    }
  }

  /** After any series of interrupted runs that a completed run ends: each multisig
      and timelock is deployed as its specification says, with the arguments reported.
      Without extra arguments each timelock adds two addresses to those of the multisigs. */
  lemma DeployedAsAsked(s: St, env: Env, cfg: ChainConfig, hasMCMS: bool, budgets: seq<nat>, last: nat)
    requires Resumable(s, env, cfg, hasMCMS)
    requires Run(With(After(s, env, cfg, budgets), last), env, cfg).1.Done?
    ensures
      var (s', o) := Run(With(After(s, env, cfg, budgets), last), env, cfg);
      var (refs, timelocks) := (o.value.refToAddr, cfg.timelocks);
      && (forall m :: m in cfg.mcms ==> McmDeployed(env, m, s'.chain, s'.reports, refs))
      && (forall tl :: tl in timelocks ==>
            TimelockDeployed(s.chain, env, tl, s'.chain, refs) && TimelockReported(env, tl, s'.reports, refs))
      && (env.callProxies == map[] ==> |o.value.addresses| == |cfg.mcms| + 2 * |timelocks|)
  {
    hide Run, After, TimelockDeployed, TimelockReported, McmDeployed;
    SeriesIsOneRun(s, env, cfg, hasMCMS, budgets, last);
    var once := With(s, Sum(budgets) + last);
    assert Resumable(once, env, cfg, hasMCMS);
    hide Resumable;
    OneRunAsAsked(once, env, cfg, hasMCMS);
    if env.callProxies == map[] {
      Counted(once, env, cfg, hasMCMS);
    }
  }
}
