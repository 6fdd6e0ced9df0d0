/** The chain, the role matrices and the batch operations that a completed custom
    topology run leaves, stated without its commands. */
module TopologyEffect {
  import opened Wrappers
  import opened Evm
  import opened Ownership
  import opened RoleTables
  import opened Topology
  import opened TopologyRun
  import opened TopologyOutcome
  import opened TopologyProgram

  // ----- the intended effect

  /** Each MCM takes the next address: owned by the deployer, two-step, configured. */
  function AfterMcms(c: Chain, deployer: Address, mcms: seq<MCMSpec>): Chain {
    if mcms == [] then c
    else
      var c', m := AfterMcms(c, deployer, mcms[..|mcms| - 1]), mcms[|mcms| - 1];
      c'.(ownables := c'.ownables[c'.next := Ownable(deployer, None, true)],
          configs := c'.configs[c'.next := Some(m.config)],
          next := c'.next + 1)
  }

  predicate TimelockResolvable(tl: TimelockSpec, refs: map<string, Address>) {
    RolesResolvable(tl.roles, refs) && Resolvable(tl.transferOwnership, refs)
  }

  /** The extra arguments turn its call proxy off; without an entry it is on. */
  predicate SwitchedOff(env: Env, tl: TimelockSpec) {
    tl.ref in env.callProxies && !env.callProxies[tl.ref]
  }

  function LabelsOf(lbl: string): set<string> {
    if lbl == "" then {} else {lbl}
  }

  /** The exact role tables of a timelock at `t`: the resolved holders; executors
      also the call proxy, at the next address, unless it is switched off; admins
      also the deployer and the timelock itself. */
  function RoleMatrix(env: Env, refs: map<string, Address>, tl: TimelockSpec, t: Address): Tables
    requires RolesResolvable(tl.roles, refs)
  {
    Tables(AsSet(Resolved(tl.roles.proposers, refs)), AsSet(Resolved(tl.roles.cancellers, refs)),
      AsSet(Resolved(tl.roles.bypassers, refs)),
           AsSet(Resolved(tl.roles.executors, refs))
             + (if SwitchedOff(env, tl) then {} else {t + 1}),
           AsSet(Resolved(tl.roles.admins, refs)) + {env.deployer, t})
  }

  /** Ownership transferred to `t`, at once or pending, for the contracts in `targets`. */
  function Handed(own: Ownables, deployer: Address, t: Address, targets: set<Address>): Ownables {
    map c | c in own :: if c in targets then Transfer(own[c], deployer, t) else own[c]
  }

  /** The targets that still have to be accepted, in order, each once. */
  function ToAccept(own: Ownables, targets: seq<Address>): seq<Address> {
    if targets == [] then []
    else
      var rest, c := targets[..|targets| - 1], targets[|targets| - 1];
      ToAccept(own, rest) + if c !in rest && c in own && own[c].twoStep then [c] else []
  }

  function Width(env: Env, tl: TimelockSpec): nat {
    if SwitchedOff(env, tl) then 1 else 2
  }

  function AfterTimelock(c: Chain, env: Env, refs: map<string, Address>, tl: TimelockSpec): Chain
    requires TimelockResolvable(tl, refs)
  {
    var t := c.next;
    Chain(Handed(c.ownables, env.deployer, t, AsSet(Resolved(tl.transferOwnership, refs))),
          c.configs,
          c.tables[t := RoleMatrix(env, refs, tl, t)],
          if SwitchedOff(env, tl) then c.proxies else c.proxies[t + 1 := t],
          t + Width(env, tl))
  }

  predicate AllResolvable(timelocks: seq<TimelockSpec>, refs: map<string, Address>) {
    forall i :: 0 <= i < |timelocks| ==> TimelockResolvable(timelocks[i], refs)
  }

  function AfterTimelocks(c: Chain, env: Env, refs: map<string, Address>, timelocks: seq<TimelockSpec>): Chain
    requires AllResolvable(timelocks, refs)
  {
    if timelocks == [] then c
    else AfterTimelock(AfterTimelocks(c, env, refs, timelocks[..|timelocks| - 1]), env, refs,
      timelocks[|timelocks| - 1])
  }

  function BatchOf(env: Env, own: Ownables, targets: seq<Address>): seq<BatchOp> {
    var txs := ToAccept(own, targets);
    if txs == [] then [] else [BatchOp(env.selector, txs)]
  }

  function Batches(own: Ownables, env: Env, refs: map<string, Address>, timelocks: seq<TimelockSpec>): seq<BatchOp>
    requires AllResolvable(timelocks, refs)
  {
    if timelocks == [] then []
    else
      var rest, tl := timelocks[..|timelocks| - 1], timelocks[|timelocks| - 1];
      assert tl in timelocks;
      Batches(own, env, refs, rest) + BatchOf(env, own, Resolved(tl.transferOwnership, refs))
  }

  function McmAddresses(env: Env, first: Address, mcms: seq<MCMSpec>): seq<AddressRef> {
    seq(|mcms|, i requires 0 <= i < |mcms| =>
      AddressRef(env.selector, first + i, mcms[i].contractType, mcms[i].qualifier, LabelsOf(mcms[i].lbl)))
  }

  function TimelockAddresses(env: Env, t: Address, tl: TimelockSpec): seq<AddressRef> {
    [AddressRef(env.selector, t, "RBACTimelock", tl.qualifier, LabelsOf(tl.lbl))]
    + if SwitchedOff(env, tl) then []
      else [AddressRef(env.selector, t + 1, "CallProxy", tl.qualifier, LabelsOf(tl.lbl))]
  }

  function Widths(env: Env, timelocks: seq<TimelockSpec>): nat {
    if timelocks == [] then 0 else Widths(env, timelocks[..|timelocks| - 1]) + Width(env, timelocks[|timelocks| - 1])
  }

  function AllTimelockAddresses(env: Env, first: Address, timelocks: seq<TimelockSpec>): seq<AddressRef> {
    if timelocks == [] then []
    else
      var rest, tl := timelocks[..|timelocks| - 1], timelocks[|timelocks| - 1];
      AllTimelockAddresses(env, first, rest) + TimelockAddresses(env, first + Widths(env, rest), tl)
  }

  // ----- MCMs

  lemma McmPair(first: Address, env: Env, before: seq<Cmd>, s: St, l: Local, m: MCMSpec)
    requires Inv(first, env, before, s, l) && FreshCmd(DeployMcmCmd(m), before)
    requires Fold(s, env, l, [DeployMcmCmd(m), SetConfigCmd(m)]).1.Done?
    ensures
      var (s', o) := Fold(s, env, l, [DeployMcmCmd(m), SetConfigCmd(m)]);
      var a := s.chain.next;
      && s'.chain == AfterMcms(s.chain, env.deployer, [m])
      && o.value ==
           l.(refToAddr := l.refToAddr[m.ref := a], addresses :=
             l.addresses + [NewAddressRef(env.selector, a, m.contractType, m.qualifier, m.lbl)])
  {
    FoldJoin(s, env, l, [DeployMcmCmd(m)], [SetConfigCmd(m)]);
    FoldOne(s, env, l, DeployMcmCmd(m));
    assert [DeployMcmCmd(m)] + [SetConfigCmd(m)] == [DeployMcmCmd(m), SetConfigCmd(m)];
    KeyFacts(first, env, before, s, l, DeployMcmCmd(m));
    var (s1, o1) := Step(s, env, l, DeployMcmCmd(m));
    FoldOne(s1, env, o1.value, SetConfigCmd(m));
    var k := ConfigKey(env.selector, s.chain.next, m.config, m.contractType);
    assert k in s.reports ==> Accounted(k, s.chain, before);
    hide Fold;
    assert [m][..0] == [];
    assert AfterMcms(s.chain, env.deployer, []) == s.chain;
    var c1 := s1.chain;
    assert c1.configs[s.chain.next := Some(m.config)] == s.chain.configs[s.chain.next := Some(m.config)];
  }

  lemma AfterMcmsOneMore(c: Chain, deployer: Address, rest: seq<MCMSpec>, m: MCMSpec)
    ensures AfterMcms(c, deployer, rest + [m]) == AfterMcms(AfterMcms(c, deployer, rest), deployer, [m])
  {
    assert (rest + [m])[..|rest|] == rest && [m][..0] == [];
  }

  lemma {:induction false} McmPhase(s: St, env: Env, mcms: seq<MCMSpec>)
    requires CleanStart(s, env) && forall i, j :: 0 <= i < j < |mcms| ==> mcms[i].ref != mcms[j].ref
    requires Fold(s, env, START, McmCmds(mcms)).1.Done?
    ensures
      var (s', o) := Fold(s, env, START, McmCmds(mcms));
      && Inv(s.chain.next, env, McmCmds(mcms), s', o.value)
      && s'.chain == AfterMcms(s.chain, env.deployer, mcms)
      && s'.chain.next == s.chain.next + |mcms|
      && o.value.addresses == McmAddresses(env, s.chain.next, mcms)
      && o.value.batchOps == [] && o.value.txs == [] && o.value.seen == {} && o.value.proxy == ZERO
  {
    hide Fold, FreshRefs, Inv, CleanStart;
    if mcms == [] {
      StartInv(s, env);
      FoldNone(s, env, START);
    } else {
      var rest, m := mcms[..|mcms| - 1], mcms[|mcms| - 1];
      assert mcms == rest + [m];
      FoldJoin(s, env, START, McmCmds(rest), [DeployMcmCmd(m), SetConfigCmd(m)]);
      McmPhase(s, env, rest);
      McmCmdsFresh(mcms);
      McmCmdsPlain(mcms);
      var (s1, o1) := Fold(s, env, START, McmCmds(rest));
      McmOneMore(s.chain.next, env, McmCmds(rest), s1, o1.value, m);
      AfterMcmsOneMore(s.chain, env.deployer, rest, m);
      assert McmAddresses(env, s.chain.next, mcms) == McmAddresses(env, s.chain.next, rest)
        + [NewAddressRef(env.selector, s.chain.next + |rest|, m.contractType, m.qualifier, m.lbl)];
    }
  }

  lemma McmOneMore(first: Address, env: Env, before: seq<Cmd>, s: St, l: Local, m: MCMSpec)
    requires Inv(first, env, before, s, l) && FreshRefs(before + [DeployMcmCmd(m), SetConfigCmd(m)])
    requires Fold(s, env, l, [DeployMcmCmd(m), SetConfigCmd(m)]).1.Done?
    ensures
      var (s', o) := Fold(s, env, l, [DeployMcmCmd(m), SetConfigCmd(m)]);
      var a := s.chain.next;
      && Inv(first, env, before + [DeployMcmCmd(m), SetConfigCmd(m)], s', o.value)
      && s'.chain == AfterMcms(s.chain, env.deployer, [m]) && s'.chain.next == a + 1
      && o.value ==
           l.(refToAddr := l.refToAddr[m.ref := a], addresses :=
             l.addresses + [NewAddressRef(env.selector, a, m.contractType, m.qualifier, m.lbl)])
  {
    var q := [DeployMcmCmd(m), SetConfigCmd(m)];
    assert FreshCmd((before + q)[|before|], (before + q)[..|before|]) && (before + q)[..|before|] == before;
    McmPair(first, env, before, s, l, m);
    FoldKeeps(first, env, before, s, l, q);
  }

  // ----- role grants

  function AddAll(t: Tables, role: Role, accounts: set<Address>): Tables {
    match role
    case Proposer => t.(proposers := t.proposers + accounts)
    case Canceller => t.(cancellers := t.cancellers + accounts)
    case Bypasser => t.(bypassers := t.bypassers + accounts)
    case Executor => t.(executors := t.executors + accounts)
    case Admin => t.(admins := t.admins + accounts)
    case Unsupported => t
  }

  function GranteeSet(l: Local, tl: TimelockSpec, whos: seq<Grantee>): set<Address>
    requires forall who :: who in whos ==> GranteeAddress(l, tl, who).Some?
  {
    set who | who in whos :: GranteeAddress(l, tl, who).value
  }

  predicate AllGrantees(l: Local, tl: TimelockSpec, whos: seq<Grantee>) {
    forall who :: who in whos ==> GranteeAddress(l, tl, who).Some? && (who.TheProxy? ==> l.proxy != ZERO)
  }

  /** One grant command: memoised, skipped or sent, the account has the role after it. */
  lemma GrantStep(first: Address, env: Env, before: seq<Cmd>, s: St, l: Local, tl: TimelockSpec, role: Role,
                  who: Grantee)
    requires Inv(first, env, before, s, l) && role != Unsupported
    requires tl.ref in l.refToAddr && l.refToAddr[tl.ref] in s.chain.tables && AllGrantees(l, tl, [who])
    requires Step(s, env, l, GrantCmd(tl, role, who)).1.Done?
    ensures
      var (s', o) := Step(s, env, l, GrantCmd(tl, role, who));
      var t := l.refToAddr[tl.ref];
      && o.value == l
      && s'.chain ==
           s.chain.(tables := s.chain.tables[t := AddAll(s.chain.tables[t], role, {GranteeAddress(l, tl, who).value})])
  {
    assert who in [who];
    AssignKeys(first, before);
    var t, a := l.refToAddr[tl.ref], GranteeAddress(l, tl, who).value;
    var (s', o) := Step(s, env, l, GrantCmd(tl, role, who));
    var k := GrantKey(env.selector, t, role, a);
    var tables := s.chain.tables[t];
    assert k in s.reports ==> Accounted(k, s.chain, before);
    assert AddAll(tables, role, {a}) == tables.Grant(role, a);
    if a in tables.Get(role) {
      assert AddAll(tables, role, {a}) == tables;
      assert s.chain.tables[t := tables] == s.chain.tables;
    }
  }

  lemma AddAllJoin(t: Tables, role: Role, x: set<Address>, y: set<Address>)
    ensures AddAll(AddAll(t, role, x), role, y) == AddAll(t, role, x + y)
    ensures AddAll(t, role, {}) == t
  {
    assert t.proposers + {} == t.proposers && t.cancellers + {} == t.cancellers && t.bypassers + {} == t.bypassers
        && t.executors + {} == t.executors && t.admins + {} == t.admins;
    assert t.proposers + x + y == t.proposers + (x + y) && t.cancellers + x + y == t.cancellers + (x + y)
      && t.bypassers + x + y == t.bypassers + (x + y)
        && t.executors + x + y == t.executors + (x + y) && t.admins + x + y == t.admins + (x + y);
  }

  lemma {:induction false} GrantSection(first: Address, env: Env, before: seq<Cmd>, s: St, l: Local, tl: TimelockSpec,
                                        role: Role, whos: seq<Grantee>)
    requires Inv(first, env, before, s, l) && role != Unsupported && FreshRefs(before)
    requires tl.ref in l.refToAddr && l.refToAddr[tl.ref] in s.chain.tables && AllGrantees(l, tl, whos)
    requires Fold(s, env, l, GrantCmds(tl, role, whos)).1.Done?
    ensures
      var (s', o) := Fold(s, env, l, GrantCmds(tl, role, whos));
      var t := l.refToAddr[tl.ref];
      && o.value == l
      && s'.chain == s.chain.(tables := s.chain.tables[t := AddAll(s.chain.tables[t], role, GranteeSet(l, tl, whos))])
      && Inv(first, env, before + GrantCmds(tl, role, whos), s', l)
      && FreshRefs(before + GrantCmds(tl, role, whos))
  {
    hide Fold, Step, Inv, FreshRefs, AddAll, GranteeSet;
    var t, cmds := l.refToAddr[tl.ref], GrantCmds(tl, role, whos);
    FreshPlain(before, cmds);
    FoldKeeps(first, env, before, s, l, cmds);
    if whos == [] {
      assert cmds == [];
      FoldNone(s, env, l);
      AddAllJoin(s.chain.tables[t], role, {}, {});
      NobodyYet(l, tl);
      assert s.chain.tables[t := s.chain.tables[t]] == s.chain.tables;
    } else {
      var rest, who := whos[..|whos| - 1], whos[|whos| - 1];
      assert whos == rest + [who];
      assert cmds == GrantCmds(tl, role, rest) + [GrantCmd(tl, role, who)];
      FoldSnoc(s, env, l, GrantCmds(tl, role, rest), GrantCmd(tl, role, who));
      GrantSection(first, env, before, s, l, tl, role, rest);
      var s1 := Fold(s, env, l, GrantCmds(tl, role, rest)).0;
      GrantStep(first, env, before + GrantCmds(tl, role, rest), s1, l, tl, role, who);
      AddAllJoin(s.chain.tables[t], role, GranteeSet(l, tl, rest), {GranteeAddress(l, tl, who).value});
      OneMoreGrantee(l, tl, rest, who);
    }
  }

  lemma NobodyYet(l: Local, tl: TimelockSpec)
    ensures GranteeSet(l, tl, []) == {}
  {}

  lemma OneMoreGrantee(l: Local, tl: TimelockSpec, whos: seq<Grantee>, who: Grantee)
    requires AllGrantees(l, tl, whos + [who])
    ensures AllGrantees(l, tl, whos) && AllGrantees(l, tl, [who])
    ensures GranteeSet(l, tl, whos + [who]) == GranteeSet(l, tl, whos) + {GranteeAddress(l, tl, who).value}
  {
    assert forall w :: w in whos ==> w in whos + [who];
    assert who in whos + [who];
  }

  lemma FreshPlain(before: seq<Cmd>, cmds: seq<Cmd>)
    requires FreshRefs(before) && NoDeploy(cmds)
    ensures FreshRefs(before + cmds)
  {
    forall i | 0 <= i < |cmds|
      ensures FreshCmd(cmds[i], before + cmds[..i])
    {
      assert cmds[i] in cmds;
    }
    FreshJoin(before, cmds);
  }

  // ----- creating a timelock

  /** The timelock just created at `t`, before any grant. */
  function Constructed(env: Env, refs: map<string, Address>, tl: TimelockSpec): Tables
    requires RolesResolvable(tl.roles, refs)
  {
    Tables(AsSet(Resolved(tl.roles.proposers, refs)), AsSet(Resolved(tl.roles.cancellers, refs)),
      AsSet(Resolved(tl.roles.bypassers, refs)), {}, {env.deployer})
  }

  lemma CreateSection(first: Address, env: Env, before: seq<Cmd>, s: St, l: Local, tl: TimelockSpec)
    requires Inv(first, env, before, s, l) && FreshAfter(before, CreateCmds(env, tl))
    requires Fold(s, env, l, CreateCmds(env, tl)).1.Done?
    ensures
      var (s', o) := Fold(s, env, l, CreateCmds(env, tl));
      var t, proxy := s.chain.next, ShouldDeployCallProxy(env.callProxies, tl.ref);
      && RolesResolvable(tl.roles, l.refToAddr)
      && s'.chain == s.chain.(tables := s.chain.tables[t := Constructed(env, l.refToAddr, tl)],
                              proxies := if proxy then s.chain.proxies[t + 1 := t] else s.chain.proxies,
                              next := t + Width(env, tl))
      && o.value ==
           Local(l.refToAddr[tl.ref := t], if proxy then t + 1
             else ZERO, {}, [], l.addresses + TimelockAddresses(env, t, tl), l.batchOps)
      && (forall k :: k in s'.reports && k.TransferKey? ==> k in s.reports)
  {
    SwitchedOffMeans(env, tl);
    hide Fold, Step, Inv, RolesResolvable, Constructed, TimelockAddresses, ShouldDeployCallProxy, SwitchedOff, Width,
      McmRefsIn, TimelockRefsIn, ProxyRefsIn;
    var create, deploy, proxy := CreateCmds(env, tl), DeployTimelockCmd(tl), DeployProxyCmd(tl);
    assert FreshCmd(create[0], before + create[..0]) && before + create[..0] == before;
    FoldOne(s, env, l, deploy);
    if ShouldDeployCallProxy(env.callProxies, tl.ref) {
      assert create == [deploy] + [proxy];
      FoldJoin(s, env, l, [deploy], [proxy]);
      var (s1, o1) := Step(s, env, l, deploy);
      TimelockStep(first, env, before, s, l, tl);
      StepKeeps(first, env, before, s, l, deploy);
      FoldOne(s1, env, o1.value, proxy);
      assert FreshCmd(create[1], before + create[..1]) && create[..1] == [deploy];
      ProxyStep(first, env, before + [deploy], s1, o1.value, tl);
      TimelockAddressesAre(env, s.chain.next, tl, l.addresses);
    } else {
      assert create == [deploy];
      TimelockStep(first, env, before, s, l, tl);
      TimelockAddressesAre(env, s.chain.next, tl, l.addresses);
    }
  }

  lemma SwitchedOffMeans(env: Env, tl: TimelockSpec)
    ensures ShouldDeployCallProxy(env.callProxies, tl.ref) <==> !SwitchedOff(env, tl)
    ensures Width(env, tl) == if SwitchedOff(env, tl) then 1 else 2
  {}

  lemma TimelockAddressesAre(env: Env, t: Address, tl: TimelockSpec, addresses: seq<AddressRef>)
    ensures addresses + TimelockAddresses(env, t, tl) ==
      var base := addresses + [NewAddressRef(env.selector, t, TIMELOCK, tl.qualifier, tl.lbl)];
      if ShouldDeployCallProxy(env.callProxies, tl.ref)
        then base + [NewAddressRef(env.selector, t + 1, CALL_PROXY, tl.qualifier, tl.lbl)] else base
  {}

  lemma TimelockStep(first: Address, env: Env, before: seq<Cmd>, s: St, l: Local, tl: TimelockSpec)
    requires Inv(first, env, before, s, l) && FreshCmd(DeployTimelockCmd(tl), before)
    requires Step(s, env, l, DeployTimelockCmd(tl)).1.Done?
    ensures
      var (s', o) := Step(s, env, l, DeployTimelockCmd(tl));
      var t := s.chain.next;
      && RolesResolvable(tl.roles, l.refToAddr)
      && s'.chain == s.chain.(tables := s.chain.tables[t := Constructed(env, l.refToAddr, tl)], next := t + 1)
      && o.value ==
           Local(l.refToAddr[tl.ref := t], ZERO, {}, [], l.addresses
             + [NewAddressRef(env.selector, t, TIMELOCK, tl.qualifier, tl.lbl)], l.batchOps)
      && (forall k :: k in s'.reports && k.TransferKey? ==> k in s.reports)
  {
    KeyFactsIfDo(first, env, before, s, l, DeployTimelockCmd(tl));
  }

  lemma ProxyStep(first: Address, env: Env, before: seq<Cmd>, s: St, l: Local, tl: TimelockSpec)
    requires Inv(first, env, before, s, l) && FreshCmd(DeployProxyCmd(tl), before)
    requires Step(s, env, l, DeployProxyCmd(tl)).1.Done?
    ensures
      var (s', o) := Step(s, env, l, DeployProxyCmd(tl));
      var x := s.chain.next;
      && tl.ref in l.refToAddr
      && s'.chain == s.chain.(proxies := s.chain.proxies[x := l.refToAddr[tl.ref]], next := x + 1)
      && o.value ==
           l.(proxy := x, addresses := l.addresses + [NewAddressRef(env.selector, x, CALL_PROXY, tl.qualifier, tl.lbl)])
      && (forall k :: k in s'.reports && k.TransferKey? ==> k in s.reports)
  {
    KeyFactsIfDo(first, env, before, s, l, DeployProxyCmd(tl));
  }

  lemma KeyFactsIfDo(first: Address, env: Env, cmds: seq<Cmd>, s: St, l: Local, cmd: Cmd)
    requires Inv(first, env, cmds, s, l) && FreshCmd(cmd, cmds) && GoodCmd(cmd)
    ensures Deploys(cmd) && Decide(s.chain, env, l, cmd).Do? ==> Decide(s.chain, env, l, cmd).key !in s.reports
  {
    if Decide(s.chain, env, l, cmd).Do? {
      KeyFacts(first, env, cmds, s, l, cmd);
    }
  }

  // ----- wiring roles

  predicate WiringReady(env: Env, s: St, l: Local, tl: TimelockSpec, t: Address) {
    && tl.ref in l.refToAddr && l.refToAddr[tl.ref] == t && t in s.chain.tables
    && RolesResolvable(tl.roles, l.refToAddr)
    && l.proxy == (if ShouldDeployCallProxy(env.callProxies, tl.ref) then t + 1 else ZERO)
  }

  lemma HolderSet(l: Local, tl: TimelockSpec, holders: seq<RoleHolder>, extra: seq<Grantee>)
    requires Resolvable(holders, l.refToAddr) && AllGrantees(l, tl, extra)
    ensures AllGrantees(l, tl, Holders(holders) + extra)
    ensures GranteeSet(l, tl, Holders(holders) + extra) == AsSet(Resolved(holders, l.refToAddr))
      + GranteeSet(l, tl, extra)
  {
    var whos, addrs := Holders(holders), Resolved(holders, l.refToAddr);
    forall i | 0 <= i < |holders|
      ensures whos[i] in whos && GranteeAddress(l, tl, whos[i]) == Some(addrs[i])
    {
      assert holders[i] in holders;
    }
    forall who | who in whos + extra
      ensures GranteeAddress(l, tl, who).Some? && (who.TheProxy? ==> l.proxy != ZERO)
    {
      if who in whos {
        var i :| 0 <= i < |whos| && whos[i] == who;
      }
    }
    var all, ext := GranteeSet(l, tl, whos + extra), GranteeSet(l, tl, extra);
    forall a
      ensures a in all <==> a in AsSet(addrs) + ext
    {
      if a in AsSet(addrs) {
        var i :| 0 <= i < |addrs| && addrs[i] == a;
        assert whos[i] in whos + extra;
      }
      if a in ext {
        var who :| who in extra && GranteeAddress(l, tl, who).value == a;
        assert who in whos + extra;
      }
      if a in all {
        var who :| who in whos + extra && GranteeAddress(l, tl, who).value == a;
        if who in whos {
          var i :| 0 <= i < |whos| && whos[i] == who;
        }
      }
    }
  }

  /** The chain `base`, on which timelock `t` has the tables `tables`. */
  predicate HasTables(c: Chain, base: Chain, t: Address, tables: Tables) {
    c == base.(tables := base.tables[t := tables])
  }

  /** One role of the wiring: holders, and the proxy or the timelock itself. */
  lemma RoleSection(first: Address, env: Env, before: seq<Cmd>, s: St, l: Local, tl: TimelockSpec, t: Address,
                    base: Chain, tables: Tables,
                    role: Role, holders: seq<RoleHolder>, extra: seq<Grantee>, rest: seq<Cmd>)
    requires Inv(first, env, before, s, l) && FreshRefs(before) && WiringReady(env, s, l, tl, t) && role != Unsupported
    requires HasTables(s.chain, base, t, tables)
    requires Resolvable(holders, l.refToAddr) && AllGrantees(l, tl, extra)
    requires Fold(s, env, l, GrantCmds(tl, role, Holders(holders) + extra) + rest).1.Done?
    ensures
      var cmds := GrantCmds(tl, role, Holders(holders) + extra);
      var (s', o) := Fold(s, env, l, cmds);
      && HasTables(s'.chain, base, t,
           AddAll(tables, role, AsSet(Resolved(holders, l.refToAddr)) + GranteeSet(l, tl, extra)))
      && Inv(first, env, before + cmds, s', l) && FreshRefs(before + cmds) && WiringReady(env, s', l, tl, t)
      && Fold(s, env, l, cmds + rest) == Fold(s', env, l, rest)
  {
    var cmds := GrantCmds(tl, role, Holders(holders) + extra);
    FoldJoin(s, env, l, cmds, rest);
    HolderSet(l, tl, holders, extra);
    GrantSection(first, env, before, s, l, tl, role, Holders(holders) + extra);
  }

  /** All five roles: from the constructed tables to the exact role matrix. */
  lemma RolesSection(first: Address, env: Env, before: seq<Cmd>, s: St, l: Local, tl: TimelockSpec, t: Address,
                     base: Chain)
    requires Inv(first, env, before, s, l) && FreshRefs(before) && WiringReady(env, s, l, tl, t)
    requires HasTables(s.chain, base, t, Constructed(env, l.refToAddr, tl))
    requires Fold(s, env, l, RoleCmds(env, tl)).1.Done?
    ensures
      var (s', o) := Fold(s, env, l, RoleCmds(env, tl));
      o == Done(l) && HasTables(s'.chain, base, t, RoleMatrix(env, l.refToAddr, tl, t))
  {
    hide Fold, Inv, FreshRefs, GrantCmds, HasTables, Constructed, RoleMatrix, AddAll, AsSet, Resolved, GranteeSet,
      Resolvable, Holders;
    var refs := l.refToAddr;
    var p, c, b, e, a :=
      tl.roles.proposers, tl.roles.cancellers, tl.roles.bypassers, tl.roles.executors, tl.roles.admins;
    var proxy := if ShouldDeployCallProxy(env.callProxies, tl.ref) then [TheProxy] else [];
    var none: seq<Grantee> := [];
    RoleCmdsShape(env, tl);
    var gp, gc, gb :=
      GrantCmds(tl, Proposer, Holders(p) + none), GrantCmds(tl, Canceller, Holders(c) + none),
        GrantCmds(tl, Bypasser, Holders(b) + none);
    var ge, ga := GrantCmds(tl, Executor, Holders(e) + proxy), GrantCmds(tl, Admin, Holders(a) + [Itself]);
    var nothing: seq<Cmd> := [];
    var t0 := Constructed(env, refs, tl);
    RoleSection(first, env, before, s, l, tl, t, base, t0, Proposer, p, none, gc + (gb + (ge + (ga + nothing))));
    var s1, t1 := Fold(s, env, l, gp).0, AddAll(t0, Proposer, AsSet(Resolved(p, refs)) + GranteeSet(l, tl, none));
    RoleSection(first, env, before + gp, s1, l, tl, t, base, t1, Canceller, c, none, gb + (ge + (ga + nothing)));
    var s2, t2 := Fold(s1, env, l, gc).0, AddAll(t1, Canceller, AsSet(Resolved(c, refs)) + GranteeSet(l, tl, none));
    RoleSection(first, env, before + gp + gc, s2, l, tl, t, base, t2, Bypasser, b, none, ge + (ga + nothing));
    var s3, t3 := Fold(s2, env, l, gb).0, AddAll(t2, Bypasser, AsSet(Resolved(b, refs)) + GranteeSet(l, tl, none));
    RoleSection(first, env, before + gp + gc + gb, s3, l, tl, t, base, t3, Executor, e, proxy, ga + nothing);
    var s4, t4 := Fold(s3, env, l, ge).0, AddAll(t3, Executor, AsSet(Resolved(e, refs)) + GranteeSet(l, tl, proxy));
    RoleSection(first, env, before + gp + gc + gb + ge, s4, l, tl, t, base, t4, Admin, a, [Itself], nothing);
    FoldNone(Fold(s4, env, l, ga).0, env, l);
    NobodyYet(l, tl);
    OneGrantee(l, tl, Itself);
    OneGrantee(l, tl, TheProxy);
    MatrixReached(env, refs, tl, t);
  }

  lemma RoleCmdsShape(env: Env, tl: TimelockSpec)
    ensures
      var none: seq<Grantee> := [];
      var nothing: seq<Cmd> := [];
      var proxy := if ShouldDeployCallProxy(env.callProxies, tl.ref) then [TheProxy] else [];
      RoleCmds(env, tl) ==
        GrantCmds(tl, Proposer, Holders(tl.roles.proposers) + none)
          + (GrantCmds(tl, Canceller, Holders(tl.roles.cancellers) + none)
        + (GrantCmds(tl, Bypasser, Holders(tl.roles.bypassers) + none)
          + (GrantCmds(tl, Executor, Holders(tl.roles.executors) + proxy)
        + (GrantCmds(tl, Admin, Holders(tl.roles.admins) + [Itself]) + nothing))))
  {
    var none: seq<Grantee> := [];
    var nothing: seq<Cmd> := [];
    assert Holders(tl.roles.proposers) + none == Holders(tl.roles.proposers)
      && Holders(tl.roles.cancellers) + none == Holders(tl.roles.cancellers)
        && Holders(tl.roles.bypassers) + none == Holders(tl.roles.bypassers);
    var ga := GrantCmds(tl, Admin, Holders(tl.roles.admins) + [Itself]);
    assert ga + nothing == ga;
    hide GrantCmds, Holders;
  }

  lemma OneGrantee(l: Local, tl: TimelockSpec, who: Grantee)
    requires GranteeAddress(l, tl, who).Some?
    ensures GranteeSet(l, tl, [who]) == {GranteeAddress(l, tl, who).value}
  {
    assert forall w :: w in [who] <==> w == who;
    assert who in [who];
  }

  lemma MatrixReached(env: Env, refs: map<string, Address>, tl: TimelockSpec, t: Address)
    requires RolesResolvable(tl.roles, refs)
    ensures
      var r := tl.roles;
      var proxy := if ShouldDeployCallProxy(env.callProxies, tl.ref) then {t + 1} else {};
      var t1 := AddAll(Constructed(env, refs, tl), Proposer, AsSet(Resolved(r.proposers, refs)) + {});
      var t2 := AddAll(t1, Canceller, AsSet(Resolved(r.cancellers, refs)) + {});
      var t3 := AddAll(t2, Bypasser, AsSet(Resolved(r.bypassers, refs)) + {});
      var t4 := AddAll(t3, Executor, AsSet(Resolved(r.executors, refs)) + proxy);
      AddAll(t4, Admin, AsSet(Resolved(r.admins, refs)) + {t}) == RoleMatrix(env, refs, tl, t)
  {
    var r := tl.roles;
    var p, c, b :=
      AsSet(Resolved(r.proposers, refs)), AsSet(Resolved(r.cancellers, refs)), AsSet(Resolved(r.bypassers, refs));
    assert p + (p + {}) == p && c + (c + {}) == c && b + (b + {}) == b;
    assert {env.deployer} + (AsSet(Resolved(r.admins, refs)) + {t}) == AsSet(Resolved(r.admins, refs))
      + {env.deployer, t};
  }

  // ----- transferring ownership

  /** Transfers to the timelock at `t` reported so far are of targets seen in this section. */
  predicate TransfersSeen(s: St, env: Env, l: Local, t: Address) {
    forall k :: k in s.reports && k.TransferKey? && k.selector == env.selector && k.to == t ==> k.contract in l.seen
  }

  predicate SectionState(s: St, env: Env, l: Local, tl: TimelockSpec, t: Address) {
    && tl.ref in l.refToAddr && l.refToAddr[tl.ref] == t && t != env.deployer
    && TransfersSeen(s, env, l, t)
  }

  /** Transfer and accept of one target owned by the deployer: the first time it is
      transferred, and if that leaves it pending, noted for acceptance. */
  lemma PairStep(s: St, env: Env, l: Local, tl: TimelockSpec, t: Address, h: RoleHolder)
    requires SectionState(s, env, l, tl, t) && ResolveHolder(h, l.refToAddr).Some?
    requires
      var c := ResolveHolder(h, l.refToAddr).value;
      c in s.chain.ownables && c !in l.seen ==> s.chain.ownables[c].owner == env.deployer
    requires Fold(s, env, l, [TransferCmd(tl, h), AcceptCmd(tl, h)]).1.Done?
    ensures
      var (s', o) := Fold(s, env, l, [TransferCmd(tl, h), AcceptCmd(tl, h)]);
      var c, own := ResolveHolder(h, l.refToAddr).value, s.chain.ownables;
      && (c !in l.seen ==> c in own)
      && o.value == l.(seen := l.seen + {c}, txs := l.txs + if c !in l.seen && own[c].twoStep then [c] else [])
      && s'.chain == s.chain.(ownables := if c in l.seen then own else own[c := Transfer(own[c], env.deployer, t)])
      && SectionState(s', env, o.value, tl, t)
  {
    var x, y := TransferCmd(tl, h), AcceptCmd(tl, h);
    assert [x] + [y] == [x, y];
    FoldJoin(s, env, l, [x], [y]);
    FoldOne(s, env, l, x);
    var (s1, o1) := Step(s, env, l, x);
    if o1.Done? {
      FoldOne(s1, env, o1.value, y);
    }
    hide Fold;
    var c := ResolveHolder(h, l.refToAddr).value;
    if c in l.seen {
      assert l.seen + {c} == l.seen;
      assert l.txs + [] == l.txs;
    } else {
      assert TransferKey(env.selector, c, t) !in s.reports;
      assert l.txs + [] == l.txs;
    }
  }

  predicate DeployerOwns(own: Ownables, env: Env, targets: seq<Address>) {
    forall c :: c in targets && c in own ==> own[c].owner == env.deployer
  }

  lemma {:induction false} PairsSection(s: St, env: Env, l: Local, tl: TimelockSpec, t: Address,
                                        holders: seq<RoleHolder>)
    requires SectionState(s, env, l, tl, t) && l.seen == {} && l.txs == []
    requires Resolvable(holders, l.refToAddr) && DeployerOwns(s.chain.ownables, env, Resolved(holders, l.refToAddr))
    requires Fold(s, env, l, TransferPairs(tl, holders)).1.Done?
    ensures
      var (s', o) := Fold(s, env, l, TransferPairs(tl, holders));
      var targets, own := Resolved(holders, l.refToAddr), s.chain.ownables;
      && (forall c :: c in targets ==> c in own)
      && o.value == l.(seen := AsSet(targets), txs := ToAccept(own, targets))
      && s'.chain == s.chain.(ownables := Handed(own, env.deployer, t, AsSet(targets)))
      && SectionState(s', env, o.value, tl, t)
  {
    hide Fold, SectionState;
    var targets, own := Resolved(holders, l.refToAddr), s.chain.ownables;
    if holders == [] {
      FoldNone(s, env, l);
      assert targets == [] && AsSet(targets) == {};
      assert Handed(own, env.deployer, t, {}) == own;
    } else {
      var rest, h := holders[..|holders| - 1], holders[|holders| - 1];
      assert holders == rest + [h];
      var before, c := Resolved(rest, l.refToAddr), targets[|targets| - 1];
      assert targets == before + [c] && targets[..|targets| - 1] == before;
      FoldJoin(s, env, l, TransferPairs(tl, rest), [TransferCmd(tl, h), AcceptCmd(tl, h)]);
      PairsSection(s, env, l, tl, t, rest);
      var (s1, o1) := Fold(s, env, l, TransferPairs(tl, rest));
      assert c in targets;
      PairStepState(s1, env, o1.value, tl, t, h);
      PairStep(s1, env, o1.value, tl, t, h);
      assert AsSet(targets) == AsSet(before) + {c};
      HandedOneMore(own, env.deployer, t, AsSet(before), c);
    }
  }

  lemma PairStepState(s: St, env: Env, l: Local, tl: TimelockSpec, t: Address, h: RoleHolder)
    requires SectionState(s, env, l, tl, t)
    ensures tl.ref in l.refToAddr
  {}

  lemma HandedOneMore(own: Ownables, deployer: Address, t: Address, targets: set<Address>, c: Address)
    ensures Handed(own, deployer, t, targets + {c}) ==
      var handed := Handed(own, deployer, t, targets);
      if c in targets || c !in own then handed else handed[c := Transfer(own[c], deployer, t)]
  {}

  // ----- a whole timelock

  lemma NothingHanded(own: Ownables, env: Env, t: Address, l: Local, tl: TimelockSpec)
    requires tl.transferOwnership == []
    ensures Resolved(tl.transferOwnership, l.refToAddr) == [] && Handed(own, env.deployer, t, AsSet([])) == own
    ensures l.batchOps + BatchOf(env, own, []) == l.batchOps
  {}

  lemma TransferSection(s: St, env: Env, l: Local, tl: TimelockSpec, t: Address)
    requires SectionState(s, env, l, tl, t) && l.seen == {} && l.txs == []
    requires Resolvable(tl.transferOwnership, l.refToAddr) ==>
      DeployerOwns(s.chain.ownables, env, Resolved(tl.transferOwnership, l.refToAddr))
    requires Fold(s, env, l, TransferCmds(tl)).1.Done?
    ensures
      var (s', o) := Fold(s, env, l, TransferCmds(tl));
      && Resolvable(tl.transferOwnership, l.refToAddr)
      && var targets, own := Resolved(tl.transferOwnership, l.refToAddr), s.chain.ownables;
      && (forall c :: c in targets ==> c in own)
      && o.value.(seen := {}) == l.(batchOps := l.batchOps + BatchOf(env, own, targets))
      && s'.chain == s.chain.(ownables := Handed(own, env.deployer, t, AsSet(targets)))
  {
    hide Fold, SectionState, ToAccept, DeployerOwns, Handed, AsSet;
    if tl.transferOwnership == [] {
      FoldNone(s, env, l);
      NothingHanded(s.chain.ownables, env, t, l, tl);
    } else {
      var pairs := TransferPairs(tl, tl.transferOwnership);
      assert TransferCmds(tl) == [CheckTransfersCmd(tl)] + (pairs + [CloseCmd(tl)]);
      FoldJoin(s, env, l, [CheckTransfersCmd(tl)], pairs + [CloseCmd(tl)]);
      FoldOne(s, env, l, CheckTransfersCmd(tl));
      FoldSnoc(s, env, l, pairs, CloseCmd(tl));
      PairsSection(s, env, l, tl, t, tl.transferOwnership);
    }
  }

  /** Only ownership commands report transfers. */
  lemma {:induction false} NoTransferReported(s: St, env: Env, l: Local, cmds: seq<Cmd>)
    requires forall c :: c in cmds ==> !c.TransferCmd?
    ensures forall k :: k in Fold(s, env, l, cmds).0.reports && k.TransferKey? ==> k in s.reports
  {
    if cmds != [] {
      NoTransferReported(s, env, l, cmds[..|cmds| - 1]);
    }
  }

  lemma RoleCmdsPlain(env: Env, tl: TimelockSpec)
    ensures forall c :: c in RoleCmds(env, tl) ==> c.GrantCmd?
  {}

  /** A validated timelock's holders resolve, and to the same addresses once the
      timelock itself is in the map. */
  lemma TimelockResolves(tl: TimelockSpec, refs: map<string, Address>, declared: set<string>, hasMCMS: bool, t: Address)
    requires ValidTimelock(tl, declared, hasMCMS) && declared <= refs.Keys
    ensures
      var refs' := refs[tl.ref := t];
      && TimelockResolvable(tl, refs) && TimelockResolvable(tl, refs')
      && Resolved(tl.transferOwnership, refs') == Resolved(tl.transferOwnership, refs)
      && Resolved(tl.roles.proposers, refs') == Resolved(tl.roles.proposers, refs)
      && Resolved(tl.roles.cancellers, refs') == Resolved(tl.roles.cancellers, refs)
      && Resolved(tl.roles.bypassers, refs') == Resolved(tl.roles.bypassers, refs)
      && Resolved(tl.roles.executors, refs') == Resolved(tl.roles.executors, refs)
      && Resolved(tl.roles.admins, refs') == Resolved(tl.roles.admins, refs)
  {
    var refs' := refs[tl.ref := t];
    ResolutionStable(tl.transferOwnership, declared, refs, refs');
    ResolutionStable(tl.roles.proposers, declared, refs, refs');
    ResolutionStable(tl.roles.cancellers, declared, refs, refs');
    ResolutionStable(tl.roles.bypassers, declared, refs, refs');
    ResolutionStable(tl.roles.executors, declared, refs, refs');
    ResolutionStable(tl.roles.admins, declared, refs, refs');
  }

  lemma FreshAfterPrefix(p: seq<Cmd>, q: seq<Cmd>, r: seq<Cmd>)
    requires FreshAfter(p, q + r)
    ensures FreshAfter(p, q)
  {
    forall i | 0 <= i < |q|
      ensures FreshCmd(q[i], p + q[..i])
    {
      assert (q + r)[..i] == q[..i] && (q + r)[i] == q[i];
    }
  }

  lemma SectionReady(first: Address, env: Env, before: seq<Cmd>, s: St, l: Local, s2: St, l2: Local, tl: TimelockSpec)
    requires Inv(first, env, before, s, l)
    requires forall k :: k in s2.reports && k.TransferKey? ==> k in s.reports
    requires tl.ref in l2.refToAddr && l2.refToAddr[tl.ref] == s.chain.next
    ensures SectionState(s2, env, l2, tl, s.chain.next)
  {
    forall k | k in s2.reports && k.TransferKey? && k.selector == env.selector
      ensures k.to < s.chain.next
    {
      assert Accounted(k, s.chain, before);
    }
  }

  /** The first half of a timelock: created and its roles wired. */
  lemma WiredPhase(first: Address, env: Env, before: seq<Cmd>, s: St, l: Local, tl: TimelockSpec, declared: set<string>,
                   hasMCMS: bool)
    requires Inv(first, env, before, s, l) && FreshRefs(before) && FreshAfter(before, CreateCmds(env, tl))
    requires ValidTimelock(tl, declared, hasMCMS) && declared <= l.refToAddr.Keys
    requires Fold(s, env, l, CreateCmds(env, tl) + RoleCmds(env, tl)).1.Done?
    ensures
      var (s', o) := Fold(s, env, l, CreateCmds(env, tl) + RoleCmds(env, tl));
      var t, proxy := s.chain.next, ShouldDeployCallProxy(env.callProxies, tl.ref);
      && TimelockResolvable(tl, l.refToAddr)
      && s'.chain == AfterTimelock(s.chain, env, l.refToAddr, tl).(ownables := s.chain.ownables)
      && o.value ==
           Local(l.refToAddr[tl.ref := t], if proxy then t + 1
             else ZERO, {}, [], l.addresses + TimelockAddresses(env, t, tl), l.batchOps)
      && SectionState(s', env, o.value, tl, t)
  {
    var create, roles, t := CreateCmds(env, tl), RoleCmds(env, tl), s.chain.next;
    RoleCmdsPlain(env, tl);
    hide Fold, Inv, RoleCmds, RoleMatrix, FreshRefs, SectionState;
    FoldJoin(s, env, l, create, roles);
    CreateSection(first, env, before, s, l, tl);
    var (s1, o1) := Fold(s, env, l, create);
    var l1 := o1.value;
    FreshJoin(before, create);
    FoldKeeps(first, env, before, s, l, create);
    TimelockResolves(tl, l.refToAddr, declared, hasMCMS, t);
    var base := s1.chain.(tables := s.chain.tables);
    RolesSection(first, env, before + create, s1, l1, tl, t, base);
    NoTransferReported(s1, env, l1, roles);
    SameMatrix(env, l.refToAddr, tl, t);
    SectionReady(first, env, before, s, l, Fold(s1, env, l1, roles).0, l1, tl);
  }

  lemma SameMatrix(env: Env, refs: map<string, Address>, tl: TimelockSpec, t: Address)
    requires TimelockResolvable(tl, refs) && TimelockResolvable(tl, refs[tl.ref := t])
    requires
      var refs' := refs[tl.ref := t];
      && Resolved(tl.roles.proposers, refs') == Resolved(tl.roles.proposers, refs)
      && Resolved(tl.roles.cancellers, refs') == Resolved(tl.roles.cancellers, refs)
      && Resolved(tl.roles.bypassers, refs') == Resolved(tl.roles.bypassers, refs)
      && Resolved(tl.roles.executors, refs') == Resolved(tl.roles.executors, refs)
      && Resolved(tl.roles.admins, refs') == Resolved(tl.roles.admins, refs)
    ensures RoleMatrix(env, refs[tl.ref := t], tl, t) == RoleMatrix(env, refs, tl, t)
  {}

  /** A whole timelock: created, wired, and given its contracts. */
  lemma TimelockPhase(first: Address, env: Env, before: seq<Cmd>, s: St, l: Local, tl: TimelockSpec,
                      declared: set<string>, hasMCMS: bool)
    requires Inv(first, env, before, s, l) && FreshRefs(before) && FreshAfter(before, TimelockCmds(env, tl))
    requires ValidTimelock(tl, declared, hasMCMS) && declared <= l.refToAddr.Keys
    requires Resolvable(tl.transferOwnership, l.refToAddr) ==>
      DeployerOwns(s.chain.ownables, env, Resolved(tl.transferOwnership, l.refToAddr))
    requires Fold(s, env, l, TimelockCmds(env, tl)).1.Done?
    ensures
      var (s', o) := Fold(s, env, l, TimelockCmds(env, tl));
      var t := s.chain.next;
      && TimelockResolvable(tl, l.refToAddr)
      && s'.chain == AfterTimelock(s.chain, env, l.refToAddr, tl)
      && o.value.refToAddr == l.refToAddr[tl.ref := t]
      && o.value.addresses == l.addresses + TimelockAddresses(env, t, tl)
      && o.value.batchOps == l.batchOps + BatchOf(env, s.chain.ownables, Resolved(tl.transferOwnership, l.refToAddr))
      && (forall c :: c in Resolved(tl.transferOwnership, l.refToAddr) ==> c in s.chain.ownables)
      && Inv(first, env, before + TimelockCmds(env, tl), s', o.value) && FreshRefs(before + TimelockCmds(env, tl))
  {
    var create, roles, transfers, t := CreateCmds(env, tl), RoleCmds(env, tl), TransferCmds(tl), s.chain.next;
    var wired := create + roles;
    WiringShape(env, tl);
    assert TimelockCmds(env, tl) == wired + transfers == create + (roles + transfers);
    FreshAfterPrefix(before, create, roles + transfers);
    hide Fold, Inv, RoleCmds, CreateCmds, TransferCmds, FreshRefs, SectionState, FreshAfter, ValidTimelock, RoleMatrix,
      TimelockCmds, WiringCmds;
    FreshJoin(before, TimelockCmds(env, tl));
    GoodTimelock(env, tl);
    FoldKeeps(first, env, before, s, l, TimelockCmds(env, tl));
    FoldJoin(s, env, l, wired, transfers);
    WiredPhase(first, env, before, s, l, tl, declared, hasMCMS);
    TimelockResolves(tl, l.refToAddr, declared, hasMCMS, t);
    var (s1, o1) := Fold(s, env, l, wired);
    TransferSection(s1, env, o1.value, tl, t);
  }

  lemma GoodTimelock(env: Env, tl: TimelockSpec)
    ensures forall c :: c in TimelockCmds(env, tl) ==> GoodCmd(c)
  {
    WiringShape(env, tl);
  }
}
