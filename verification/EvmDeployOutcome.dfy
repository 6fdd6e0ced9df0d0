/** What a run of the fixed-topology deployment leaves, over any store of true
    reports: contracts, configs, role memberships and the transactions sent. */
module EvmDeployOutcome {
  import opened Wrappers
  import opened Evm
  import opened RoleTables
  import opened EvmDeploy

  // ----- what reports tell

  /** A report of deploying a multisig, with or without its config. */
  predicate McmReport(op: OpInput) {
    op.DeployMcmOp? || op.McmWithConfigSeq?
  }

  predicate TrueReport(c: Chain, op: OpInput, a: Address) {
    match op
    case DeployMcmOp(_, _) => a != 0 && a in c.mcms
    case McmWithConfigSeq(_, _, _) => a != 0 && a in c.mcms
    case SetConfigOp(target, _) => target < c.next
    case DeployTimelockOp(_, _, _, _, _, _) => a != 0 && a in c.timelocks
    case DeployProxyOp(_, target) => a != 0 && a in c.proxies && c.proxies[a] == target
    case GrantOp(timelock, _, _) => timelock in c.timelocks
    case GrantRolesSeq(timelock, _) => timelock in c.timelocks
  }

  predicate ValidChain(c: Chain) {
    && c.next > 0
    && (forall a :: a in c.mcms ==> a < c.next)
    && (forall a :: a in c.timelocks ==> a < c.next)
    && (forall a :: a in c.proxies ==> a < c.next)
  }

  /** What holds of every store of true records: what was reported deployed is on the
      chain, multisigs of different kinds at different addresses, and timelocks deployed
      with different arguments too. Everything else may
      have changed since: roles may have been revoked, configs replaced, multisigs
      handed to other owners. */
  predicate Sound(w: World) {
    && ValidChain(w.chain)
    && (forall op :: op in w.reports ==> TrueReport(w.chain, op, w.reports[op]))
    && (forall op, op' ::
          op in w.reports && op' in w.reports && McmReport(op) && McmReport(op') && op.kind != op'.kind ==>
            w.reports[op] != w.reports[op'])
    && (forall op, op' ::
          op in w.reports && op' in w.reports && op.DeployTimelockOp? && op'.DeployTimelockOp? && op != op' ==>
            w.reports[op] != w.reports[op'])
  }

  /** Contracts stay, proxies with their targets. */
  predicate Stays(c: Chain, c': Chain) {
    && c.next <= c'.next
    && c.mcms.Keys <= c'.mcms.Keys && c.timelocks.Keys <= c'.timelocks.Keys
    && (forall a :: a in c.proxies ==> a in c'.proxies && c'.proxies[a] == c.proxies[a])
  }

  predicate TablesKept(c: Chain, c': Chain) {
    forall a :: a in c.timelocks ==> a in c'.timelocks && c'.timelocks[a] == c.timelocks[a]
  }

  lemma SoundStays(w: World, chain: Chain, sent: seq<OpInput>)
    requires Sound(w) && Stays(w.chain, chain) && ValidChain(chain)
    ensures Sound(World(chain, w.reports, sent))
  {}

  lemma SoundReport(w: World, op: OpInput, a: Address)
    requires Sound(w) && TrueReport(w.chain, op, a)
    requires McmReport(op) ==> forall op' :: op' in w.reports && McmReport(op') && op'.kind != op.kind ==>
      w.reports[op'] != a
    requires op.DeployTimelockOp? ==> forall op' :: op' in w.reports && op'.DeployTimelockOp? && op' != op ==>
      w.reports[op'] != a
    ensures Sound(w.(reports := w.reports[op := a]))
  {}

  // ----- deploying one contract

  predicate GrantReport(op: OpInput) {
    op.GrantOp? || op.GrantRolesSeq?
  }

  predicate ReportsKept(w: World, w': World) {
    forall op :: op in w.reports ==> op in w'.reports && w'.reports[op] == w.reports[op]
  }

  /** A step that deploys: it sends no grant, reports none, and changes no table. */
  ghost predicate Deploys(w: World, w': World) {
    && Sound(w') && Stays(w.chain, w'.chain) && TablesKept(w.chain, w'.chain) && ReportsKept(w, w')
    && (forall op: OpInput :: GrantReport(op) ==> (op in w'.reports <==> op in w.reports))
    && w.sent <= w'.sent && (forall op :: op in w'.sent[|w.sent|..] ==> !op.GrantOp?)
  }

  lemma DeploysTogether(w: World, w1: World, w2: World)
    requires Deploys(w, w1) && Deploys(w1, w2)
    ensures Deploys(w, w2)
  {
    assert w2.sent[|w.sent|..] == w1.sent[|w.sent|..] + w2.sent[|w1.sent|..];
  }

  /** Apart from one kind of multisig, at `touched`, no multisig changes, nor what is
      reported about it. */
  ghost predicate OthersUntouched(w: World, w': World, kind: Kind, touched: Option<Address>) {
    && (forall x :: x in w.chain.mcms && touched != Some(x) ==>
          x in w'.chain.mcms && w'.chain.mcms[x] == w.chain.mcms[x])
    && (forall op: OpInput :: McmReport(op) && op.kind != kind ==> SameReport(w, w', op))
    && (forall x: Address, c: Config :: touched != Some(x) ==> SameReport(w, w', SetConfigOp(x, c)))
  }

  predicate SameReport(w: World, w': World, op: OpInput) {
    && (op in w'.reports <==> op in w.reports)
    && (op in w.reports ==> w'.reports[op] == w.reports[op])
  }

  /** A report says that the multisig of this kind is at `a`. */
  ghost predicate ReportedAt(w: World, kind: Kind, a: Address) {
    exists op :: op in w.reports && McmReport(op) && op.kind == kind && w.reports[op] == a
  }

  predicate HoldsConfig(c: Chain, a: Address, config: Config) {
    a in c.mcms && c.mcms[a].config == Some(config)
  }

  /** A report stands in for setting the config on a multisig that now holds another. */
  predicate StaleConfig(w: World, kind: Kind, config: Config, qualifier: string) {
    var whole, deploy := McmWithConfigSeq(kind, config, qualifier), DeployMcmOp(kind, qualifier);
    if whole in w.reports then !HoldsConfig(w.chain, w.reports[whole], config)
    else
      && deploy in w.reports && SetConfigOp(w.reports[deploy], config) in w.reports
      && !HoldsConfig(w.chain, w.reports[deploy], config)
  }

  /** The reported multisig is no longer the deployer's, and no report stands in for
      setting its config. */
  predicate RejectedConfig(w: World, deployer: Address, kind: Kind, config: Config, qualifier: string) {
    var whole, deploy := McmWithConfigSeq(kind, config, qualifier), DeployMcmOp(kind, qualifier);
    && whole !in w.reports && deploy in w.reports
    && SetConfigOp(w.reports[deploy], config) !in w.reports
    && !OwnedBy(w.chain, w.reports[deploy], deployer)
  }

  /** A multisig with its config at `a`, seen from the world the step started in: it
      is the one last reported, or a new one of the deployer's. It holds the config
      unless a stale report stands in for setting it, its owner stays, and no other
      config is newly reported for it. */
  ghost predicate McmPlaced(start: World, w: World, deployer: Address, kind: Kind, a: Address, config: Config,
                            qualifier: string) {
    var whole, deploy := McmWithConfigSeq(kind, config, qualifier), DeployMcmOp(kind, qualifier);
    && whole in w.reports && w.reports[whole] == a && a in w.chain.mcms
    && (HoldsConfig(w.chain, a, config) <==> !StaleConfig(start, kind, config, qualifier))
    && (if whole in start.reports
        then start.reports[whole] == a && a in start.chain.mcms && w.chain.mcms[a] == start.chain.mcms[a]
        else
          && deploy in w.reports && w.reports[deploy] == a
          && if deploy in start.reports
             then start.reports[deploy] == a && a in start.chain.mcms && OwnedBy(w.chain, a, start.chain.mcms[a].owner)
             else start.chain.next <= a && OwnedBy(w.chain, a, deployer))
    && (forall c :: c != config ==> SameReport(start, w, McmWithConfigSeq(kind, c, qualifier)))
    && (forall c :: c != config ==> (SetConfigOp(a, c) in w.reports <==> SetConfigOp(a, c) in start.reports))
  }

  lemma BareMcm(w: World, deployer: Address, kind: Kind, qualifier: string)
    requires Sound(w)
    ensures
      var (w', a) := DeployMcm(w, deployer, kind, qualifier);
      var op := DeployMcmOp(kind, qualifier);
      && Deploys(w, w') && OthersUntouched(w, w', kind, Some(a)) && a in w'.chain.mcms && a != 0
      && op in w'.reports && w'.reports[op] == a
      && (op in w.reports ==> w' == w)
      && (op !in w.reports ==>
            && a == w.chain.next && OwnedBy(w'.chain, a, deployer)
            && (forall c :: SetConfigOp(a, c) !in w'.reports && SetConfigOp(a, c) !in w.reports))
      && (forall r: OpInput :: r != op ==> SameReport(w, w', r))
      && w'.chain.timelocks == w.chain.timelocks
  {
    var op := DeployMcmOp(kind, qualifier);
    if op !in w.reports {
      var w' := DeployMcm(w, deployer, kind, qualifier).0;
      SoundStays(w, w'.chain, w'.sent);
      SoundReport(World(w'.chain, w.reports, w'.sent), op, w.chain.next);
    } else {
      assert w.sent[|w.sent|..] == [];
    }
  }

  lemma ConfigSet(w: World, deployer: Address, kind: Kind, target: Address, config: Config)
    requires Sound(w) && target in w.chain.mcms
    ensures
      var op, o := SetConfigOp(target, config), SetConfig(w, deployer, target, config);
      && (o.None? <==> op !in w.reports && !OwnedBy(w.chain, target, deployer))
      && (o.Some? ==>
            var w' := o.value;
            && Deploys(w, w') && OthersUntouched(w, w', kind, Some(target))
            && OwnedBy(w'.chain, target, w.chain.mcms[target].owner)
            && (forall r: OpInput :: r != op ==> SameReport(w, w', r))
            && (HoldsConfig(w'.chain, target, config) <==> HoldsConfig(w.chain, target, config) || op !in w.reports)
            && w'.chain.timelocks == w.chain.timelocks)
  {
    var op, o := SetConfigOp(target, config), SetConfig(w, deployer, target, config);
    if o.Some? {
      var w' := o.value;
      if op !in w.reports {
        SoundStays(w, w'.chain, w'.sent);
        SoundReport(World(w'.chain, w.reports, w'.sent), op, 0);
      } else {
        assert w.sent[|w.sent|..] == [];
      }
    }
  }

  /** A multisig with its config: the sub-sequence fails, changing nothing, exactly
      when the reported multisig is no longer the deployer's and no report stands in
      for its configuration. Otherwise the multisig ends with the requested config
      exactly when no stale report stands in for setting it. */
  lemma NewMcm(w: World, deployer: Address, kind: Kind, config: Config, qualifier: string)
    requires Sound(w)
    ensures
      var (w', o) := DeployMcmWithConfig(w, deployer, kind, config, qualifier);
      && (o.None? <==> RejectedConfig(w, deployer, kind, config, qualifier))
      && (o.None? ==> w' == w)
      && Deploys(w, w') && w'.chain.timelocks == w.chain.timelocks
      && (o.Some? ==>
            && o.value != 0 && ReportedAt(w', kind, o.value)
            && OthersUntouched(w, w', kind, o)
            && (HoldsConfig(w'.chain, o.value, config) <==> !StaleConfig(w, kind, config, qualifier))
            && McmPlaced(w, w', deployer, kind, o.value, config, qualifier))
  {
    var whole, deploy := McmWithConfigSeq(kind, config, qualifier), DeployMcmOp(kind, qualifier);
    if whole in w.reports {
      assert w.sent[|w.sent|..] == [];
    } else {
      BareMcm(w, deployer, kind, qualifier);
      var (w1, a) := DeployMcm(w, deployer, kind, qualifier);
      ConfigSet(w1, deployer, kind, a, config);
      var o := SetConfig(w1, deployer, a, config);
      if o.Some? {
        hide Deploys, HoldsConfig, DeployMcm, SetConfig, ReportedAt;
        DeploysTogether(w, w1, o.value);
        OthersTogether(w, w1, o.value, kind, a);
        Recorded(w, o.value, whole, deploy, a);
        PlacedNow(w, w1, o.value, deployer, kind, a, config, qualifier);
      }
    }
  }

  lemma PlacedNow(w: World, w1: World, w2: World, deployer: Address, kind: Kind, a: Address, config: Config,
                  qualifier: string)
    requires Sound(w) && McmWithConfigSeq(kind, config, qualifier) !in w.reports
    requires (w1, a) == DeployMcm(w, deployer, kind, qualifier) && a in w1.chain.mcms
    requires
      var op := DeployMcmOp(kind, qualifier);
      && op in w1.reports && w1.reports[op] == a && (op in w.reports ==> w1 == w)
      && (op !in w.reports ==>
            && a == w.chain.next && OwnedBy(w1.chain, a, deployer)
            && (forall c :: SetConfigOp(a, c) !in w1.reports && SetConfigOp(a, c) !in w.reports))
      && (forall r: OpInput :: r != op ==> SameReport(w, w1, r))
    requires
      && OwnedBy(w2.chain, a, w1.chain.mcms[a].owner)
      && (forall r: OpInput :: r != SetConfigOp(a, config) ==> SameReport(w1, w2, r))
      && (HoldsConfig(w2.chain, a, config) <==>
            HoldsConfig(w1.chain, a, config) || SetConfigOp(a, config) !in w1.reports)
    ensures
      var w' := w2.(reports := w2.reports[McmWithConfigSeq(kind, config, qualifier) := a]);
      McmPlaced(w, w', deployer, kind, a, config, qualifier)
  {
    var w' := w2.(reports := w2.reports[McmWithConfigSeq(kind, config, qualifier) := a]);
    var deploy := DeployMcmOp(kind, qualifier);
    assert SameReport(w1, w2, deploy);
    assert deploy in w.reports ==> TrueReport(w.chain, deploy, w.reports[deploy]);
    hide DeployMcm, Sound;
    forall c | c != config
      ensures SameReport(w, w', McmWithConfigSeq(kind, c, qualifier))
      ensures SetConfigOp(a, c) in w'.reports <==> SetConfigOp(a, c) in w.reports
    {
      assert SameReport(w, w1, McmWithConfigSeq(kind, c, qualifier));
      assert SameReport(w1, w2, McmWithConfigSeq(kind, c, qualifier));
      assert SameReport(w, w1, SetConfigOp(a, c)) && SameReport(w1, w2, SetConfigOp(a, c));
    }
  }

  lemma OthersTogether(w: World, w1: World, w2: World, kind: Kind, a: Address)
    requires OthersUntouched(w, w1, kind, Some(a)) && OthersUntouched(w1, w2, kind, Some(a))
    ensures OthersUntouched(w, w2, kind, Some(a))
  {}

  /** Recording the sequence once its operations are. */
  lemma Recorded(w: World, w2: World, whole: OpInput, deploy: OpInput, a: Address)
    requires Deploys(w, w2) && whole.McmWithConfigSeq? && deploy.DeployMcmOp? && whole.kind == deploy.kind
    requires whole !in w.reports
    requires deploy in w2.reports && w2.reports[deploy] == a && a != 0 && a in w2.chain.mcms
    requires OthersUntouched(w, w2, whole.kind, Some(a))
    ensures
      var w' := w2.(reports := w2.reports[whole := a]);
      Deploys(w, w') && OthersUntouched(w, w', whole.kind, Some(a)) && ReportedAt(w', whole.kind, a)
  {
    var w' := w2.(reports := w2.reports[whole := a]);
    SoundReport(w2, whole, a);
    assert whole in w'.reports && w'.reports[whole] == a;
  }

  lemma NewTimelock(w: World, input: Input, proposer: Address, canceller: Address, bypasser: Address)
    requires Sound(w)
    ensures
      var (w', a) := DeployTimelock(w, input, proposer, canceller, bypasser);
      var op := TimelockOp(input, proposer, canceller, bypasser);
      && Deploys(w, w') && OthersUntouched(w, w', Timelock, None)
      && a != 0 && a in w'.chain.timelocks && op in w'.reports && w'.reports[op] == a
      && (a !in w.chain.timelocks ==>
            w'.chain.timelocks[a] == NewTables(input.deployer, proposer, canceller, bypasser))
  {
    var op := TimelockOp(input, proposer, canceller, bypasser);
    if op in w.reports {
      assert w.sent[|w.sent|..] == [];
    } else {
      var (w', a) := DeployTimelock(w, input, proposer, canceller, bypasser);
      SoundStays(w, w'.chain, w'.sent);
      SoundReport(World(w'.chain, w.reports, w'.sent), op, a);
    }
  }

  lemma NewProxy(w: World, qualifier: string, timelock: Address)
    requires Sound(w)
    ensures
      var (w', a) := DeployCallProxy(w, qualifier, timelock);
      && Deploys(w, w') && OthersUntouched(w, w', CallProxy, None) && a != 0
      && a in w'.chain.proxies && w'.chain.proxies[a] == timelock
      && DeployProxyOp(qualifier, timelock) in w'.reports && w'.reports[DeployProxyOp(qualifier, timelock)] == a
      && w'.chain.timelocks == w.chain.timelocks
  {
    var op := DeployProxyOp(qualifier, timelock);
    if op in w.reports {
      assert w.sent[|w.sent|..] == [];
    } else {
      var (w', a) := DeployCallProxy(w, qualifier, timelock);
      SoundStays(w, w'.chain, w'.sent);
      SoundReport(World(w'.chain, w.reports, w'.sent), op, a);
    }
  }

  predicate IsMcm(kind: Kind) {
    kind in {BypasserMcm, CancellerMcm, ProposerMcm}
  }

  function ConfigFor(input: Input, kind: Kind): Config {
    match kind
    case BypasserMcm => input.bypasser
    case CancellerMcm => input.canceller
    case _ => input.proposer
  }

  predicate Rejected(w: World, input: Input, kind: Kind) {
    IsMcm(kind) && RejectedConfig(w, input.deployer, kind, ConfigFor(input, kind), input.qualifier)
  }

  /** What a newly deployed contract is worth: a multisig has its requested config
      exactly when that was not stale on `start`; a timelock is on the chain, as
      constructed if it is new; a proxy points at the timelock. All are reported. */
  ghost predicate Placed(start: World, w: World, input: Input, addrs: Addresses, kind: Kind)
    requires forall k: Kind :: k in addrs
  {
    var a := addrs[kind];
    && (IsMcm(kind) ==> McmPlaced(start, w, input.deployer, kind, a, ConfigFor(input, kind), input.qualifier))
    && (kind == Timelock ==>
          && Reports(w, TimelockOp(input, addrs[ProposerMcm], addrs[CancellerMcm], addrs[BypasserMcm]), a)
          && a in w.chain.timelocks
          && (a !in start.chain.timelocks ==>
                w.chain.timelocks[a] ==
                  NewTables(input.deployer, addrs[ProposerMcm], addrs[CancellerMcm], addrs[BypasserMcm])))
    && (kind == CallProxy ==>
          && Reports(w, DeployProxyOp(input.qualifier, addrs[Timelock]), a)
          && a in w.chain.proxies && w.chain.proxies[a] == addrs[Timelock])
  }

  predicate Reports(w: World, op: OpInput, a: Address) {
    op in w.reports && w.reports[op] == a
  }

  lemma DeployKindOutcome(w: World, input: Input, addrs: Addresses, kind: Kind)
    requires Sound(w) && forall k: Kind :: k in addrs
    ensures
      var (w', o) := DeployKind(w, input, addrs, kind);
      && (o.None? <==> Rejected(w, input, kind))
      && Deploys(w, w')
      && (o.None? ==> w' == w)
      && (kind != Timelock ==> w'.chain.timelocks == w.chain.timelocks)
      && (o.Some? ==>
            && o.value != 0
            && OthersUntouched(w, w', kind, if IsMcm(kind) then o else None)
            && Placed(w, w', input, addrs[kind := o.value], kind))
  {
    hide Deploys, OthersUntouched, ReportedAt, HoldsConfig, StaleConfig, RejectedConfig, McmPlaced;
    hide DeployMcmWithConfig, DeployTimelock, DeployCallProxy;
    match kind {
      case Timelock => NewTimelock(w, input, addrs[ProposerMcm], addrs[CancellerMcm], addrs[BypasserMcm]);
      case CallProxy => NewProxy(w, input.qualifier, addrs[Timelock]);
      case BypasserMcm => NewMcm(w, input.deployer, kind, input.bypasser, input.qualifier);
      case CancellerMcm => NewMcm(w, input.deployer, kind, input.canceller, input.qualifier);
      case ProposerMcm => NewMcm(w, input.deployer, kind, input.proposer, input.qualifier);
    }
  }

  function NewRefs(ds: DataStore, input: Input, addrs: Addresses, n: nat): seq<AddressRef>
    requires n <= |KINDS| && forall k: Kind :: k in addrs
  {
    if n == 0 then []
    else
      var kind := KINDS[n - 1];
      NewRefs(ds, input, addrs, n - 1) + if Known(ds, input, kind) == 0 then [NewRef(input, kind, addrs[kind])] else []
  }

  lemma {:induction false} NewRefsFrame(ds: DataStore, input: Input, addrs: Addresses, addrs': Addresses, n: nat)
    requires n <= |KINDS| && (forall k: Kind :: k in addrs && k in addrs')
    requires forall i :: 0 <= i < n ==> addrs[KINDS[i]] == addrs'[KINDS[i]]
    ensures NewRefs(ds, input, addrs, n) == NewRefs(ds, input, addrs', n)
  {
    if n > 0 {
      NewRefsFrame(ds, input, addrs, addrs', n - 1);
    }
  }

  lemma KindsApart(n: nat)
    requires n < |KINDS|
    ensures forall i :: 0 <= i < |KINDS| && i != n ==> KINDS[i] != KINDS[n]
  {
    assert KINDS == [BypasserMcm, CancellerMcm, ProposerMcm, Timelock, CallProxy];
  }

  // ----- deploying what is missing

  /** Multisigs reported for different kinds are different. */
  lemma ReportedApart(w: World, kind: Kind, a: Address, other: Kind, b: Address)
    requires Sound(w) && ReportedAt(w, kind, a) && ReportedAt(w, other, b) && kind != other
    ensures a != b && a in w.chain.mcms && b in w.chain.mcms
  {
    var op :| op in w.reports && McmReport(op) && op.kind == kind && w.reports[op] == a;
    var op' :| op' in w.reports && McmReport(op') && op'.kind == other && w.reports[op'] == b;
    assert TrueReport(w.chain, op, a) && TrueReport(w.chain, op', b);
  }

  lemma OtherAt(w: World, w': World, kind: Kind, touched: Option<Address>, op: OpInput)
    requires Sound(w) && Sound(w') && OthersUntouched(w, w', kind, touched)
    requires op in w.reports && McmReport(op) && op.kind != kind
    requires touched.Some? ==> ReportedAt(w', kind, touched.value)
    ensures
      var a := w.reports[op];
      && touched != Some(a) && a in w.chain.mcms && a in w'.chain.mcms && w'.chain.mcms[a] == w.chain.mcms[a]
      && op in w'.reports && w'.reports[op] == a
  {
    var a := w.reports[op];
    assert TrueReport(w.chain, op, a) && op in w'.reports && w'.reports[op] == a;
    if touched.Some? {
      assert ReportedAt(w', op.kind, a);
      ReportedApart(w', kind, touched.value, op.kind, a);
    }
  }

  /** Neither the reports about this kind of multisig change nor the multisigs they
      are about. */
  ghost predicate KindUntouched(w: World, w': World, kind: Kind) {
    forall op: OpInput :: McmReport(op) && op.kind == kind ==>
      && SameReport(w, w', op)
      && (op in w.reports ==> SameMcm(w, w', w.reports[op]))
  }

  ghost predicate SameMcm(w: World, w': World, a: Address) {
    && a in w.chain.mcms && a in w'.chain.mcms && w'.chain.mcms[a] == w.chain.mcms[a]
    && forall c: Config :: SameReport(w, w', SetConfigOp(a, c))
  }

  /** Deploying one kind leaves the other kinds untouched. */
  lemma OtherKind(w: World, w': World, kind: Kind, touched: Option<Address>, other: Kind)
    requires Sound(w) && Sound(w') && OthersUntouched(w, w', kind, touched) && other != kind
    requires touched.Some? ==> ReportedAt(w', kind, touched.value)
    ensures KindUntouched(w, w', other)
  {
    forall op: OpInput | McmReport(op) && op.kind == other && op in w.reports
      ensures SameMcm(w, w', w.reports[op])
    {
      OtherAt(w, w', kind, touched, op);
    }
  }

  lemma UntouchedTogether(w: World, w1: World, w2: World, kind: Kind)
    requires KindUntouched(w, w1, kind) && KindUntouched(w1, w2, kind)
    ensures KindUntouched(w, w2, kind)
  {
    forall op: OpInput | McmReport(op) && op.kind == kind
      ensures SameReport(w, w2, op) && (op in w.reports ==> SameMcm(w, w2, w.reports[op]))
    {
      assert SameReport(w, w1, op) && SameReport(w1, w2, op);
      if op in w.reports {
        MeansSame(w, w1, w2, w.reports[op]);
      }
    }
  }

  lemma MeansSame(w: World, w1: World, w2: World, a: Address)
    requires SameMcm(w, w1, a) && SameMcm(w1, w2, a)
    ensures SameMcm(w, w2, a)
  {
    forall c: Config
      ensures SameReport(w, w2, SetConfigOp(a, c))
    {
      assert SameReport(w, w1, SetConfigOp(a, c)) && SameReport(w1, w2, SetConfigOp(a, c));
    }
  }

  /** Whether a config is stale or rejected only depends on its own kind. */
  lemma SameVerdict(w: World, w': World, kind: Kind, deployer: Address, config: Config, qualifier: string)
    requires KindUntouched(w, w', kind)
    ensures StaleConfig(w', kind, config, qualifier) <==> StaleConfig(w, kind, config, qualifier)
    ensures RejectedConfig(w', deployer, kind, config, qualifier) <==>
      RejectedConfig(w, deployer, kind, config, qualifier)
  {
    var whole, deploy := McmWithConfigSeq(kind, config, qualifier), DeployMcmOp(kind, qualifier);
    assert SameReport(w, w', whole) && SameReport(w, w', deploy);
    if deploy in w.reports {
      assert SameReport(w, w', SetConfigOp(w.reports[deploy], config));
    }
  }

  /** What a step on an untouched kind leaves, seen from further back. */
  lemma PlacedSince(start: World, w: World, w': World, deployer: Address, kind: Kind, a: Address, config: Config,
                    qualifier: string)
    requires Sound(w) && Deploys(start, w) && KindUntouched(start, w, kind)
    requires McmPlaced(w, w', deployer, kind, a, config, qualifier)
    ensures McmPlaced(start, w', deployer, kind, a, config, qualifier)
  {
    SameVerdict(start, w, kind, deployer, config, qualifier);
    var whole, deploy := McmWithConfigSeq(kind, config, qualifier), DeployMcmOp(kind, qualifier);
    assert SameReport(start, w, whole) && SameReport(start, w, deploy);
    if whole in start.reports {
      assert SameMcm(start, w, start.reports[whole]);
    } else if deploy in start.reports {
      assert SameMcm(start, w, start.reports[deploy]);
    }
    forall c
      ensures SetConfigOp(a, c) in w.reports <==> SetConfigOp(a, c) in start.reports
    {
      var op := SetConfigOp(a, c);
      if whole in start.reports || deploy in start.reports {
        assert SameReport(start, w, op);
      } else {
        assert op in w.reports ==> TrueReport(w.chain, op, w.reports[op]);
        assert op in start.reports ==> op in w.reports;
      }
    }
    hide StaleConfig, RejectedConfig, Sound, HoldsConfig;
    forall c | c != config
      ensures SameReport(start, w', McmWithConfigSeq(kind, c, qualifier))
    {
      assert SameReport(start, w, McmWithConfigSeq(kind, c, qualifier));
    }
  }

  /** After the first `n` kinds: those are there, the others as in the datastore, one
      new ref for each that was missing, each new contract in its place; or one of
      them was rejected. */
  ghost predicate Reached(w: World, ds: DataStore, input: Input, n: nat, p: Progress)
    requires n <= |KINDS| && forall k: Kind :: k in p.addrs
  {
    && Deploys(w, p.world)
    && (forall k: Kind :: Known(ds, input, k) != 0 ==> p.addrs[k] == Known(ds, input, k))
    && (p.rejected <==> exists i :: 0 <= i < n && Known(ds, input, KINDS[i]) == 0 && Rejected(w, input, KINDS[i]))
    && (!p.rejected ==>
          && (forall i :: 0 <= i < n ==> p.addrs[KINDS[i]] != 0)
          && (forall i :: n <= i < |KINDS| ==> p.addrs[KINDS[i]] == Known(ds, input, KINDS[i]))
          && p.out == NewRefs(ds, input, p.addrs, n)
          && (n <= 3 || Known(ds, input, Timelock) != 0 ==> p.world.chain.timelocks == w.chain.timelocks)
          && (forall i :: 0 <= i < n && Known(ds, input, KINDS[i]) == 0 ==>
                Placed(w, p.world, input, p.addrs, KINDS[i]))
          && (forall i :: n <= i < |KINDS| ==> KindUntouched(w, p.world, KINDS[i])))
  }

  lemma PlacedIsReported(start: World, w: World, deployer: Address, kind: Kind, a: Address, config: Config,
                         qualifier: string)
    requires McmPlaced(start, w, deployer, kind, a, config, qualifier)
    ensures ReportedAt(w, kind, a)
  {
    var whole := McmWithConfigSeq(kind, config, qualifier);
    assert whole in w.reports && McmReport(whole) && whole.kind == kind && w.reports[whole] == a;
  }

  /** A placed contract stays so while a later kind is deployed. */
  lemma PlacedStays(start: World, w: World, w': World, input: Input, addrs: Addresses, n: nat, i: nat, a: Address)
    requires (forall k: Kind :: k in addrs) && i < n < |KINDS| && Sound(w) && Deploys(w, w')
    requires OthersUntouched(w, w', KINDS[n], if IsMcm(KINDS[n]) then Some(a) else None)
    requires IsMcm(KINDS[n]) ==> ReportedAt(w', KINDS[n], a)
    requires Placed(start, w, input, addrs, KINDS[i])
    ensures Placed(start, w', input, addrs[KINDS[n] := a], KINDS[i])
  {
    KindsApart(n);
    var kind, other := KINDS[n], KINDS[i];
    assert KINDS == [BypasserMcm, CancellerMcm, ProposerMcm, Timelock, CallProxy];
    if IsMcm(other) {
      OtherKind(w, w', kind, if IsMcm(kind) then Some(a) else None, other);
      hide Deploys, OthersUntouched, ReportedAt, Sound;
      McmStaysPlaced(start, w, w', input.deployer, other, addrs[other], ConfigFor(input, other), input.qualifier);
    }
  }

  lemma McmStaysPlaced(start: World, w: World, w': World, deployer: Address, kind: Kind, a: Address, config: Config,
                       qualifier: string)
    requires KindUntouched(w, w', kind) && McmPlaced(start, w, deployer, kind, a, config, qualifier)
    ensures McmPlaced(start, w', deployer, kind, a, config, qualifier)
  {
    hide StaleConfig;
    var whole, deploy := McmWithConfigSeq(kind, config, qualifier), DeployMcmOp(kind, qualifier);
    assert SameReport(w, w', whole) && SameReport(w, w', deploy) && SameMcm(w, w', a);
    forall c | c != config
      ensures SameReport(start, w', McmWithConfigSeq(kind, c, qualifier))
      ensures SetConfigOp(a, c) in w'.reports <==> SetConfigOp(a, c) in start.reports
    {
      assert SameReport(w, w', McmWithConfigSeq(kind, c, qualifier));
      assert SameReport(w, w', SetConfigOp(a, c));
    }
  }

  lemma DeployOneMore(w: World, ds: DataStore, input: Input, n: nat, p: Progress)
    requires n < |KINDS| && (forall k: Kind :: k in p.addrs) && Reached(w, ds, input, n, p)
    ensures Reached(w, ds, input, n + 1, DeployIfNeeded(p, input, KINDS[n]))
  {
    hide DeployKind, Known, NewRef, NewRefs, Placed, OthersUntouched, ReportedAt, KindUntouched, Rejected;
    var kind := KINDS[n];
    if !p.rejected {
      KindsApart(n);
      NewRefsOneMore(ds, input, p.addrs, n);
      if Known(ds, input, kind) == 0 {
        var (world, o) := DeployKind(p.world, input, p.addrs, kind);
        DeployKindOutcome(p.world, input, p.addrs, kind);
        SameRejection(w, p.world, input, kind);
        if o.Some? {
          var addrs := p.addrs[kind := o.value];
          DeploysTogether(w, p.world, world);
          NewRefsFrame(ds, input, p.addrs, addrs, n);
          NewRefsOneMore(ds, input, addrs, n);
          PlacedOneMore(w, ds, input, n, p);
        }
      }
    }
  }

  lemma SameRejection(w: World, w': World, input: Input, kind: Kind)
    requires KindUntouched(w, w', kind)
    ensures Rejected(w', input, kind) <==> Rejected(w, input, kind)
  {
    SameVerdict(w, w', kind, input.deployer, ConfigFor(input, kind), input.qualifier);
    hide RejectedConfig, KindUntouched;
  }

  lemma PlacedOneMore(w: World, ds: DataStore, input: Input, n: nat, p: Progress)
    requires n < |KINDS| && (forall k: Kind :: k in p.addrs) && Reached(w, ds, input, n, p)
    requires !p.rejected && Known(ds, input, KINDS[n]) == 0
    requires DeployKind(p.world, input, p.addrs, KINDS[n]).1.Some?
    ensures
      var (w', o) := DeployKind(p.world, input, p.addrs, KINDS[n]);
      var addrs := p.addrs[KINDS[n] := o.value];
      && (forall i :: 0 <= i <= n && Known(ds, input, KINDS[i]) == 0 ==> Placed(w, w', input, addrs, KINDS[i]))
      && (forall i :: n < i < |KINDS| ==> KindUntouched(w, w', KINDS[i]))
  {
    hide DeployKind, Known, NewRef, NewRefs, OthersUntouched, ReportedAt, KindUntouched, McmPlaced, Rejected, Sound;
    var kind := KINDS[n];
    var (w', o) := DeployKind(p.world, input, p.addrs, kind);
    var addrs := p.addrs[kind := o.value];
    DeployKindOutcome(p.world, input, p.addrs, kind);
    assert KINDS == [BypasserMcm, CancellerMcm, ProposerMcm, Timelock, CallProxy];
    if IsMcm(kind) {
      PlacedIsReported(p.world, w', input.deployer, kind, o.value, ConfigFor(input, kind), input.qualifier);
      PlacedSince(w, p.world, w', input.deployer, kind, o.value, ConfigFor(input, kind), input.qualifier);
    }
    assert Placed(w, w', input, addrs, kind);
    forall i | 0 <= i < n && Known(ds, input, KINDS[i]) == 0
      ensures Placed(w, w', input, addrs, KINDS[i])
    {
      PlacedStays(w, p.world, w', input, p.addrs, n, i, o.value);
    }
    forall i | n < i < |KINDS|
      ensures KindUntouched(w, w', KINDS[i])
    {
      KindsApart(n);
      OtherKind(p.world, w', kind, if IsMcm(kind) then o else None, KINDS[i]);
      UntouchedTogether(w, p.world, w', KINDS[i]);
    }
  }

  lemma NewRefsOneMore(ds: DataStore, input: Input, addrs: Addresses, n: nat)
    requires n < |KINDS| && forall k: Kind :: k in addrs
    ensures NewRefs(ds, input, addrs, n + 1) ==
      if Known(ds, input, KINDS[n]) == 0 then NewRefs(ds, input, addrs, n) + [NewRef(input, KINDS[n], addrs[KINDS[n]])]
      else NewRefs(ds, input, addrs, n)
  {}

  lemma {:induction false} DeployMissingOutcome(w: World, ds: DataStore, input: Input, n: nat)
    requires Sound(w) && n <= |KINDS|
    ensures Reached(w, ds, input, n, DeployMissing(w, ds, input, n))
  {
    hide Sound, StaleConfig, Known, NewRef, Placed, Rejected;
    if n > 0 {
      DeployMissingOutcome(w, ds, input, n - 1);
      DeployOneMore(w, ds, input, n - 1, DeployMissing(w, ds, input, n - 1));
    } else {
      assert w.sent[|w.sent|..] == [];
      UntouchedYet(w);
    }
  }

  lemma UntouchedYet(w: World)
    requires Sound(w)
    ensures forall kind: Kind :: KindUntouched(w, w, kind)
  {
    forall op: OpInput | McmReport(op) && op in w.reports
      ensures SameMcm(w, w, w.reports[op])
    {
      assert TrueReport(w.chain, op, w.reports[op]);
    }
  }

  // ----- grants

  type Memberships = set<(Role, Address)>

  function Pairs(role: Role, accounts: seq<Address>): Memberships {
    set a | a in accounts :: (role, a)
  }

  function Asked(grants: Grants): Memberships {
    set g, a | g in grants && a in g.1 :: (g.0, a)
  }

  predicate NoRepeats(ops: seq<OpInput>) {
    forall i, j :: 0 <= i < j < |ops| ==> ops[i] != ops[j]
  }

  /** Granting `asked` on a timelock, for all but reported grants: exactly what is
      asked and not reported becomes a membership; exactly what is newly reported is
      sent, once; and what is newly reported is what is asked and not already held,
      or an admin grant, since admins are not read. */
  ghost predicate Granted(w: World, w': World, tl: Address, asked: Memberships) {
    && Sound(w') && tl in w.chain.timelocks && tl in w'.chain.timelocks
    && w'.chain == w.chain.(timelocks := w.chain.timelocks[tl := w'.chain.timelocks[tl]])
    && (forall r: Role, a: Address :: a in w'.chain.timelocks[tl].Get(r) <==>
          a in w.chain.timelocks[tl].Get(r) || ((r, a) in asked && GrantOp(tl, r, a) !in w.reports))
    && (forall op: OpInput :: op in w'.reports <==> op in w.reports || NewGrant(w, tl, asked, op))
    && ReportsKept(w, w')
    && w.sent <= w'.sent && NoRepeats(w'.sent[|w.sent|..])
    && (forall op :: op in w'.sent[|w.sent|..] <==> op in w'.reports && op !in w.reports)
  }

  predicate NewGrant(w: World, tl: Address, asked: Memberships, op: OpInput)
    requires tl in w.chain.timelocks
  {
    op.GrantOp? && op.timelock == tl && (op.role, op.account) in asked
      && (op.role == Admin || op.account !in w.chain.timelocks[tl].Get(op.role))
  }

  /** The members read at the start of a role are members, and those since are reported. */
  predicate StillRead(w: World, tl: Address, role: Role, existing: set<Address>)
    requires tl in w.chain.timelocks
  {
    if role == Admin then existing == {}
    else
      existing <= w.chain.timelocks[tl].Get(role)
      && forall a :: a in w.chain.timelocks[tl].Get(role) && a !in existing ==> GrantOp(tl, role, a) in w.reports
  }

  lemma NothingGranted(w: World, tl: Address)
    requires Sound(w) && tl in w.chain.timelocks
    ensures Granted(w, w, tl, {})
  {
    assert w.sent[|w.sent|..] == [];
  }

  lemma GrantOutcome(w: World, deployer: Address, tl: Address, role: Role, a: Address)
    requires Sound(w) && tl in w.chain.timelocks && deployer in w.chain.timelocks[tl].admins && role != Unsupported
    requires role == Admin || a !in w.chain.timelocks[tl].Get(role) || GrantOp(tl, role, a) in w.reports
    ensures Granted(w, Grant(w, deployer, tl, role, a), tl, {(role, a)})
  {
    var op, w' := GrantOp(tl, role, a), Grant(w, deployer, tl, role, a);
    if op in w.reports {
      assert w.sent[|w.sent|..] == [];
      assert w.chain.timelocks[tl := w.chain.timelocks[tl]] == w.chain.timelocks;
    } else {
      assert w'.sent[|w.sent|..] == [op];
      SoundStays(w, w'.chain, w'.sent);
      SoundReport(World(w'.chain, w.reports, w'.sent), op, 0);
    }
  }

  lemma HeldAlready(w: World, tl: Address, role: Role, a: Address)
    requires Sound(w) && tl in w.chain.timelocks && role != Admin && a in w.chain.timelocks[tl].Get(role)
    ensures Granted(w, w, tl, {(role, a)})
  {
    assert w.sent[|w.sent|..] == [];
    assert w.chain.timelocks[tl := w.chain.timelocks[tl]] == w.chain.timelocks;
  }

  lemma GrantedTogether(w: World, w1: World, w2: World, tl: Address, asked: Memberships, more: Memberships)
    requires Granted(w, w1, tl, asked) && Granted(w1, w2, tl, more)
    ensures Granted(w, w2, tl, asked + more)
  {
    ReportedTogether(w, w1, w2, tl, asked, more);
    SentTogether(w, w1, w2, tl, asked, more);
    HeldTogether(w, w1, w2, tl, asked, more);
    hide Sound, NewGrant, NoRepeats;
  }

  lemma HeldTogether(w: World, w1: World, w2: World, tl: Address, asked: Memberships, more: Memberships)
    requires Granted(w, w1, tl, asked) && Granted(w1, w2, tl, more)
    ensures forall r: Role, a: Address ::
      a in w2.chain.timelocks[tl].Get(r) <==>
        a in w.chain.timelocks[tl].Get(r) || ((r, a) in asked + more && GrantOp(tl, r, a) !in w.reports)
  {
    hide Sound, NoRepeats, ReportsKept;
    forall r: Role, a: Address
      ensures
        a in w2.chain.timelocks[tl].Get(r) <==>
          a in w.chain.timelocks[tl].Get(r) || ((r, a) in asked + more && GrantOp(tl, r, a) !in w.reports)
    {
      var op := GrantOp(tl, r, a);
      assert op in w1.reports <==> op in w.reports || NewGrant(w, tl, asked, op);
    }
  }

  lemma ReportedTogether(w: World, w1: World, w2: World, tl: Address, asked: Memberships, more: Memberships)
    requires Granted(w, w1, tl, asked) && Granted(w1, w2, tl, more)
    ensures forall op: OpInput :: op in w2.reports <==> op in w.reports || NewGrant(w, tl, asked + more, op)
  {
    hide Sound, NoRepeats;
    forall op: OpInput
      ensures op in w2.reports <==> op in w.reports || NewGrant(w, tl, asked + more, op)
    {
      assert op in w1.reports <==> op in w.reports || NewGrant(w, tl, asked, op);
    }
  }

  lemma SentTogether(w: World, w1: World, w2: World, tl: Address, asked: Memberships, more: Memberships)
    requires Granted(w, w1, tl, asked) && Granted(w1, w2, tl, more)
    ensures w.sent <= w2.sent && NoRepeats(w2.sent[|w.sent|..])
    ensures forall op :: op in w2.sent[|w.sent|..] <==> op in w2.reports && op !in w.reports
  {
    hide Sound, NewGrant;
    var first, second := w1.sent[|w.sent|..], w2.sent[|w1.sent|..];
    assert w2.sent[|w.sent|..] == first + second;
    forall i, j | 0 <= i < j < |first + second|
      ensures (first + second)[i] != (first + second)[j]
    {
      if i < |first| <= j {
        assert first[i] in first && second[j - |first|] in second;
      }
    }
  }

  lemma {:induction false} GrantEachOutcome(w: World, deployer: Address, tl: Address, role: Role,
                                            existing: set<Address>, accounts: seq<Address>)
    requires Sound(w) && tl in w.chain.timelocks && deployer in w.chain.timelocks[tl].admins && role != Unsupported
    requires StillRead(w, tl, role, existing)
    ensures
      var w' := GrantEach(w, deployer, tl, role, existing, accounts);
      && Granted(w, w', tl, Pairs(role, accounts)) && StillRead(w', tl, role, existing)
      && deployer in w'.chain.timelocks[tl].admins
  {
    hide Granted, Grant, StillRead, Sound;
    if accounts == [] {
      NothingGranted(w, tl);
      assert Pairs(role, accounts) == {};
    } else {
      var rest, a := accounts[..|accounts| - 1], accounts[|accounts| - 1];
      assert accounts == rest + [a];
      GrantEachOutcome(w, deployer, tl, role, existing, rest);
      var w1 := GrantEach(w, deployer, tl, role, existing, rest);
      GrantedSound(w, w1, tl, Pairs(role, rest));
      OneGrant(w1, deployer, tl, role, existing, a);
      var w2 := GrantEach(w, deployer, tl, role, existing, accounts);
      GrantedTogether(w, w1, w2, tl, Pairs(role, rest), {(role, a)});
      assert Pairs(role, accounts) == Pairs(role, rest) + {(role, a)};
    }
  }

  lemma GrantedSound(w: World, w': World, tl: Address, asked: Memberships)
    requires Granted(w, w', tl, asked)
    ensures Sound(w') && tl in w.chain.timelocks && tl in w'.chain.timelocks
    ensures w.chain.timelocks[tl].admins <= w'.chain.timelocks[tl].admins
  {
    forall a | a in w.chain.timelocks[tl].Get(Admin)
      ensures a in w'.chain.timelocks[tl].Get(Admin)
    {}
    assert forall a :: a in w.chain.timelocks[tl].admins ==> a in w.chain.timelocks[tl].Get(Admin);
  }

  lemma OneGrant(w: World, deployer: Address, tl: Address, role: Role, existing: set<Address>, a: Address)
    requires Sound(w) && tl in w.chain.timelocks && deployer in w.chain.timelocks[tl].admins && role != Unsupported
    requires StillRead(w, tl, role, existing)
    ensures
      var w' := if a in existing then w else Grant(w, deployer, tl, role, a);
      Granted(w, w', tl, {(role, a)}) && StillRead(w', tl, role, existing) && deployer in w'.chain.timelocks[tl].admins
  {
    if a in existing {
      HeldAlready(w, tl, role, a);
    } else {
      GrantOutcome(w, deployer, tl, role, a);
      GrantedSound(w, Grant(w, deployer, tl, role, a), tl, {(role, a)});
    }
  }

  lemma {:induction false} GrantAllOutcome(w: World, deployer: Address, tl: Address, grants: Grants)
    requires Sound(w) && tl in w.chain.timelocks && deployer in w.chain.timelocks[tl].admins
    requires forall g :: g in grants ==> g.0 != Unsupported
    ensures
      var w' := GrantAll(w, deployer, tl, grants);
      Granted(w, w', tl, Asked(grants)) && deployer in w'.chain.timelocks[tl].admins
  {
    hide Granted, Sound, StillRead;
    if grants == [] {
      NothingGranted(w, tl);
      assert Asked(grants) == {};
    } else {
      var rest, g := grants[..|grants| - 1], grants[|grants| - 1];
      assert grants == rest + [g];
      GrantAllOutcome(w, deployer, tl, rest);
      var w1 := GrantAll(w, deployer, tl, rest);
      GrantedSound(w, w1, tl, Asked(rest));
      ReadNow(w1, tl, g.0);
      GrantEachOutcome(w1, deployer, tl, g.0, Inspect(w1.chain, tl, g.0), g.1);
      var w2 := GrantAll(w, deployer, tl, grants);
      GrantedTogether(w, w1, w2, tl, Asked(rest), Pairs(g.0, g.1));
      AskedOneMore(rest, g);
    }
  }

  lemma ReadNow(w: World, tl: Address, role: Role)
    requires tl in w.chain.timelocks
    ensures StillRead(w, tl, role, Inspect(w.chain, tl, role))
  {}

  lemma AskedOneMore(rest: Grants, g: (Role, seq<Address>))
    ensures Asked(rest + [g]) == Asked(rest) + Pairs(g.0, g.1)
  {
    assert forall h :: h in rest + [g] <==> h in rest || h == g;
  }

  // ----- the wiring of the topology

  /** The memberships the topology needs. */
  function Required(addrs: Addresses): Memberships
    requires forall k: Kind :: k in addrs
  {
    {(Proposer, addrs[ProposerMcm]),
     (Canceller, addrs[ProposerMcm]), (Canceller, addrs[CancellerMcm]), (Canceller, addrs[BypasserMcm]),
     (Bypasser, addrs[BypasserMcm]), (Executor, addrs[CallProxy]), (Admin, addrs[Timelock])}
  }

  predicate Held(tables: Tables, m: (Role, Address)) {
    m.1 in tables.Get(m.0)
  }

  predicate Wired(tables: Tables, addrs: Addresses)
    requires forall k: Kind :: k in addrs
  {
    forall m :: m in Required(addrs) ==> Held(tables, m)
  }

  lemma RoleGrantsAre(addrs: Addresses, isAdmin: bool)
    requires forall k: Kind :: k in addrs
    ensures Asked(RoleGrants(addrs, isAdmin)) == Required(addrs) - if isAdmin then {(Admin, addrs[Timelock])} else {}
    ensures forall g :: g in RoleGrants(addrs, isAdmin) ==> g.0 != Unsupported
  {
    RoleGrantsList(addrs);
    hide RoleGrants;
    var (p, c, b, x, t) :=
      (addrs[ProposerMcm], addrs[CancellerMcm], addrs[BypasserMcm], addrs[CallProxy], addrs[Timelock]);
    hide Asked, Pairs;
    AskedFour((Proposer, [p]), (Canceller, [p, c, b]), (Bypasser, [b]), (Executor, [x]));
    AskedOneMore(RoleGrants(addrs, true), (Admin, [t]));
    PairsOfOne(Proposer, p);
    PairsOfOne(Bypasser, b);
    PairsOfOne(Executor, x);
    PairsOfOne(Admin, t);
    PairsOfThree(Canceller, p, c, b);
  }

  lemma RoleGrantsList(addrs: Addresses)
    requires forall k: Kind :: k in addrs
    ensures
      var (p, c, b, x) := (addrs[ProposerMcm], addrs[CancellerMcm], addrs[BypasserMcm], addrs[CallProxy]);
      && RoleGrants(addrs, true) == [(Proposer, [p]), (Canceller, [p, c, b]), (Bypasser, [b]), (Executor, [x])]
      && RoleGrants(addrs, false) == RoleGrants(addrs, true) + [(Admin, [addrs[Timelock]])]
    ensures forall g, isAdmin :: g in RoleGrants(addrs, isAdmin) ==> g.0 != Unsupported
  {}

  lemma AskedFour(g1: (Role, seq<Address>), g2: (Role, seq<Address>), g3: (Role, seq<Address>),
                  g4: (Role, seq<Address>))
    ensures Asked([g1, g2, g3, g4]) == Pairs(g1.0, g1.1) + Pairs(g2.0, g2.1) + Pairs(g3.0, g3.1) + Pairs(g4.0, g4.1)
  {
    AskedOneMore([], g1);
    AskedOneMore([g1], g2);
    AskedOneMore([g1, g2], g3);
    AskedOneMore([g1, g2, g3], g4);
    var none: Grants := [];
    assert none + [g1] == [g1] && [g1] + [g2] == [g1, g2] && [g1, g2] + [g3] == [g1, g2, g3]
      && [g1, g2, g3] + [g4] == [g1, g2, g3, g4];
    assert Asked(none) == {};
    hide Asked, Pairs;
  }

  lemma PairsOfOne(role: Role, a: Address)
    ensures Pairs(role, [a]) == {(role, a)}
  {}

  lemma PairsOfThree(role: Role, a: Address, b: Address, c: Address)
    ensures Pairs(role, [a, b, c]) == {(role, a), (role, b), (role, c)}
  {}

  /** A required membership that this run will grant: not held, and no report stands
      in for it. */
  predicate Missing(w: World, input: Input, addrs: Addresses, m: (Role, Address))
    requires forall k: Kind :: k in addrs
  {
    var tl := addrs[Timelock];
    && tl in w.chain.timelocks && input.deployer in w.chain.timelocks[tl].admins
    && m in Required(addrs) && !Held(w.chain.timelocks[tl], m)
    && GrantRolesSeq(tl, RoleGrants(addrs, tl in w.chain.timelocks[tl].admins)) !in w.reports
    && GrantOp(tl, m.0, m.1) !in w.reports
  }

  /** The grants of a run: it sends exactly the missing ones, each once, and they are
      exactly the new memberships. */
  lemma GrantsOutcome(w: World, input: Input, addrs: Addresses)
    requires Sound(w) && forall k: Kind :: k in addrs
    ensures
      var tl := addrs[Timelock];
      var o := GrantTimelockRoles(w, input, addrs);
      && (o.Some? <==> tl in w.chain.timelocks)
      && (o.Some? ==>
            var w' := o.value;
            && Sound(w') && tl in w'.chain.timelocks
            && w'.chain == w.chain.(timelocks := w.chain.timelocks[tl := w'.chain.timelocks[tl]])
            && (forall m: (Role, Address) :: Held(w'.chain.timelocks[tl], m) <==>
                  Held(w.chain.timelocks[tl], m) || Missing(w, input, addrs, m))
            && w.sent <= w'.sent && NoRepeats(w'.sent[|w.sent|..])
            && (forall op :: op in w'.sent[|w.sent|..] <==>
                  op.GrantOp? && op.timelock == tl && Missing(w, input, addrs, (op.role, op.account))))
  {
    var tl := addrs[Timelock];
    if tl in w.chain.timelocks {
      var isAdmin := tl in w.chain.timelocks[tl].admins;
      var grants := RoleGrants(addrs, isAdmin);
      if input.deployer !in w.chain.timelocks[tl].admins || GrantRolesSeq(tl, grants) in w.reports {
        assert w.sent[|w.sent|..] == [];
        assert w.chain.timelocks[tl := w.chain.timelocks[tl]] == w.chain.timelocks;
      } else {
        RoleGrantsAre(addrs, isAdmin);
        GrantAllOutcome(w, input.deployer, tl, grants);
        var w1 := GrantAll(w, input.deployer, tl, grants);
        SoundReport(w1, GrantRolesSeq(tl, grants), 0);
        hide GrantAll, RoleGrants, Sound, Asked;
        GrantedAsMissing(w, w1, input, addrs);
      }
    }
  }

  /** The grants lose no report, add only their own, and report what they send. */
  lemma GrantsRecorded(w: World, input: Input, addrs: Addresses)
    requires Sound(w) && (forall k: Kind :: k in addrs) && addrs[Timelock] in w.chain.timelocks
    ensures
      var o := GrantTimelockRoles(w, input, addrs);
      && o.Some? && ReportsKept(w, o.value) && w.sent <= o.value.sent
      && (forall op: OpInput :: !GrantReport(op) ==> SameReport(w, o.value, op))
      && (forall op :: op in o.value.sent[|w.sent|..] ==> op in o.value.reports)
  {
    var tl := addrs[Timelock];
    var isAdmin := tl in w.chain.timelocks[tl].admins;
    var grants := RoleGrants(addrs, isAdmin);
    if input.deployer !in w.chain.timelocks[tl].admins || GrantRolesSeq(tl, grants) in w.reports {
      assert w.sent[|w.sent|..] == [];
    } else {
      RoleGrantsAre(addrs, isAdmin);
      GrantAllOutcome(w, input.deployer, tl, grants);
      hide GrantAll, RoleGrants, Sound, Asked, Granted;
      AllRecorded(w, GrantAll(w, input.deployer, tl, grants), tl, Asked(grants), grants);
    }
  }

  lemma AllRecorded(w: World, w1: World, tl: Address, asked: Memberships, grants: Grants)
    requires Granted(w, w1, tl, asked) && GrantRolesSeq(tl, grants) !in w.reports
    ensures
      var w' := w1.(reports := w1.reports[GrantRolesSeq(tl, grants) := 0]);
      && ReportsKept(w, w') && w.sent <= w'.sent
      && (forall op: OpInput :: !GrantReport(op) ==> SameReport(w, w', op))
      && (forall op :: op in w'.sent[|w.sent|..] ==> op in w'.reports)
  {
    hide Sound, NoRepeats;
  }

  lemma GrantedAsMissing(w: World, w1: World, input: Input, addrs: Addresses)
    requires forall k: Kind :: k in addrs
    requires addrs[Timelock] in w.chain.timelocks && input.deployer in w.chain.timelocks[addrs[Timelock]].admins
    requires
      var tl := addrs[Timelock];
      var isAdmin := tl in w.chain.timelocks[tl].admins;
      && GrantRolesSeq(tl, RoleGrants(addrs, isAdmin)) !in w.reports
      && Granted(w, w1, tl, Required(addrs) - if isAdmin then {(Admin, tl)} else {})
    ensures
      var tl := addrs[Timelock];
      && (forall m: (Role, Address) :: Held(w1.chain.timelocks[tl], m) <==>
            Held(w.chain.timelocks[tl], m) || Missing(w, input, addrs, m))
      && (forall op :: op in w1.sent[|w.sent|..] <==>
            op.GrantOp? && op.timelock == tl && Missing(w, input, addrs, (op.role, op.account)))
  {
    var tl := addrs[Timelock];
    var tables := w.chain.timelocks[tl];
    var asked := Required(addrs) - if tl in tables.admins then {(Admin, tl)} else {};
    OnlyAdmin(addrs);
    hide Sound, RoleGrants, Required;
    forall m: (Role, Address)
      ensures Held(w1.chain.timelocks[tl], m) <==> Held(tables, m) || Missing(w, input, addrs, m)
    {
      assert (m.0, m.1) == m;
      assert m == (Admin, tl) ==> (Held(tables, m) <==> tl in tables.admins);
    }
    forall op
      ensures op in w1.sent[|w.sent|..] <==>
        op.GrantOp? && op.timelock == tl && Missing(w, input, addrs, (op.role, op.account))
    {
      assert op in w1.sent[|w.sent|..] <==> NewGrant(w, tl, asked, op) && op !in w.reports;
      if op.GrantOp? && op.role == Admin {
        assert Held(tables, (Admin, tl)) <==> tl in tables.admins;
      }
    }
  }

  /** The only required admin is the timelock. */
  lemma OnlyAdmin(addrs: Addresses)
    requires forall k: Kind :: k in addrs
    ensures forall a :: (Admin, a) in Required(addrs) ==> a == addrs[Timelock]
  {}

  // ----- the run

  /** A report stands in for granting the membership. */
  predicate StandsIn(reports: map<OpInput, Address>, tables: Tables, addrs: Addresses, m: (Role, Address))
    requires forall k: Kind :: k in addrs
  {
    GrantRolesSeq(addrs[Timelock], RoleGrants(addrs, addrs[Timelock] in tables.admins)) in reports
      || GrantOp(addrs[Timelock], m.0, m.1) in reports
  }

  /** From any subset of the five, the zero addresses being the missing ones, over
      any store of true records: a run succeeds exactly when no ref is ambiguous, no
      missing multisig's reported contract is another's with its configuration
      unreported, and a known timelock can be read. It then has non-zero addresses,
      returns one ref per missing kind and nothing for the others, and a new proxy
      points at the timelock. A new multisig has its config exactly when no stale
      report stands in for setting it; where the deployer is admin, the timelock is
      wired exactly when no report stands in for granting what is not held; a timelock
      new to the chain always is. */
  lemma RunOutcome(w: World, ds: DataStore, input: Input)
    requires Sound(w)
    ensures
      var (w', r) := Run(w, ds, input);
      var p := DeployMissing(w, ds, input, |KINDS|);
      var tl := p.addrs[Timelock];
      && (r.Success? <==>
            && Unambiguous(ds, input)
            && (forall k: Kind :: Known(ds, input, k) == 0 ==> !Rejected(w, input, k))
            && (Known(ds, input, Timelock) == 0 || tl in w.chain.timelocks))
      && Sound(w')
      && (forall k: Kind :: Known(ds, input, k) != 0 ==> p.addrs[k] == Known(ds, input, k))
      && (r.Success? ==>
            && (forall k: Kind :: p.addrs[k] != 0)
            && r.value == NewRefs(ds, input, p.addrs, |KINDS|)
            && (forall k: Kind :: IsMcm(k) && Known(ds, input, k) == 0 ==>
                  (HoldsConfig(w'.chain, p.addrs[k], ConfigFor(input, k)) <==>
                     !StaleConfig(w, k, ConfigFor(input, k), input.qualifier)))
            && (Known(ds, input, CallProxy) == 0 ==>
                  p.addrs[CallProxy] in w'.chain.proxies && w'.chain.proxies[p.addrs[CallProxy]] == tl)
            && tl in p.world.chain.timelocks && tl in w'.chain.timelocks
            && (tl in w.chain.timelocks ==> p.world.chain.timelocks[tl] == w.chain.timelocks[tl])
            && (input.deployer in p.world.chain.timelocks[tl].admins ==>
                  (Wired(w'.chain.timelocks[tl], p.addrs) <==>
                     forall m :: m in Required(p.addrs) ==>
                       || Held(p.world.chain.timelocks[tl], m)
                       || !StandsIn(w.reports, p.world.chain.timelocks[tl], p.addrs, m)))
            && (tl !in w.chain.timelocks ==> Wired(w'.chain.timelocks[tl], p.addrs)))
  {
    DeployMissingOutcome(w, ds, input, |KINDS|);
    var p := DeployMissing(w, ds, input, |KINDS|);
    Rejections(w, ds, input, p);
    hide DeployMissing, Sound, Reached, StaleConfig, Required, HoldsConfig, Known, Filter, NewRefs, Rejected, McmPlaced;
    if !p.rejected {
      EachKind(w, ds, input, p);
      GrantsOutcome(p.world, input, p.addrs);
      if p.addrs[Timelock] in p.world.chain.timelocks {
        WiredIff(w, p.world, input, p.addrs);
        NoStandIn(w, p.world.chain.timelocks[p.addrs[Timelock]], p.addrs);
      }
      ConfigsPlaced(w, p.world, Run(w, ds, input).0, ds, input, p.addrs);
    }
  }

  lemma Rejections(w: World, ds: DataStore, input: Input, p: Progress)
    requires (forall k: Kind :: k in p.addrs) && Reached(w, ds, input, |KINDS|, p)
    ensures Sound(p.world)
    ensures p.rejected <==> exists k: Kind :: Known(ds, input, k) == 0 && Rejected(w, input, k)
    ensures forall k: Kind :: Known(ds, input, k) != 0 ==> p.addrs[k] == Known(ds, input, k)
  {
    AllKinds();
    hide Known, NewRefs, Placed, Rejected, Sound;
    forall k: Kind | Known(ds, input, k) == 0 && Rejected(w, input, k)
      ensures p.rejected
    {
      assert k in KINDS;
      var i :| 0 <= i < |KINDS| && KINDS[i] == k;
    }
  }

  /** The grants change no multisig. */
  lemma ConfigsPlaced(w: World, before: World, w': World, ds: DataStore, input: Input, addrs: Addresses)
    requires forall k: Kind :: k in addrs
    requires forall k: Kind :: Known(ds, input, k) == 0 ==> Placed(w, before, input, addrs, k)
    ensures
      w'.chain.mcms == before.chain.mcms ==>
        forall k: Kind :: IsMcm(k) && Known(ds, input, k) == 0 ==>
          (HoldsConfig(w'.chain, addrs[k], ConfigFor(input, k)) <==>
             !StaleConfig(w, k, ConfigFor(input, k), input.qualifier))
  {
    hide Known, StaleConfig;
  }

  /** What was reached, kind by kind. */
  lemma EachKind(w: World, ds: DataStore, input: Input, p: Progress)
    requires (forall k: Kind :: k in p.addrs) && Reached(w, ds, input, |KINDS|, p) && !p.rejected
    ensures forall k: Kind :: p.addrs[k] != 0 && (Known(ds, input, k) == 0 ==> Placed(w, p.world, input, p.addrs, k))
    ensures Deploys(w, p.world) && p.out == NewRefs(ds, input, p.addrs, |KINDS|)
    ensures Known(ds, input, Timelock) != 0 ==> p.world.chain.timelocks == w.chain.timelocks
  {
    AllKinds();
    hide Known, NewRefs, Placed, StaleConfig, Deploys, Rejected;
    forall k: Kind
      ensures p.addrs[k] != 0 && (Known(ds, input, k) == 0 ==> Placed(w, p.world, input, p.addrs, k))
    {
      assert k in KINDS;
      var i :| 0 <= i < |KINDS| && KINDS[i] == k;
    }
  }

  /** What a run deploys is placed after the whole run as well, and no report is lost. */
  lemma RunPlaces(w: World, ds: DataStore, input: Input)
    requires Sound(w) && Run(w, ds, input).1.Success?
    ensures
      var w' := Run(w, ds, input).0;
      var p := DeployMissing(w, ds, input, |KINDS|);
      && !p.rejected && ReportsKept(w, w') && Sound(p.world) && p.addrs[Timelock] in p.world.chain.timelocks
      && GrantTimelockRoles(p.world, input, p.addrs) == Some(w')
      && (forall k: Kind :: Known(ds, input, k) == 0 ==> Placed(w, p.world, input, p.addrs, k))
      && (forall k: Kind :: IsMcm(k) && Known(ds, input, k) == 0 ==>
            McmPlaced(w, w', input.deployer, k, p.addrs[k], ConfigFor(input, k), input.qualifier))
      && (forall op: OpInput :: !GrantReport(op) ==> SameReport(p.world, w', op))
  {
    DeployMissingOutcome(w, ds, input, |KINDS|);
    var p := DeployMissing(w, ds, input, |KINDS|);
    Rejections(w, ds, input, p);
    hide DeployMissing, Sound, Reached, Known, Filter, NewRefs, Rejected, McmPlaced, StaleConfig;
    EachKind(w, ds, input, p);
    GrantsOutcome(p.world, input, p.addrs);
    GrantsRecorded(p.world, input, p.addrs);
    var w' := Run(w, ds, input).0;
    forall k: Kind | IsMcm(k) && Known(ds, input, k) == 0
      ensures McmPlaced(w, w', input.deployer, k, p.addrs[k], ConfigFor(input, k), input.qualifier)
    {
      PlacedAfterGrants(w, p.world, w', input.deployer, k, p.addrs[k], ConfigFor(input, k), input.qualifier);
    }
  }

  lemma PlacedAfterGrants(start: World, w: World, w': World, deployer: Address, kind: Kind, a: Address, config: Config,
                          qualifier: string)
    requires McmPlaced(start, w, deployer, kind, a, config, qualifier) && w'.chain.mcms == w.chain.mcms
    requires forall op: OpInput :: !GrantReport(op) ==> SameReport(w, w', op)
    ensures McmPlaced(start, w', deployer, kind, a, config, qualifier)
  {
    hide StaleConfig;
    var whole, deploy := McmWithConfigSeq(kind, config, qualifier), DeployMcmOp(kind, qualifier);
    assert SameReport(w, w', whole) && SameReport(w, w', deploy);
    forall c | c != config
      ensures SameReport(start, w', McmWithConfigSeq(kind, c, qualifier))
      ensures SetConfigOp(a, c) in w'.reports <==> SetConfigOp(a, c) in start.reports
    {
      assert SameReport(w, w', McmWithConfigSeq(kind, c, qualifier));
      assert SameReport(w, w', SetConfigOp(a, c));
    }
  }

  lemma WiredIff(w: World, before: World, input: Input, addrs: Addresses)
    requires (forall k: Kind :: k in addrs) && Deploys(w, before) && addrs[Timelock] in before.chain.timelocks
    ensures
      var tables := before.chain.timelocks[addrs[Timelock]];
      input.deployer in tables.admins ==>
      ((forall m :: m in Required(addrs) ==> Held(tables, m) || Missing(before, input, addrs, m))
      <==> forall m :: m in Required(addrs) ==> Held(tables, m) || !StandsIn(w.reports, tables, addrs, m))
  {
    hide Required, RoleGrants, Held, Sound;
    var tables := before.chain.timelocks[addrs[Timelock]];
    assert input.deployer in tables.admins ==> forall m :: m in Required(addrs) && !Held(tables, m) ==>
      (Missing(before, input, addrs, m) <==> !StandsIn(w.reports, tables, addrs, m));
  }

  lemma NoStandIn(w: World, tables: Tables, addrs: Addresses)
    requires Sound(w) && forall k: Kind :: k in addrs
    ensures addrs[Timelock] !in w.chain.timelocks ==> forall m :: !StandsIn(w.reports, tables, addrs, m)
  {}
}
