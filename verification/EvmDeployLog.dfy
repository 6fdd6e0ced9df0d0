/** The fixed topology to the letter: which datastore refs count, which transactions a
    run sends with which arguments, which refs it returns, and the tables of a timelock
    new to the chain. */
module EvmDeployLog {
  import opened Wrappers
  import opened Evm
  import opened RoleTables
  import opened EvmDeploy
  import opened EvmDeployOutcome

  // ----- the datastore

  predicate RefersTo(ref: AddressRef, input: Input, kind: Kind) {
    ref.selector == input.selector && ref.kind == kind && ref.version == "1.0.0" && ref.qualifier == input.qualifier
  }

  ghost predicate Clash(ds: DataStore, input: Input, kind: Kind) {
    exists i, j :: 0 <= i < j < |ds| && RefersTo(ds[i], input, kind) && RefersTo(ds[j], input, kind)
  }

  lemma {:induction false} FilterIs(ds: DataStore, input: Input, kind: Kind)
    ensures
      var refs := Filter(ds, input.selector, kind, input.qualifier);
      && (forall ref :: ref in refs <==> ref in ds && RefersTo(ref, input, kind))
      && (|refs| > 1 <==> Clash(ds, input, kind))
  {
    if ds != [] {
      var n := |ds| - 1;
      FilterIs(ds[..n], input, kind);
      assert ds == ds[..n] + [ds[n]];
      ClashOneMore(ds[..n], input, kind, ds[n]);
      hide Clash;
      var refs := Filter(ds[..n], input.selector, kind, input.qualifier);
      assert refs != [] ==> refs[0] in refs;
    }
  }

  lemma ClashOneMore(ds: DataStore, input: Input, kind: Kind, ref: AddressRef)
    ensures Clash(ds + [ref], input, kind) <==>
      Clash(ds, input, kind) || (RefersTo(ref, input, kind) && exists r :: r in ds && RefersTo(r, input, kind))
  {
    hide RefersTo;
    var all := ds + [ref];
    if Clash(all, input, kind) {
      var i, j :| 0 <= i < j < |all| && RefersTo(all[i], input, kind) && RefersTo(all[j], input, kind);
      assert ds[i] in ds;
    }
    if Clash(ds, input, kind) {
      var i, j :| 0 <= i < j < |ds| && RefersTo(ds[i], input, kind) && RefersTo(ds[j], input, kind);
      assert all[i] == ds[i] && all[j] == ds[j];
    } else if r :| r in ds && RefersTo(r, input, kind) && RefersTo(ref, input, kind) {
      var i :| 0 <= i < |ds| && ds[i] == r;
      assert all[i] == r && all[|ds|] == ref;
    }
  }

  /** A ref counts when chain, type, version and qualifier are as asked, the empty
      qualifier included. The datastore is accepted when no two count for one type, and
      then a type is known at the address of its ref, or not at all. */
  lemma LookupIs(ds: DataStore, input: Input)
    ensures Unambiguous(ds, input) <==> forall kind: Kind :: !Clash(ds, input, kind)
    ensures Unambiguous(ds, input) ==> forall kind: Kind ::
      if exists ref :: ref in ds && RefersTo(ref, input, kind)
      then exists ref :: ref in ds && RefersTo(ref, input, kind) && Known(ds, input, kind) == ref.address
      else Known(ds, input, kind) == 0
  {
    forall kind: Kind
      ensures |Filter(ds, input.selector, kind, input.qualifier)| > 1 <==> Clash(ds, input, kind)
    {
      FilterIs(ds, input, kind);
    }
    if Unambiguous(ds, input) {
      forall kind: Kind
        ensures
          if exists ref :: ref in ds && RefersTo(ref, input, kind)
          then exists ref :: ref in ds && RefersTo(ref, input, kind) && Known(ds, input, kind) == ref.address
          else Known(ds, input, kind) == 0
      {
        FilterIs(ds, input, kind);
        var refs := Filter(ds, input.selector, kind, input.qualifier);
        if |refs| == 1 {
          assert refs[0] in refs;
        }
      }
    }
  }

  // ----- what is sent

  function McmLog(w: World, input: Input, kind: Kind, a: Address, config: Config): seq<OpInput> {
    if McmWithConfigSeq(kind, config, input.qualifier) in w.reports then []
    else
      (if DeployMcmOp(kind, input.qualifier) in w.reports then [] else [DeployMcmOp(kind, input.qualifier)])
      + if SetConfigOp(a, config) in w.reports then [] else [SetConfigOp(a, config)]
  }

  /** The transactions for a missing contract, given where all contracts are in the end:
      unless reported, a multisig is deployed and its config set; a timelock is deployed
      with the configured delay, the deployer as admin, the proposer to propose, all
      three to cancel and the bypasser to bypass; and a proxy with the timelock as target. */
  function LogFor(w: World, input: Input, addrs: Addresses, kind: Kind): seq<OpInput>
    requires forall k: Kind :: k in addrs
  {
    var (b, c, p) := (addrs[BypasserMcm], addrs[CancellerMcm], addrs[ProposerMcm]);
    match kind
    case BypasserMcm => McmLog(w, input, BypasserMcm, b, input.bypasser)
    case CancellerMcm => McmLog(w, input, CancellerMcm, c, input.canceller)
    case ProposerMcm => McmLog(w, input, ProposerMcm, p, input.proposer)
    case Timelock =>
      var op := DeployTimelockOp(input.qualifier, input.minDelay, input.deployer, [p], [c, p, b], [b]);
      if op in w.reports then [] else [op]
    case CallProxy =>
      var op := DeployProxyOp(input.qualifier, addrs[Timelock]);
      if op in w.reports then [] else [op]
  }

  /** The first `n` kinds: bypasser, canceller, proposer, timelock, call proxy. */
  function Log(w: World, ds: DataStore, input: Input, addrs: Addresses, n: nat): seq<OpInput>
    requires n <= 5 && forall k: Kind :: k in addrs
  {
    if n == 0 then []
    else
      var kind := [BypasserMcm, CancellerMcm, ProposerMcm, Timelock, CallProxy][n - 1];
      Log(w, ds, input, addrs, n - 1) + if Known(ds, input, kind) == 0 then LogFor(w, input, addrs, kind) else []
  }

  /** No report of deploying a timelock, or a call proxy, comes or goes. */
  ghost predicate TimelocksAlike(w: World, w': World) {
    forall op: OpInput :: op.DeployTimelockOp? ==> SameReport(w, w', op)
  }

  ghost predicate ProxiesAlike(w: World, w': World) {
    forall op: OpInput :: op.DeployProxyOp? ==> SameReport(w, w', op)
  }

  lemma KindLog(w: World, input: Input, addrs: Addresses, kind: Kind)
    requires Sound(w) && forall k: Kind :: k in addrs
    ensures
      var (w', o) := DeployKind(w, input, addrs, kind);
      && (o.None? ==> w'.sent == w.sent)
      && (o.Some? ==> w'.sent == w.sent + LogFor(w, input, addrs[kind := o.value], kind))
      && (kind != Timelock ==> TimelocksAlike(w, w')) && (kind != CallProxy ==> ProxiesAlike(w, w'))
  {
    var (w', o) := DeployKind(w, input, addrs, kind);
    match kind {
      case Timelock =>
      case CallProxy =>
      case BypasserMcm => McmIsLogged(w, input, kind, input.bypasser);
      case CancellerMcm => McmIsLogged(w, input, kind, input.canceller);
      case ProposerMcm => McmIsLogged(w, input, kind, input.proposer);
    }
    hide Sound, McmLog, DeployMcmWithConfig;
  }

  lemma McmIsLogged(w: World, input: Input, kind: Kind, config: Config)
    requires Sound(w)
    ensures
      var (w', o) := DeployMcmWithConfig(w, input.deployer, kind, config, input.qualifier);
      && (o.None? ==> w' == w)
      && (o.Some? ==> w'.sent == w.sent + McmLog(w, input, kind, o.value, config))
      && TimelocksAlike(w, w') && ProxiesAlike(w, w')
  {
    NoConfigYet(w, config);
    hide Sound;
    var op, a := DeployMcmOp(kind, input.qualifier), w.chain.next;
    assert w.sent + [op] + [SetConfigOp(a, config)] == w.sent + ([op] + [SetConfigOp(a, config)]);
  }

  lemma NoConfigYet(w: World, config: Config)
    requires Sound(w)
    ensures SetConfigOp(w.chain.next, config) !in w.reports
  {
    var op := SetConfigOp(w.chain.next, config);
    assert op in w.reports ==> TrueReport(w.chain, op, w.reports[op]);
  }

  /** What decides the transactions for a kind does not change while others are deployed. */
  lemma LogAlike(w: World, w': World, input: Input, addrs: Addresses, kind: Kind)
    requires (forall k: Kind :: k in addrs) && Sound(w) && Sound(w') && Deploys(w, w') && KindUntouched(w, w', kind)
    requires kind == Timelock ==> TimelocksAlike(w, w')
    requires kind == CallProxy ==> ProxiesAlike(w, w')
    requires IsMcm(kind) ==>
      McmReported(w', kind, ConfigFor(input, kind), input.qualifier, addrs[kind]) || addrs[kind] >= w'.chain.next
    ensures LogFor(w', input, addrs, kind) == LogFor(w, input, addrs, kind)
  {
    if IsMcm(kind) {
      var config := ConfigFor(input, kind);
      assert LogFor(w, input, addrs, kind) == McmLog(w, input, kind, addrs[kind], config);
      assert LogFor(w', input, addrs, kind) == McmLog(w', input, kind, addrs[kind], config);
      McmLogAlike(w, w', input, kind, addrs[kind], config);
    }
  }

  predicate McmReported(w: World, kind: Kind, config: Config, qualifier: string, a: Address) {
    var (whole, deploy) := (McmWithConfigSeq(kind, config, qualifier), DeployMcmOp(kind, qualifier));
    if whole in w.reports then w.reports[whole] == a else deploy in w.reports && w.reports[deploy] == a
  }

  lemma McmLogAlike(w: World, w': World, input: Input, kind: Kind, a: Address, config: Config)
    requires Sound(w) && Sound(w') && Deploys(w, w') && KindUntouched(w, w', kind)
    requires McmReported(w', kind, config, input.qualifier, a) || a >= w'.chain.next
    ensures McmLog(w', input, kind, a, config) == McmLog(w, input, kind, a, config)
  {
    var whole, deploy, set_ := McmWithConfigSeq(kind, config, input.qualifier), DeployMcmOp(kind, input.qualifier),
                               SetConfigOp(a, config);
    assert SameReport(w, w', whole) && SameReport(w, w', deploy);
    if whole !in w.reports {
      if a >= w'.chain.next {
        assert set_ in w'.reports ==> TrueReport(w'.chain, set_, w'.reports[set_]);
      } else {
        assert SameMcm(w, w', a);
      }
    }
  }

  /** A missing multisig is deployed where it was reported, or at a new address. */
  lemma DeployedWhere(w: World, input: Input, addrs: Addresses, kind: Kind)
    requires Sound(w) && (forall k: Kind :: k in addrs) && IsMcm(kind)
    requires DeployKind(w, input, addrs, kind).1.Some?
    ensures
      var a := DeployKind(w, input, addrs, kind).1.value;
      McmReported(w, kind, ConfigFor(input, kind), input.qualifier, a) || a >= w.chain.next
  {
    hide Sound;
  }

  // ----- the log of a run

  lemma {:induction false} LogFrame(w: World, ds: DataStore, input: Input, addrs: Addresses, addrs': Addresses, n: nat)
    requires n <= 5 && forall k: Kind :: k in addrs && k in addrs'
    requires forall i :: 0 <= i < n ==> addrs[KINDS[i]] == addrs'[KINDS[i]]
    ensures Log(w, ds, input, addrs, n) == Log(w, ds, input, addrs', n)
  {
    if n > 0 {
      LogFrame(w, ds, input, addrs, addrs', n - 1);
      assert n > 1 ==> addrs[KINDS[0]] == addrs'[KINDS[0]];
      assert n > 2 ==> addrs[KINDS[1]] == addrs'[KINDS[1]];
      assert n > 3 ==> addrs[KINDS[2]] == addrs'[KINDS[2]];
      assert n > 4 ==> addrs[KINDS[3]] == addrs'[KINDS[3]];
      hide McmLog, Known;
    }
  }

  /** The first `n` kinds deployed, so far none rejected, or the first rejected one known. */
  ghost predicate Logged(w: World, ds: DataStore, input: Input, n: nat, p: Progress)
    requires n <= 5 && forall k: Kind :: k in p.addrs
  {
    if p.rejected then
      exists m: nat :: m < n && Known(ds, input, KINDS[m]) == 0 && Rejected(w, input, KINDS[m])
        && p.world.sent == w.sent + Log(w, ds, input, p.addrs, m)
    else
      && p.world.sent == w.sent + Log(w, ds, input, p.addrs, n)
      && (n <= 3 ==> TimelocksAlike(w, p.world)) && (n <= 4 ==> ProxiesAlike(w, p.world))
  }

  lemma {:induction false} DeploymentLog(w: World, ds: DataStore, input: Input, n: nat)
    requires Sound(w) && n <= 5
    ensures Logged(w, ds, input, n, DeployMissing(w, ds, input, n))
  {
    hide Sound, Known, NewRef, Rejected, Log, TimelocksAlike, ProxiesAlike;
    if n == 0 {
      NothingLogged(w, ds, input);
    } else {
      DeploymentLog(w, ds, input, n - 1);
      DeployMissingOutcome(w, ds, input, n - 1);
      LogOneMore(w, ds, input, n - 1, DeployMissing(w, ds, input, n - 1));
    }
  }

  lemma NothingLogged(w: World, ds: DataStore, input: Input)
    ensures TimelocksAlike(w, w) && ProxiesAlike(w, w)
    ensures w.sent + Log(w, ds, input, Existing(ds, input), 0) == w.sent
  {}

  lemma LogStep(w: World, ds: DataStore, input: Input, addrs: Addresses, n: nat)
    requires n < 5 && forall k: Kind :: k in addrs
    ensures Log(w, ds, input, addrs, n + 1) ==
      Log(w, ds, input, addrs, n) + if Known(ds, input, KINDS[n]) == 0 then LogFor(w, input, addrs, KINDS[n]) else []
  {
    hide LogFor, Known;
  }

  lemma LogOneMore(w: World, ds: DataStore, input: Input, n: nat, p: Progress)
    requires n < 5 && (forall k: Kind :: k in p.addrs) && Sound(w)
    requires Reached(w, ds, input, n, p) && Logged(w, ds, input, n, p)
    ensures Logged(w, ds, input, n + 1, DeployIfNeeded(p, input, KINDS[n]))
  {
    var kind := KINDS[n];
    if p.rejected || p.addrs[kind] != 0 {
      if !p.rejected {
        LogStep(w, ds, input, p.addrs, n);
        hide Log, Known, Rejected, TimelocksAlike, ProxiesAlike, Sound;
        assert Known(ds, input, kind) != 0;
        assert Log(w, ds, input, p.addrs, n) + [] == Log(w, ds, input, p.addrs, n);
      }
    } else {
      KindsApart(n);
      hide Log, Known, Rejected, TimelocksAlike, ProxiesAlike, Sound, LogFor, DeployKind, Placed, KindUntouched, NewRef,
        NewRefs;
      SoundNow(w, p.world);
      MissingLogged(w, ds, input, n, p);
    }
  }

  lemma SoundNow(w: World, w': World)
    requires Deploys(w, w')
    ensures Sound(w')
  {}

  lemma MissingLogged(w: World, ds: DataStore, input: Input, n: nat, p: Progress)
    requires n < 5 && (forall k: Kind :: k in p.addrs) && Sound(w) && Sound(p.world)
    requires Deploys(w, p.world) && KindUntouched(w, p.world, KINDS[n]) && Known(ds, input, KINDS[n]) == 0
    requires Logged(w, ds, input, n, p) && !p.rejected && p.addrs[KINDS[n]] == 0
    ensures Logged(w, ds, input, n + 1, DeployIfNeeded(p, input, KINDS[n]))
  {
    var kind := KINDS[n];
    KindsApart(n);
    OrderIs();
    hide Log, Known, Rejected, TimelocksAlike, ProxiesAlike, Sound, LogFor, DeployKind, Placed, KindUntouched, NewRef,
      NewRefs, Deploys;
    var (world, o) := DeployKind(p.world, input, p.addrs, kind);
    KindLog(p.world, input, p.addrs, kind);
    Rejecting(w, p.world, input, p.addrs, kind);
    if o.Some? {
      var addrs := p.addrs[kind := o.value];
      LogFrame(w, ds, input, p.addrs, addrs, n);
      LogStep(w, ds, input, addrs, n);
      if IsMcm(kind) {
        DeployedWhere(p.world, input, p.addrs, kind);
      }
      LogAlike(w, p.world, input, addrs, kind);
      Appended(w.sent, Log(w, ds, input, addrs, n), LogFor(w, input, addrs, kind));
      if n + 1 <= 3 {
        AlikeTogether(w, p.world, world);
      }
      if n + 1 <= 4 {
        ProxiesTogether(w, p.world, world);
      }
    }
  }

  lemma Rejecting(w: World, w1: World, input: Input, addrs: Addresses, kind: Kind)
    requires Sound(w1) && KindUntouched(w, w1, kind) && forall k: Kind :: k in addrs
    ensures DeployKind(w1, input, addrs, kind).1.None? ==> Rejected(w, input, kind)
  {
    DeployKindOutcome(w1, input, addrs, kind);
    SameRejection(w, w1, input, kind);
    hide DeployKind, Rejected, KindUntouched, Sound;
  }

  lemma OrderIs()
    ensures KINDS == [BypasserMcm, CancellerMcm, ProposerMcm, Timelock, CallProxy]
  {}

  lemma Appended<T>(x: seq<T>, y: seq<T>, z: seq<T>)
    ensures x + (y + z) == x + y + z
  {}

  lemma AlikeTogether(w: World, w1: World, w2: World)
    requires TimelocksAlike(w, w1) && TimelocksAlike(w1, w2)
    ensures TimelocksAlike(w, w2)
  {
    forall op: OpInput | op.DeployTimelockOp?
      ensures SameReport(w, w2, op)
    {
      assert SameReport(w, w1, op) && SameReport(w1, w2, op);
    }
  }

  lemma ProxiesTogether(w: World, w1: World, w2: World)
    requires ProxiesAlike(w, w1) && ProxiesAlike(w1, w2)
    ensures ProxiesAlike(w, w2)
  {
    forall op: OpInput | op.DeployProxyOp?
      ensures SameReport(w, w2, op)
    {
      assert SameReport(w, w1, op) && SameReport(w1, w2, op);
    }
  }

  // ----- the refs returned

  function RefOf(ds: DataStore, input: Input, addrs: Addresses, kind: Kind): seq<AddressRef>
    requires forall k: Kind :: k in addrs
  {
    if Known(ds, input, kind) != 0 then []
    else [AddressRef(input.selector, kind, addrs[kind], "1.0.0", input.qualifier,
                     if input.lbl == "" then {} else {input.lbl})]
  }

  lemma RefsAre(ds: DataStore, input: Input, addrs: Addresses)
    requires forall k: Kind :: k in addrs
    ensures NewRefs(ds, input, addrs, 5) ==
      RefOf(ds, input, addrs, BypasserMcm) + RefOf(ds, input, addrs, CancellerMcm)
        + RefOf(ds, input, addrs, ProposerMcm)
      + RefOf(ds, input, addrs, Timelock) + RefOf(ds, input, addrs, CallProxy)
  {
    hide Known;
    OneRef(ds, input, addrs, 0);
    OneRef(ds, input, addrs, 1);
    OneRef(ds, input, addrs, 2);
    OneRef(ds, input, addrs, 3);
    OneRef(ds, input, addrs, 4);
    hide RefOf, NewRefs;
    OrderIs();
    NoRefs(ds, input, addrs);
    var none: seq<AddressRef> := [];
    assert none + RefOf(ds, input, addrs, BypasserMcm) == RefOf(ds, input, addrs, BypasserMcm);
  }

  lemma NoRefs(ds: DataStore, input: Input, addrs: Addresses)
    requires forall k: Kind :: k in addrs
    ensures NewRefs(ds, input, addrs, 0) == []
  {}

  lemma OneRef(ds: DataStore, input: Input, addrs: Addresses, n: nat)
    requires n < 5 && forall k: Kind :: k in addrs
    ensures NewRefs(ds, input, addrs, n + 1) == NewRefs(ds, input, addrs, n) + RefOf(ds, input, addrs, KINDS[n])
  {
    hide Known;
  }

  // ----- a whole run

  /** Whatever the reports, a run that succeeds has sent exactly its log, with these
      arguments and in this order, and then grants: each missing one, once. It returns
      exactly the refs of the missing kinds. */
  lemma RunSends(w: World, ds: DataStore, input: Input)
    requires Sound(w) && Run(w, ds, input).1.Success?
    ensures
      var (w', r) := Run(w, ds, input);
      var p := DeployMissing(w, ds, input, |KINDS|);
      var log := w.sent + Log(w, ds, input, p.addrs, 5);
      && log <= w'.sent && NoRepeats(w'.sent[|log|..])
      && (forall op :: op in w'.sent[|log|..] <==>
            && op.GrantOp? && op.timelock == p.addrs[Timelock]
            && Missing(p.world, input, p.addrs, (op.role, op.account)))
      && r.value == RefOf(ds, input, p.addrs, BypasserMcm) + RefOf(ds, input, p.addrs, CancellerMcm)
           + RefOf(ds, input, p.addrs, ProposerMcm) + RefOf(ds, input, p.addrs, Timelock)
           + RefOf(ds, input, p.addrs, CallProxy)
  {
    var p := DeployMissing(w, ds, input, |KINDS|);
    DeploymentLog(w, ds, input, 5);
    RunPlaces(w, ds, input);
    RunOutcome(w, ds, input);
    RefsAre(ds, input, p.addrs);
    hide DeployMissing, Sound, Log, Known, Placed, McmPlaced, NewRefs, RefOf, Rejected, Missing, StaleConfig,
      HoldsConfig,
      Required, TimelocksAlike, ProxiesAlike, Run, GrantTimelockRoles;
    GrantsOutcome(p.world, input, p.addrs);
  }

  /** What a step that deploys one kind adds to the reports: what it sends, and for a
      multisig the whole of its deployment. */
  ghost predicate KindRecorded(w: World, w': World, input: Input, addrs: Addresses, kind: Kind)
    requires forall k: Kind :: k in addrs
  {
    && ReportsKept(w, w')
    && forall op :: op in w'.reports <==>
         op in w.reports || op in LogFor(w, input, addrs, kind) || Whole(input, kind, op)
  }

  predicate Whole(input: Input, kind: Kind, op: OpInput) {
    match kind
    case BypasserMcm => op == McmWithConfigSeq(BypasserMcm, input.bypasser, input.qualifier)
    case CancellerMcm => op == McmWithConfigSeq(CancellerMcm, input.canceller, input.qualifier)
    case ProposerMcm => op == McmWithConfigSeq(ProposerMcm, input.proposer, input.qualifier)
    case Timelock => false
    case CallProxy => false
  }

  lemma KindIsRecorded(w: World, input: Input, addrs: Addresses, kind: Kind)
    requires Sound(w) && (forall k: Kind :: k in addrs) && DeployKind(w, input, addrs, kind).1.Some?
    ensures
      var (w', o) := DeployKind(w, input, addrs, kind);
      KindRecorded(w, w', input, addrs[kind := o.value], kind)
  {
    hide Sound, McmLog, DeployMcmWithConfig;
    match kind {
      case Timelock =>
      case CallProxy =>
      case BypasserMcm => McmIsRecorded(w, input, kind, input.bypasser);
      case CancellerMcm => McmIsRecorded(w, input, kind, input.canceller);
      case ProposerMcm => McmIsRecorded(w, input, kind, input.proposer);
    }
  }

  lemma McmIsRecorded(w: World, input: Input, kind: Kind, config: Config)
    requires Sound(w)
    ensures
      var (w', o) := DeployMcmWithConfig(w, input.deployer, kind, config, input.qualifier);
      o.Some? ==>
        && ReportsKept(w, w')
        && forall op :: op in w'.reports <==>
             || op in w.reports || op in McmLog(w, input, kind, o.value, config)
             || op == McmWithConfigSeq(kind, config, input.qualifier)
  {
    NoConfigYet(w, config);
    hide Sound;
  }

  /** The first `n` kinds. */
  ghost predicate Recorded(w: World, ds: DataStore, input: Input, addrs: Addresses, n: nat, w': World)
    requires n <= 5 && forall k: Kind :: k in addrs
  {
    && ReportsKept(w, w')
    && forall op :: op in w'.reports <==>
         || op in w.reports || op in Log(w, ds, input, addrs, n)
         || exists i :: 0 <= i < n && Known(ds, input, KINDS[i]) == 0 && Whole(input, KINDS[i], op)
  }

  lemma {:induction false} DeploymentRecord(w: World, ds: DataStore, input: Input, n: nat)
    requires Sound(w) && n <= 5 && !DeployMissing(w, ds, input, n).rejected
    ensures
      var p := DeployMissing(w, ds, input, n);
      Recorded(w, ds, input, p.addrs, n, p.world)
  {
    hide Sound, Known, NewRef, Rejected, Log, DeployKind, Whole;
    if n > 0 {
      var p := DeployMissing(w, ds, input, n - 1);
      DeploymentRecord(w, ds, input, n - 1);
      DeployMissingOutcome(w, ds, input, n - 1);
      LogStep(w, ds, input, p.addrs, n - 1);
      DeploymentLog(w, ds, input, n - 1);
      if p.addrs[KINDS[n - 1]] == 0 {
        RecordOneMore(w, ds, input, n - 1, p);
      } else {
        hide Reached;
        KnownRecorded(w, ds, input, n - 1, p);
      }
    } else {
      NothingRecorded(w, ds, input);
    }
  }

  lemma NothingRecorded(w: World, ds: DataStore, input: Input)
    ensures Recorded(w, ds, input, Existing(ds, input), 0, w)
  {
    hide Known;
  }

  lemma KnownRecorded(w: World, ds: DataStore, input: Input, n: nat, p: Progress)
    requires n < 5 && (forall k: Kind :: k in p.addrs) && Recorded(w, ds, input, p.addrs, n, p.world)
    requires Known(ds, input, KINDS[n]) != 0 && Log(w, ds, input, p.addrs, n + 1) == Log(w, ds, input, p.addrs, n) + []
    ensures Recorded(w, ds, input, p.addrs, n + 1, p.world)
  {
    hide Known, Log, Whole;
    assert forall op :: op in Log(w, ds, input, p.addrs, n + 1) <==> op in Log(w, ds, input, p.addrs, n);
  }

  lemma RecordOneMore(w: World, ds: DataStore, input: Input, n: nat, p: Progress)
    requires n < 5 && (forall k: Kind :: k in p.addrs) && Sound(w) && !p.rejected && p.addrs[KINDS[n]] == 0
    requires Reached(w, ds, input, n, p) && Recorded(w, ds, input, p.addrs, n, p.world)
    requires n <= 3 ==> TimelocksAlike(w, p.world)
    requires n <= 4 ==> ProxiesAlike(w, p.world)
    requires DeployKind(p.world, input, p.addrs, KINDS[n]).1.Some?
    ensures
      var (w', o) := DeployKind(p.world, input, p.addrs, KINDS[n]);
      Recorded(w, ds, input, p.addrs[KINDS[n] := o.value], n + 1, w')
  {
    var kind := KINDS[n];
    KindsApart(n);
    OrderIs();
    var (w', o) := DeployKind(p.world, input, p.addrs, kind);
    var addrs := p.addrs[kind := o.value];
    SoundNow(w, p.world);
    hide Log, Known, TimelocksAlike, ProxiesAlike, Sound, LogFor, DeployKind, Placed, KindUntouched, NewRef, NewRefs,
      Deploys, Whole, Recorded, KindRecorded, ReportsKept;
    KindIsRecorded(p.world, input, p.addrs, kind);
    LogFrame(w, ds, input, p.addrs, addrs, n);
    LogStep(w, ds, input, addrs, n);
    if IsMcm(kind) {
      DeployedWhere(p.world, input, p.addrs, kind);
    }
    LogAlike(w, p.world, input, addrs, kind);
    assert Known(ds, input, kind) == 0;
    Joined(w, p.world, w', ds, input, p.addrs, addrs, n);
  }

  lemma Joined(w: World, w1: World, w2: World, ds: DataStore, input: Input, before: Addresses, addrs: Addresses, n: nat)
    requires n < 5 && (forall k: Kind :: k in before && k in addrs) && Known(ds, input, KINDS[n]) == 0
    requires Recorded(w, ds, input, before, n, w1) && KindRecorded(w1, w2, input, addrs, KINDS[n])
    requires Log(w, ds, input, before, n) == Log(w, ds, input, addrs, n)
    requires LogFor(w1, input, addrs, KINDS[n]) == LogFor(w, input, addrs, KINDS[n])
    requires Log(w, ds, input, addrs, n + 1) == Log(w, ds, input, addrs, n) + LogFor(w, input, addrs, KINDS[n])
    ensures Recorded(w, ds, input, addrs, n + 1, w2)
  {
    hide Known, Log, LogFor, Whole;
    var log, more := Log(w, ds, input, addrs, n), LogFor(w, input, addrs, KINDS[n]);
    assert forall op :: op in log + more <==> op in log || op in more;
    forall op
      ensures op in w2.reports <==>
        || op in w.reports || op in log + more
        || exists i :: 0 <= i < n + 1 && Known(ds, input, KINDS[i]) == 0 && Whole(input, KINDS[i], op)
    {
      assert op in w1.reports <==>
        || op in w.reports || op in log
        || exists i :: 0 <= i < n && Known(ds, input, KINDS[i]) == 0 && Whole(input, KINDS[i], op);
    }
  }

  /** What the grants add to the reports: those sent, and the whole of them. */
  lemma GrantsReported(w: World, input: Input, addrs: Addresses)
    requires Sound(w) && (forall k: Kind :: k in addrs) && addrs[Timelock] in w.chain.timelocks
    ensures
      var (tl, o) := (addrs[Timelock], GrantTimelockRoles(w, input, addrs));
      var admins := w.chain.timelocks[tl].admins;
      && o.Some? && w.sent <= o.value.sent
      && forall op :: op in o.value.reports <==>
           || op in w.reports || op in o.value.sent[|w.sent|..]
           || (input.deployer in admins && op == GrantRolesSeq(tl, GrantsFor(addrs, tl in admins)))
  {
    var tl := addrs[Timelock];
    var isAdmin := tl in w.chain.timelocks[tl].admins;
    var grants := RoleGrants(addrs, isAdmin);
    GrantsAre(addrs);
    if input.deployer !in w.chain.timelocks[tl].admins || GrantRolesSeq(tl, grants) in w.reports {
      assert w.sent[|w.sent|..] == [];
    } else {
      RoleGrantsAre(addrs, isAdmin);
      GrantAllOutcome(w, input.deployer, tl, grants);
      hide GrantAll, RoleGrants, Sound, Asked;
      var w1 := GrantAll(w, input.deployer, tl, grants);
      assert forall op :: op in w1.reports <==> op in w.reports || op in w1.sent[|w.sent|..];
    }
  }

  function GrantsFor(addrs: Addresses, timelockIsAdmin: bool): Grants
    requires forall k: Kind :: k in addrs
  {
    var (b, c, p, t, x) :=
      (addrs[BypasserMcm], addrs[CancellerMcm], addrs[ProposerMcm], addrs[Timelock], addrs[CallProxy]);
    if timelockIsAdmin then [(Proposer, [p]), (Canceller, [p, c, b]), (Bypasser, [b]), (Executor, [x])]
    else [(Proposer, [p]), (Canceller, [p, c, b]), (Bypasser, [b]), (Executor, [x]), (Admin, [t])]
  }

  lemma GrantsAre(addrs: Addresses)
    requires forall k: Kind :: k in addrs
    ensures forall isAdmin: bool :: RoleGrants(addrs, isAdmin) == GrantsFor(addrs, isAdmin)
  {}

  /** What a run that succeeds adds to the reports, exactly: the operations it has sent,
      each missing multisig with its config as a whole, and if the deployer may grant, the
      grants of the timelock as a whole. */
  lemma RunReports(w: World, ds: DataStore, input: Input)
    requires Sound(w) && Run(w, ds, input).1.Success?
    ensures
      var (w', p) := (Run(w, ds, input).0, DeployMissing(w, ds, input, |KINDS|));
      var t := p.addrs[Timelock];
      && ReportsKept(w, w') && w.sent <= w'.sent && t in p.world.chain.timelocks
      && forall op :: op in w'.reports <==>
           || op in w.reports || op in w'.sent[|w.sent|..]
           || (exists i :: 0 <= i < 5 && Known(ds, input, KINDS[i]) == 0 && Whole(input, KINDS[i], op))
           || (var admins := p.world.chain.timelocks[t].admins;
               input.deployer in admins && op == GrantRolesSeq(t, GrantsFor(p.addrs, t in admins)))
  {
    var w', p := Run(w, ds, input).0, DeployMissing(w, ds, input, |KINDS|);
    RunPlaces(w, ds, input);
    DeploymentRecord(w, ds, input, 5);
    DeploymentLog(w, ds, input, 5);
    hide DeployMissing, Sound, Log, Known, Placed, McmPlaced, NewRefs, RefOf, Rejected, Missing, StaleConfig,
      HoldsConfig,
      Required, TimelocksAlike, ProxiesAlike, Run, GrantTimelockRoles, Whole, GrantsFor;
    GrantsReported(p.world, input, p.addrs);
    var log := Log(w, ds, input, p.addrs, 5);
    assert w'.sent[|w.sent|..] == log + w'.sent[|p.world.sent|..];
  }

  /** A run that fails has sent the log of the kinds before a rejected one, or of all if
      the timelock cannot be read, and nothing else. */
  lemma FailedRunSends(w: World, ds: DataStore, input: Input)
    requires Sound(w) && Run(w, ds, input).1.Failure?
    ensures
      var (w', r) := Run(w, ds, input);
      var p := DeployMissing(w, ds, input, |KINDS|);
      match r.error
      case AmbiguousRef => w' == w
      case SetConfigRejected =>
        exists m: nat :: m < 5 && Known(ds, input, KINDS[m]) == 0 && Rejected(w, input, KINDS[m])
          && w'.sent == w.sent + Log(w, ds, input, p.addrs, m)
      case UnreadableTimelock => w'.sent == w.sent + Log(w, ds, input, p.addrs, 5)
  {
    DeploymentLog(w, ds, input, 5);
    hide DeployMissing, Sound, Log, Known, Rejected, TimelocksAlike, ProxiesAlike, GrantTimelockRoles;
  }

  /** The tables of a timelock new to the chain, to the letter. */
  lemma NewTimelockTables(w: World, ds: DataStore, input: Input)
    requires Sound(w) && Run(w, ds, input).1.Success?
    ensures
      var (w', addrs) := (Run(w, ds, input).0, DeployMissing(w, ds, input, |KINDS|).addrs);
      var (b, c, p, t, x) :=
        (addrs[BypasserMcm], addrs[CancellerMcm], addrs[ProposerMcm], addrs[Timelock], addrs[CallProxy]);
      t !in w.chain.timelocks ==>
        t in w'.chain.timelocks && w'.chain.timelocks[t] == Tables({p}, {p, c, b}, {b}, {x}, {input.deployer, t})
  {
    RunPlaces(w, ds, input);
    RunOutcome(w, ds, input);
    hide DeployMissing, Known, McmPlaced, NewRefs, Rejected, StaleConfig, HoldsConfig, Run, GrantTimelockRoles;
    var p, w' := DeployMissing(w, ds, input, |KINDS|), Run(w, ds, input).0;
    if p.addrs[Timelock] !in w.chain.timelocks {
      assert Placed(w, p.world, input, p.addrs, Timelock);
      DeployMissingOutcome(w, ds, input, |KINDS|);
      NewToChain(w, p.world, w', input, p.addrs);
    }
  }

  lemma NewToChain(w: World, before: World, w': World, input: Input, addrs: Addresses)
    requires Sound(w) && Sound(before) && (forall k: Kind :: k in addrs) && addrs[Timelock] !in w.chain.timelocks
    requires Deploys(w, before) && Placed(w, before, input, addrs, Timelock)
    requires GrantTimelockRoles(before, input, addrs) == Some(w')
    ensures
      var (b, c, p, t, x) :=
        (addrs[BypasserMcm], addrs[CancellerMcm], addrs[ProposerMcm], addrs[Timelock], addrs[CallProxy]);
      t in w'.chain.timelocks && w'.chain.timelocks[t] == Tables({p}, {p, c, b}, {b}, {x}, {input.deployer, t})
  {
    var (b, c, p, t, x) :=
      (addrs[BypasserMcm], addrs[CancellerMcm], addrs[ProposerMcm], addrs[Timelock], addrs[CallProxy]);
    GrantsOutcome(before, input, addrs);
    NoGrantReported(w, before, t);
    hide GrantTimelockRoles, McmPlaced, Sound, Deploys, RoleGrants, Required;
    assert before.chain.timelocks[t] == Tables({p}, {c, p, b}, {b}, {}, {input.deployer});
    assert forall m: (Role, Address) :: Missing(before, input, addrs, m) ==> m in Required(addrs);
    assert forall m: (Role, Address) :: m in Required(addrs) && !Held(before.chain.timelocks[t], m) ==>
      Missing(before, input, addrs, m);
    Exactly(before.chain.timelocks[t], w'.chain.timelocks[t], input.deployer, addrs);
  }

  lemma Exactly(made: Tables, final: Tables, deployer: Address, addrs: Addresses)
    requires forall k: Kind :: k in addrs
    requires made == Tables({addrs[ProposerMcm]}, {addrs[CancellerMcm], addrs[ProposerMcm], addrs[BypasserMcm]},
      {addrs[BypasserMcm]}, {}, {deployer})
    requires forall m: (Role, Address) :: Held(final, m) <==> Held(made, m) || m in Required(addrs)
    ensures
      var (b, c, p, t, x) :=
        (addrs[BypasserMcm], addrs[CancellerMcm], addrs[ProposerMcm], addrs[Timelock], addrs[CallProxy]);
      final == Tables({p}, {p, c, b}, {b}, {x}, {deployer, t})
  {
    forall a
      ensures a in final.proposers <==> a == addrs[ProposerMcm]
      ensures a in final.bypassers <==> a == addrs[BypasserMcm]
      ensures a in final.executors <==> a == addrs[CallProxy]
      ensures a in final.admins <==> a == deployer || a == addrs[Timelock]
      ensures a in final.cancellers <==> a in made.cancellers
    {
      assert Held(final, (Proposer, a)) <==> a in final.proposers;
      assert Held(final, (Canceller, a)) <==> a in final.cancellers;
      assert Held(final, (Bypasser, a)) <==> a in final.bypassers;
      assert Held(final, (Executor, a)) <==> a in final.executors;
      assert Held(final, (Admin, a)) <==> a in final.admins;
    }
  }

  lemma NoGrantReported(w: World, before: World, t: Address)
    requires Sound(w) && Deploys(w, before) && t !in w.chain.timelocks
    ensures forall op: OpInput :: GrantReport(op) && op.timelock == t ==> op !in before.reports
  {
    forall op: OpInput | GrantReport(op) && op.timelock == t
      ensures op !in before.reports
    {
      assert op in w.reports ==> TrueReport(w.chain, op, w.reports[op]);
    }
  }

  /** A timelock is never shared by two requests for different delays: a run over kept
      reports, whatever has happened on the chain since an earlier run, that has to
      deploy a timelock as the earlier run had, ends up at another address. */
  lemma DelaysApart(w: World, ds: DataStore, input: Input, w1: World, ds1: DataStore, input1: Input)
    requires Sound(w) && Run(w, ds, input).1.Success? && Known(ds, input, Timelock) == 0
    requires Sound(w1) && ReportsKept(Run(w, ds, input).0, w1)
    requires Run(w1, ds1, input1).1.Success? && Known(ds1, input1, Timelock) == 0
    requires input.minDelay != input1.minDelay
    ensures DeployMissing(w, ds, input, |KINDS|).addrs[Timelock] != DeployMissing(w1, ds1, input1,
      |KINDS|).addrs[Timelock]
  {
    hide *;
    TimelockOnRecord(w, ds, input);
    TimelockOnRecord(w1, ds1, input1);
    var p, q := DeployMissing(w, ds, input, |KINDS|).addrs, DeployMissing(w1, ds1, input1, |KINDS|).addrs;
    var w', w2 := Run(w, ds, input).0, Run(w1, ds1, input1).0;
    KeptTogether(w', w1, w2);
    OnRecordStays(w', w2, input, p);
    Different(w2, input, p, input1, q);
  }

  /** The deployment of the timelock is reported with its arguments. */
  predicate OnRecord(w: World, input: Input, addrs: Addresses)
    requires forall k: Kind :: k in addrs
  {
    var (b, c, p) := (addrs[BypasserMcm], addrs[CancellerMcm], addrs[ProposerMcm]);
    Reports(w, DeployTimelockOp(input.qualifier, input.minDelay, input.deployer, [p], [c, p, b], [b]), addrs[Timelock])
  }

  lemma TimelockOnRecord(w: World, ds: DataStore, input: Input)
    requires Sound(w) && Run(w, ds, input).1.Success? && Known(ds, input, Timelock) == 0
    ensures
      var w' := Run(w, ds, input).0;
      Sound(w') && ReportsKept(w, w') && OnRecord(w', input, DeployMissing(w, ds, input, |KINDS|).addrs)
  {
    RunPlaces(w, ds, input);
    RunOutcome(w, ds, input);
    var p, w' := DeployMissing(w, ds, input, |KINDS|), Run(w, ds, input).0;
    hide DeployMissing, Run, Known, McmPlaced, NewRefs, Rejected, StaleConfig, HoldsConfig, GrantTimelockRoles,
      Required,
      Sound, ReportsKept;
    assert Placed(w, p.world, input, p.addrs, Timelock);
    var op := TimelockOp(input, p.addrs[ProposerMcm], p.addrs[CancellerMcm], p.addrs[BypasserMcm]);
    assert SameReport(p.world, w', op);
  }

  lemma KeptTogether(w: World, w1: World, w2: World)
    requires ReportsKept(w, w1) && ReportsKept(w1, w2)
    ensures ReportsKept(w, w2)
  {}

  lemma OnRecordStays(w: World, w': World, input: Input, addrs: Addresses)
    requires (forall k: Kind :: k in addrs) && OnRecord(w, input, addrs) && ReportsKept(w, w')
    ensures OnRecord(w', input, addrs)
  {}

  lemma Different(w: World, input: Input, addrs: Addresses, input': Input, addrs': Addresses)
    requires (forall k: Kind :: k in addrs && k in addrs') && Sound(w) && input.minDelay != input'.minDelay
    requires OnRecord(w, input, addrs) && OnRecord(w, input', addrs')
    ensures addrs[Timelock] != addrs'[Timelock]
  {}
}
