/** Conservation of batch operations: each goes to exactly one proposal, that of
    the timelock that emitted it. */
module TopologyConservation {
  import opened Wrappers
  import opened Evm
  import opened Ownership
  import opened Topology
  import opened TopologyRun
  import opened TopologyEffect
  import opened TopologyResult
  import opened TopologyRouting

  /** A completed run of one chain: `own` are the contracts once its MCMs are there. */
  datatype ChainRun = ChainRun(env: Env, cfg: ChainConfig, first: Address, own: Ownables)

  function RefsOf(r: ChainRun): map<string, Address> {
    McmPlaces(r.first, r.cfg.mcms)
  }

  function AddressesOf(r: ChainRun): seq<AddressRef> {
    McmAddresses(r.env, r.first, r.cfg.mcms) + AllTimelockAddresses(r.env, r.first + |r.cfg.mcms|, r.cfg.timelocks)
  }

  /** Qualifier and type tell a chain's MCMs apart. */
  predicate UniqueMcms(mcms: seq<MCMSpec>) {
    forall i, j :: 0 <= i < j < |mcms| ==> !Alike(mcms[i], mcms[j])
  }

  predicate DisjointQualifiers(r: ChainRun) {
    forall tl, tl' :: tl in r.cfg.timelocks && tl' in r.cfg.timelocks && tl.qualifier != tl'.qualifier ==>
      Targets(tl, RefsOf(r)) !! Targets(tl', RefsOf(r))
  }

  predicate ValidRun(r: ChainRun, cfgs: Configs, hasMCMS: bool) {
    r.env.selector in cfgs && cfgs[r.env.selector] == r.cfg && ValidChainConfig(r.cfg, hasMCMS)
  }

  predicate ValidRuns(runs: seq<ChainRun>, cfgs: Configs, hasMCMS: bool) {
    && (forall r :: r in runs ==> ValidRun(r, cfgs, hasMCMS))
    && (forall i, j :: 0 <= i < j < |runs| ==> runs[i].env.selector != runs[j].env.selector)
  }

  function AllAddresses(runs: seq<ChainRun>): seq<AddressRef> {
    if runs == [] then [] else AllAddresses(runs[..|runs| - 1]) + AddressesOf(runs[|runs| - 1])
  }

  // ----- looking addresses up again

  lemma {:induction false} FirstAddressJoin(p: seq<AddressRef>, q: seq<AddressRef>, selector: nat, m: MCMSpec)
    ensures FirstAddress(p + q, selector, m) == if FirstAddress(p, selector, m).Some? then FirstAddress(p, selector, m)
      else FirstAddress(q, selector, m)
  {
    if p == [] {
      assert p + q == q;
    } else {
      assert (p + q)[1..] == p[1..] + q;
      FirstAddressJoin(p[1..], q, selector, m);
    }
  }

  lemma {:induction false} NoneMatches(p: seq<AddressRef>, selector: nat, m: MCMSpec)
    requires forall r :: r in p ==> !RefMatches(r, selector, m)
    ensures FirstAddress(p, selector, m) == None
  {
    if p != [] {
      NoneMatches(p[1..], selector, m);
    }
  }

  lemma {:induction false} FirstAt(p: seq<AddressRef>, selector: nat, m: MCMSpec, i: nat)
    requires i < |p| && RefMatches(p[i], selector, m) && forall j :: 0 <= j < i ==> !RefMatches(p[j], selector, m)
    ensures FirstAddress(p, selector, m) == Some(p[i].address)
  {
    if i > 0 {
      FirstAt(p[1..], selector, m, i - 1);
    }
  }

  lemma {:induction false} SelectorOf(env: Env, first: Address, timelocks: seq<TimelockSpec>)
    ensures forall r :: r in AllTimelockAddresses(env, first, timelocks) ==>
      r.selector == env.selector && r.contractType in {TIMELOCK, CALL_PROXY}
  {
    if timelocks != [] {
      SelectorOf(env, first, timelocks[..|timelocks| - 1]);
    }
  }

  lemma OtherChain(r: ChainRun, selector: nat, m: MCMSpec)
    requires r.env.selector != selector
    ensures FirstAddress(AddressesOf(r), selector, m) == None
  {
    SelectorOf(r.env, r.first + |r.cfg.mcms|, r.cfg.timelocks);
    NoneMatches(AddressesOf(r), selector, m);
  }

  /** Other chains do not matter to a lookup. */
  lemma {:induction false} OwnChainOnly(runs: seq<ChainRun>, r: ChainRun, m: MCMSpec)
    requires r in runs && forall i, j :: 0 <= i < j < |runs| ==> runs[i].env.selector != runs[j].env.selector
    ensures FirstAddress(AllAddresses(runs), r.env.selector, m) == FirstAddress(AddressesOf(r), r.env.selector, m)
  {
    var n := |runs| - 1;
    var rest, last := runs[..n], runs[n];
    FirstAddressJoin(AllAddresses(rest), AddressesOf(last), r.env.selector, m);
    if r in rest {
      var i :| 0 <= i < n && rest[i] == r;
      assert runs[i].env.selector != runs[n].env.selector;
      OtherChain(last, r.env.selector, m);
      OwnChainOnly(rest, r, m);
    } else {
      assert r == last;
      NoOtherChain(rest, r.env.selector, m);
    }
  }

  lemma {:induction false} NoOtherChain(runs: seq<ChainRun>, selector: nat, m: MCMSpec)
    requires forall i :: 0 <= i < |runs| ==> runs[i].env.selector != selector
    ensures FirstAddress(AllAddresses(runs), selector, m) == None
  {
    if runs != [] {
      var n := |runs| - 1;
      NoOtherChain(runs[..n], selector, m);
      OtherChain(runs[n], selector, m);
      FirstAddressJoin(AllAddresses(runs[..n]), AddressesOf(runs[n]), selector, m);
    }
  }

  predicate Alike(m: MCMSpec, m': MCMSpec) {
    m.qualifier == m'.qualifier && m.contractType == m'.contractType
  }

  /** The index of the first MCM alike to `m`. */
  function FirstAlike(mcms: seq<MCMSpec>, m: MCMSpec): nat {
    if mcms == [] || Alike(mcms[0], m) then 0 else 1 + FirstAlike(mcms[1..], m)
  }

  lemma {:induction false} FirstAlikeIs(mcms: seq<MCMSpec>, i: nat)
    requires i < |mcms|
    ensures
      var j := FirstAlike(mcms, mcms[i]);
      j <= i && Alike(mcms[j], mcms[i]) && forall k :: 0 <= k < j ==> !Alike(mcms[k], mcms[i])
  {
    if !Alike(mcms[0], mcms[i]) {
      FirstAlikeIs(mcms[1..], i - 1);
    }
  }

  /** Where the lookup by qualifier and type ends up: at the holder's address, or at
      the first MCM alike to the one it names. */
  function LookupPlace(r: ChainRun, h: RoleHolder): Option<Address> {
    if h.address.Some? then h.address
    else
      match FirstSpec(r.cfg.mcms, h.mcmRef)
      case None => None
      case Some(m) => Some(r.first + FirstAlike(r.cfg.mcms, m))
  }

  lemma FindsFirstAlike(r: ChainRun, i: nat)
    requires i < |r.cfg.mcms|
    ensures FirstAddress(AddressesOf(r), r.env.selector, r.cfg.mcms[i]) ==
      Some(r.first + FirstAlike(r.cfg.mcms, r.cfg.mcms[i]))
  {
    hide FirstAddress, AllTimelockAddresses, FirstAlike;
    var m, mine := r.cfg.mcms[i], McmAddresses(r.env, r.first, r.cfg.mcms);
    FirstAlikeIs(r.cfg.mcms, i);
    FirstAt(mine, r.env.selector, m, FirstAlike(r.cfg.mcms, m));
    FirstAddressJoin(mine, AllTimelockAddresses(r.env, r.first + |r.cfg.mcms|, r.cfg.timelocks), r.env.selector, m);
  }

  /** The code's lookup over the addresses of all chains ends up at that place. */
  lemma LookupIs(runs: seq<ChainRun>, r: ChainRun, h: RoleHolder)
    requires r in runs && forall i, j :: 0 <= i < j < |runs| ==> runs[i].env.selector != runs[j].env.selector
    ensures LookupHolder(r.env.selector, h, r.cfg.mcms, AllAddresses(runs)) == LookupPlace(r, h)
  {
    hide FirstAddress, AllAddresses, AddressesOf, FirstSpec;
    if h.address.None? && FirstSpec(r.cfg.mcms, h.mcmRef).Some? {
      var i := SpecIndex(r.cfg.mcms, h.mcmRef);
      OwnChainOnly(runs, r, r.cfg.mcms[i]);
      FindsFirstAlike(r, i);
    }
  }

  lemma {:induction false} SpecIndex(mcms: seq<MCMSpec>, ref: string) returns (i: nat)
    requires FirstSpec(mcms, ref).Some?
    ensures i < |mcms| && mcms[i].ref == ref && FirstSpec(mcms, ref).value == mcms[i]
  {
    if mcms[0].ref == ref {
      i := 0;
    } else {
      i := SpecIndex(mcms[1..], ref);
      i := i + 1;
    }
  }

  /** The lookup by qualifier and type finds the MCM's own address exactly when no
      earlier MCM of the chain has both in common with it. */
  lemma LookupFindsIff(runs: seq<ChainRun>, r: ChainRun, i: nat)
    requires r in runs && forall i, j :: 0 <= i < j < |runs| ==> runs[i].env.selector != runs[j].env.selector
    requires i < |r.cfg.mcms|
    ensures FirstAddress(AllAddresses(runs), r.env.selector, r.cfg.mcms[i]) == Some(r.first + i) <==>
      forall j :: 0 <= j < i ==> !Alike(r.cfg.mcms[j], r.cfg.mcms[i])
  {
    hide FirstAddress, AllAddresses, AddressesOf, FirstAlike;
    OwnChainOnly(runs, r, r.cfg.mcms[i]);
    FindsFirstAlike(r, i);
    FirstAlikeIs(r.cfg.mcms, i);
  }

  lemma {:induction false} FirstSpecIs(mcms: seq<MCMSpec>, i: nat)
    requires i < |mcms| && forall j, k :: 0 <= j < k < |mcms| ==> mcms[j].ref != mcms[k].ref
    ensures FirstSpec(mcms, mcms[i].ref) == Some(mcms[i])
  {
    if i > 0 {
      FirstSpecIs(mcms[1..], i - 1);
    }
  }

  lemma UniqueRefs(cfg: ChainConfig, hasMCMS: bool)
    requires ValidChainConfig(cfg, hasMCMS)
    ensures forall i, j :: 0 <= i < j < |cfg.mcms| ==> cfg.mcms[i].ref != cfg.mcms[j].ref
  {}

  /** The reverse lookup of a holder agrees with what the run resolved it to, where
      qualifier and type tell the MCMs apart. */
  lemma LookupAgrees(r: ChainRun, cfgs: Configs, hasMCMS: bool, h: RoleHolder)
    requires ValidRun(r, cfgs, hasMCMS) && UniqueMcms(r.cfg.mcms) && ValidHolder(h, McmRefs(r.cfg.mcms))
    ensures LookupPlace(r, h) == ResolveHolder(h, RefsOf(r))
  {
    hide LookupPlace, ValidRun, RefsOf;
    HolderResolves(r, cfgs, hasMCMS, h);
    UnshadowedHolder(r, cfgs, hasMCMS, h);
  }

  lemma HolderResolves(r: ChainRun, cfgs: Configs, hasMCMS: bool, h: RoleHolder)
    requires ValidRun(r, cfgs, hasMCMS) && ValidHolder(h, McmRefs(r.cfg.mcms))
    ensures ResolveHolder(h, RefsOf(r)).Some?
  {
    McmPlacesAre(r.first, r.cfg.mcms);
  }

  // ----- emitted batches

  datatype Emission = Emission(run: ChainRun, timelock: TimelockSpec, op: BatchOp)

  function EmissionsOf(r: ChainRun, timelocks: seq<TimelockSpec>): seq<Emission>
    requires AllResolvable(timelocks, RefsOf(r))
  {
    if timelocks == [] then []
    else
      var n := |timelocks| - 1;
      var txs := ToAccept(r.own, Resolved(timelocks[n].transferOwnership, RefsOf(r)));
      EmissionsOf(r, timelocks[..n]) + if txs == [] then []
        else [Emission(r, timelocks[n], BatchOp(r.env.selector, txs))]
  }

  function Ops(es: seq<Emission>): seq<BatchOp> {
    seq(|es|, i requires 0 <= i < |es| => es[i].op)
  }

  lemma {:induction false} EmissionsAreBatches(r: ChainRun, timelocks: seq<TimelockSpec>)
    requires AllResolvable(timelocks, RefsOf(r))
    ensures Ops(EmissionsOf(r, timelocks)) == Batches(r.own, r.env, RefsOf(r), timelocks)
  {
    if timelocks != [] {
      EmissionsAreBatches(r, timelocks[..|timelocks| - 1]);
    }
  }

  lemma {:induction false} ToAcceptAre(own: Ownables, targets: seq<Address>)
    ensures forall a :: a in ToAccept(own, targets) <==> a in targets && a in own && own[a].twoStep
    ensures forall i, j :: 0 <= i < j < |ToAccept(own, targets)| ==>
      ToAccept(own, targets)[i] != ToAccept(own, targets)[j]
  {
    if targets != [] {
      var rest, c := targets[..|targets| - 1], targets[|targets| - 1];
      assert targets == rest + [c];
      ToAcceptAre(own, rest);
    }
  }

  /** A batch holds the two-step targets of its timelock, each once. */
  ghost predicate Honest(e: Emission) {
    && e.timelock in e.run.cfg.timelocks
    && e.op.selector == e.run.env.selector && e.op.transactions != []
    && (forall a :: a in e.op.transactions <==>
          a in Targets(e.timelock, RefsOf(e.run)) && a in e.run.own && e.run.own[a].twoStep)
    && (forall i, j :: 0 <= i < j < |e.op.transactions| ==> e.op.transactions[i] != e.op.transactions[j])
  }

  lemma {:induction false} EmissionsHonest(r: ChainRun, timelocks: seq<TimelockSpec>)
    requires AllResolvable(timelocks, RefsOf(r)) && forall tl :: tl in timelocks ==> tl in r.cfg.timelocks
    ensures forall e :: e in EmissionsOf(r, timelocks) ==> e.run == r && e.timelock in timelocks && Honest(e)
  {
    if timelocks != [] {
      var n := |timelocks| - 1;
      assert timelocks == timelocks[..n] + [timelocks[n]];
      EmissionsHonest(r, timelocks[..n]);
      ToAcceptAre(r.own, Resolved(timelocks[n].transferOwnership, RefsOf(r)));
      TargetsAre(timelocks[n], RefsOf(r));
    }
  }

  predicate AllRunsResolvable(runs: seq<ChainRun>) {
    forall i :: 0 <= i < |runs| ==> AllResolvable(runs[i].cfg.timelocks, RefsOf(runs[i]))
  }

  function AllEmissions(runs: seq<ChainRun>): seq<Emission>
    requires AllRunsResolvable(runs)
  {
    if runs == [] then []
    else AllEmissions(runs[..|runs| - 1]) + EmissionsOf(runs[|runs| - 1], runs[|runs| - 1].cfg.timelocks)
  }

  lemma {:induction false} AllHonest(runs: seq<ChainRun>)
    requires AllRunsResolvable(runs)
    ensures forall e :: e in AllEmissions(runs) ==> e.run in runs && Honest(e)
  {
    if runs != [] {
      var n := |runs| - 1;
      AllHonest(runs[..n]);
      EmissionsHonest(runs[n], runs[n].cfg.timelocks);
    }
  }

  // ----- where a batch goes

  /** The places where the lookup ends up for what the qualifier's timelocks ask for. */
  function PlacesAskedFor(r: ChainRun, qualifier: string): set<Address> {
    set tl, h | tl in r.cfg.timelocks && tl.qualifier == qualifier && h in tl.transferOwnership
      && LookupPlace(r, h).Some? :: LookupPlace(r, h).value
  }

  lemma LookupTargetsAre(runs: seq<ChainRun>, r: ChainRun, qualifier: string)
    requires r in runs && forall i, j :: 0 <= i < j < |runs| ==> runs[i].env.selector != runs[j].env.selector
    ensures LookupTargets(r.env.selector, r.cfg, AllAddresses(runs), qualifier) == PlacesAskedFor(r, qualifier)
  {
    hide AllAddresses, LookupHolder, LookupPlace;
    forall tl, h | tl in r.cfg.timelocks && h in tl.transferOwnership
      ensures LookupHolder(r.env.selector, h, r.cfg.mcms, AllAddresses(runs)) == LookupPlace(r, h)
    {
      LookupIs(runs, r, h);
    }
    var found, mine :=
      LookupTargets(r.env.selector, r.cfg, AllAddresses(runs), qualifier), PlacesAskedFor(r, qualifier);
    forall a | a in found
      ensures a in mine
    {
      var tl, h :| tl in r.cfg.timelocks && tl.qualifier == qualifier && h in tl.transferOwnership
        && LookupHolder(r.env.selector, h, r.cfg.mcms, AllAddresses(runs)) == Some(a);
      assert LookupPlace(r, h) == Some(a);
    }
    forall a | a in mine
      ensures a in found
    {
      var tl, h :| tl in r.cfg.timelocks && tl.qualifier == qualifier && h in tl.transferOwnership
        && LookupPlace(r, h) == Some(a);
      assert LookupHolder(r.env.selector, h, r.cfg.mcms, AllAddresses(runs)) == Some(a);
    }
  }

  lemma HoldersValid(r: ChainRun, cfgs: Configs, hasMCMS: bool, tl: TimelockSpec, h: RoleHolder)
    requires ValidRun(r, cfgs, hasMCMS) && tl in r.cfg.timelocks && h in tl.transferOwnership
    ensures ValidHolder(h, McmRefs(r.cfg.mcms))
  {
    assert ValidTimelock(tl, McmRefs(r.cfg.mcms), hasMCMS);
  }

  /** Whatever the MCMs have in common: a batch goes to a qualifier's proposal exactly
      when it accepts a contract at the place where the lookup ends up for something
      that the qualifier's timelocks ask for. */
  lemma BelongsIff(runs: seq<ChainRun>, cfgs: Configs, hasMCMS: bool, e: Emission, qualifier: string)
    requires ValidRuns(runs, cfgs, hasMCMS) && e.run in runs && Honest(e)
    ensures Belongs(e.op, AllAddresses(runs), cfgs, qualifier) <==>
      exists tl, h :: tl in e.run.cfg.timelocks && tl.qualifier == qualifier && h in tl.transferOwnership
                   && LookupPlace(e.run, h).Some? && LookupPlace(e.run, h).value in e.op.transactions
  {
    assert ValidRun(e.run, cfgs, hasMCMS);
    LookupTargetsAre(runs, e.run, qualifier);
    hide ValidRuns, ValidRun, LookupTargets, AllAddresses, LookupPlace;
    var asked := PlacesAskedFor(e.run, qualifier);
    if tx :| tx in e.op.transactions && tx in asked {
      var tl, h :| tl in e.run.cfg.timelocks && tl.qualifier == qualifier && h in tl.transferOwnership
        && LookupPlace(e.run, h) == Some(tx);
    }
    forall tl, h | tl in e.run.cfg.timelocks && tl.qualifier == qualifier && h in tl.transferOwnership
      && LookupPlace(e.run, h).Some?
      ensures LookupPlace(e.run, h).value in asked
    {}
  }

  /** The contracts that a timelock is left to accept. */
  function Pending(r: ChainRun, tl: TimelockSpec): set<Address> {
    set a | a in Targets(tl, RefsOf(r)) && a in r.own && r.own[a].twoStep
  }

  /** On the configuration and the starting chain: of what a timelock is left to
      accept, some place is where the lookup ends up for its own qualifier, and none
      for another. */
  predicate RoutesOwn(r: ChainRun) {
    forall tl :: tl in r.cfg.timelocks && Pending(r, tl) != {} ==>
      && !(Pending(r, tl) !! PlacesAskedFor(r, tl.qualifier))
      && forall tl' :: tl' in r.cfg.timelocks && tl'.qualifier != tl.qualifier ==>
           Pending(r, tl) !! PlacesAskedFor(r, tl'.qualifier)
  }

  lemma BelongsToPlaces(runs: seq<ChainRun>, cfgs: Configs, hasMCMS: bool, e: Emission, qualifier: string)
    requires ValidRuns(runs, cfgs, hasMCMS) && e.run in runs && Honest(e)
    ensures Belongs(e.op, AllAddresses(runs), cfgs, qualifier) <==>
      !(Pending(e.run, e.timelock) !! PlacesAskedFor(e.run, qualifier))
    ensures Pending(e.run, e.timelock) != {}
  {
    assert ValidRun(e.run, cfgs, hasMCMS);
    LookupTargetsAre(runs, e.run, qualifier);
    hide ValidRuns, ValidRun, LookupTargets, AllAddresses, PlacesAskedFor, RefsOf, Targets;
    assert forall a :: a in e.op.transactions <==> a in Pending(e.run, e.timelock);
    assert e.op.transactions[0] in e.op.transactions;
    var pending, asked := Pending(e.run, e.timelock), PlacesAskedFor(e.run, qualifier);
    if !(pending !! asked) {
      var a :| a in pending && a in asked;
      assert a in e.op.transactions;
    }
  }

  lemma BelongsHome(runs: seq<ChainRun>, cfgs: Configs, hasMCMS: bool, e: Emission, qualifier: string)
    requires ValidRuns(runs, cfgs, hasMCMS) && e.run in runs && Honest(e) && RoutesOwn(e.run)
    ensures Belongs(e.op, AllAddresses(runs), cfgs, qualifier) <==> qualifier == e.timelock.qualifier
  {
    BelongsToPlaces(runs, cfgs, hasMCMS, e, qualifier);
    hide ValidRuns, Belongs, AllAddresses, Pending, LookupPlace;
    if !(Pending(e.run, e.timelock) !! PlacesAskedFor(e.run, qualifier)) {
      var a :| a in Pending(e.run, e.timelock) && a in PlacesAskedFor(e.run, qualifier);
      var tl :| tl in e.run.cfg.timelocks && tl.qualifier == qualifier;
    }
  }

  /** Every emitted batch is in one proposal only, its own timelock's. */
  ghost predicate AllHome(runs: seq<ChainRun>, cfgs: Configs)
    requires AllRunsResolvable(runs)
  {
    forall e, q :: e in AllEmissions(runs) ==>
      (Belongs(e.op, AllAddresses(runs), cfgs, q) <==> q == e.timelock.qualifier)
  }

  /** The condition is exact. */
  lemma HomeIff(runs: seq<ChainRun>, cfgs: Configs, hasMCMS: bool)
    requires ValidRuns(runs, cfgs, hasMCMS) && AllRunsResolvable(runs)
    ensures AllHome(runs, cfgs) <==> forall r :: r in runs ==> RoutesOwn(r)
  {
    AllHonest(runs);
    if forall r :: r in runs ==> RoutesOwn(r) {
      forall e, q | e in AllEmissions(runs)
        ensures Belongs(e.op, AllAddresses(runs), cfgs, q) <==> q == e.timelock.qualifier
      {
        BelongsHome(runs, cfgs, hasMCMS, e, q);
      }
    }
    if AllHome(runs, cfgs) {
      forall r | r in runs
        ensures RoutesOwn(r)
      {
        HomeNeeds(runs, cfgs, hasMCMS, r);
      }
    }
    hide ValidRuns, Belongs, AllAddresses, Honest, RoutesOwn, AllEmissions, AllRunsResolvable;
  }

  lemma HomeNeeds(runs: seq<ChainRun>, cfgs: Configs, hasMCMS: bool, r: ChainRun)
    requires ValidRuns(runs, cfgs, hasMCMS) && AllRunsResolvable(runs) && r in runs
    requires AllHome(runs, cfgs)
    ensures RoutesOwn(r)
  {
    hide ValidRuns, Belongs, AllAddresses, Honest, AllEmissions, AllRunsResolvable, Pending, PlacesAskedFor;
    AllHonest(runs);
    forall tl | tl in r.cfg.timelocks && Pending(r, tl) != {}
      ensures !(Pending(r, tl) !! PlacesAskedFor(r, tl.qualifier))
      ensures forall tl' :: tl' in r.cfg.timelocks && tl'.qualifier != tl.qualifier ==>
        Pending(r, tl) !! PlacesAskedFor(r, tl'.qualifier)
    {
      var e := EmissionOf(runs, r, tl);
      BelongsToPlaces(runs, cfgs, hasMCMS, e, tl.qualifier);
      forall tl' | tl' in r.cfg.timelocks && tl'.qualifier != tl.qualifier
        ensures Pending(r, tl) !! PlacesAskedFor(r, tl'.qualifier)
      {
        BelongsToPlaces(runs, cfgs, hasMCMS, e, tl'.qualifier);
      }
    }
  }

  /** A timelock left with something to accept emits a batch. */
  lemma {:induction false} EmissionOf(runs: seq<ChainRun>, r: ChainRun, tl: TimelockSpec) returns (e: Emission)
    requires AllRunsResolvable(runs) && r in runs && tl in r.cfg.timelocks && Pending(r, tl) != {}
    ensures e in AllEmissions(runs) && e.run == r && e.timelock == tl
  {
    hide Pending, AllResolvable, EmissionsOf;
    var n := |runs| - 1;
    assert runs == runs[..n] + [runs[n]];
    if r == runs[n] {
      e := OwnEmission(r, r.cfg.timelocks, tl);
    } else {
      e := EmissionOf(runs[..n], r, tl);
    }
  }

  lemma {:induction false} OwnEmission(r: ChainRun, timelocks: seq<TimelockSpec>, tl: TimelockSpec)
    returns (e: Emission)
    requires AllResolvable(timelocks, RefsOf(r)) && tl in timelocks && Pending(r, tl) != {}
    ensures e in EmissionsOf(r, timelocks) && e.run == r && e.timelock == tl
  {
    var n := |timelocks| - 1;
    assert timelocks == timelocks[..n] + [timelocks[n]];
    if tl == timelocks[n] {
      var targets := Resolved(tl.transferOwnership, RefsOf(r));
      TargetsAre(tl, RefsOf(r));
      ToAcceptAre(r.own, targets);
      var a :| a in Pending(r, tl);
      assert a in ToAccept(r.own, targets);
      e := Emission(r, tl, BatchOp(r.env.selector, ToAccept(r.own, targets)));
    } else {
      e := OwnEmission(r, timelocks[..n], tl);
    }
  }

  /** Unique qualifiers and types, with no target shared between qualifiers, suffice. */
  lemma UniqueRoutesOwn(r: ChainRun, cfgs: Configs, hasMCMS: bool)
    requires ValidRun(r, cfgs, hasMCMS) && UniqueMcms(r.cfg.mcms) && DisjointQualifiers(r)
    ensures RoutesOwn(r)
  {
    hide RefsOf, LookupPlace, ValidRun, UniqueMcms;
    forall tl, h | tl in r.cfg.timelocks && h in tl.transferOwnership
      ensures LookupPlace(r, h) == ResolveHolder(h, RefsOf(r))
    {
      HoldersValid(r, cfgs, hasMCMS, tl, h);
      LookupAgrees(r, cfgs, hasMCMS, h);
    }
    forall tl | tl in r.cfg.timelocks
      ensures Targets(tl, RefsOf(r)) <= PlacesAskedFor(r, tl.qualifier)
      ensures forall tl' :: tl' in r.cfg.timelocks && tl'.qualifier != tl.qualifier ==>
        Targets(tl, RefsOf(r)) !! PlacesAskedFor(r, tl'.qualifier)
    {
      forall a | a in Targets(tl, RefsOf(r))
        ensures a in PlacesAskedFor(r, tl.qualifier)
      {
        var h :| h in tl.transferOwnership && ResolveHolder(h, RefsOf(r)) == Some(a);
        assert LookupPlace(r, h).value in PlacesAskedFor(r, tl.qualifier);
      }
      AskedElsewhere(r, tl);
    }
    hide PlacesAskedFor, Targets;
    forall tl | tl in r.cfg.timelocks && Pending(r, tl) != {}
      ensures !(Pending(r, tl) !! PlacesAskedFor(r, tl.qualifier))
    {
      var a :| a in Pending(r, tl);
      assert a in PlacesAskedFor(r, tl.qualifier);
    }
  }

  lemma DisjointByQualifier(r: ChainRun)
    requires Disjoint(r.cfg.timelocks, RefsOf(r))
    ensures DisjointQualifiers(r)
  {
    forall tl, tl' | tl in r.cfg.timelocks && tl' in r.cfg.timelocks && tl.qualifier != tl'.qualifier
      ensures Targets(tl, RefsOf(r)) !! Targets(tl', RefsOf(r))
    {
      var i :| 0 <= i < |r.cfg.timelocks| && r.cfg.timelocks[i] == tl;
      var j :| 0 <= j < |r.cfg.timelocks| && r.cfg.timelocks[j] == tl';
      assert i < j || j < i;
    }
  }

  lemma AskedElsewhere(r: ChainRun, tl: TimelockSpec)
    requires tl in r.cfg.timelocks && DisjointQualifiers(r)
    requires forall t, h :: t in r.cfg.timelocks && h in t.transferOwnership ==>
      LookupPlace(r, h) == ResolveHolder(h, RefsOf(r))
    ensures forall tl' :: tl' in r.cfg.timelocks && tl'.qualifier != tl.qualifier ==>
      Targets(tl, RefsOf(r)) !! PlacesAskedFor(r, tl'.qualifier)
  {
    hide RefsOf, LookupPlace;
    forall tl', a | tl' in r.cfg.timelocks && tl'.qualifier != tl.qualifier && a in PlacesAskedFor(r, tl'.qualifier)
      ensures a !in Targets(tl, RefsOf(r))
    {
      var t, h :| t in r.cfg.timelocks && t.qualifier == tl'.qualifier && h in t.transferOwnership
        && LookupPlace(r, h) == Some(a);
      assert a in Targets(t, RefsOf(r));
    }
  }

  /** The emissions of timelocks with the qualifier, in order. */
  function ForQualifier(es: seq<Emission>, qualifier: string): seq<Emission> {
    if es == [] then []
    else
      var n := |es| - 1;
      ForQualifier(es[..n], qualifier) + if es[n].timelock.qualifier == qualifier then [es[n]] else []
  }

  lemma {:induction false} RoutedHome(runs: seq<ChainRun>, cfgs: Configs, hasMCMS: bool, es: seq<Emission>,
                                      qualifier: string)
    requires ValidRuns(runs, cfgs, hasMCMS) && (forall r :: r in runs ==> RoutesOwn(r))
    requires forall e :: e in es ==> e.run in runs && Honest(e)
    ensures Routed(Ops(es), AllAddresses(runs), cfgs, qualifier) == Ops(ForQualifier(es, qualifier))
  {
    hide ValidRuns, Honest, RoutesOwn, Belongs, AllAddresses;
    if es != [] {
      var n := |es| - 1;
      assert es == es[..n] + [es[n]] && Ops(es)[..n] == Ops(es[..n]) && es[n] in es;
      RoutedHome(runs, cfgs, hasMCMS, es[..n], qualifier);
      BelongsHome(runs, cfgs, hasMCMS, es[n], qualifier);
      var rest := ForQualifier(es[..n], qualifier);
      assert Ops(rest + [es[n]]) == Ops(rest) + [es[n].op] && Ops(rest + []) == Ops(rest);
    }
  }

  // ----- conservation

  /** The emissions of timelocks with one of the qualifiers, in order. */
  function Among(es: seq<Emission>, qualifiers: set<string>): seq<Emission> {
    if es == [] then []
    else
      var n := |es| - 1;
      Among(es[..n], qualifiers) + if es[n].timelock.qualifier in qualifiers then [es[n]] else []
  }

  lemma OpsJoin(p: seq<Emission>, q: seq<Emission>)
    ensures Ops(p + q) == Ops(p) + Ops(q)
  {}

  lemma {:induction false} AmongOneMore(es: seq<Emission>, qualifiers: set<string>, q: string)
    requires q !in qualifiers
    ensures multiset(Ops(Among(es, qualifiers + {q}))) == multiset(Ops(Among(es, qualifiers)))
      + multiset(Ops(ForQualifier(es, q)))
  {
    if es != [] {
      var n := |es| - 1;
      AmongOneMore(es[..n], qualifiers, q);
      var last := if es[n].timelock.qualifier in qualifiers + {q} then [es[n]] else [];
      OpsJoin(Among(es[..n], qualifiers + {q}), last);
      OpsJoin(Among(es[..n], qualifiers), if es[n].timelock.qualifier in qualifiers then [es[n]] else []);
      OpsJoin(ForQualifier(es[..n], q), if es[n].timelock.qualifier == q then [es[n]] else []);
    }
  }

  lemma {:induction false} AmongAll(es: seq<Emission>, qualifiers: set<string>)
    requires forall e :: e in es ==> e.timelock.qualifier in qualifiers
    ensures Among(es, qualifiers) == es
  {
    if es != [] {
      var n := |es| - 1;
      assert es == es[..n] + [es[n]];
      AmongAll(es[..n], qualifiers);
    }
  }

  lemma {:induction false} NoneAmong(es: seq<Emission>)
    ensures Among(es, {}) == []
  {
    if es != [] {
      NoneAmong(es[..|es| - 1]);
    }
  }

  function Named(order: seq<string>): set<string> {
    set i | 0 <= i < |order| :: order[i]
  }

  /** One proposal per qualifier holds the batches of that qualifier. */
  predicate RoutesHome(ps: seq<Proposal>, es: seq<Emission>) {
    forall p :: p in ps ==> p.ops == Ops(ForQualifier(es, p.qualifier))
  }

  /** At most one proposal per qualifier, in their order, each with what is routed to it,
      and one for every qualifier with anything. */
  lemma {:induction false} ProposalsAre(order: seq<string>, ops: seq<BatchOp>, addresses: seq<AddressRef>,
                                        cfgs: Configs)
    requires forall i, j :: 0 <= i < j < |order| ==> order[i] != order[j]
    ensures
      var ps := Proposals(order, ops, addresses, cfgs);
      && (forall p :: p in ps ==>
            p.qualifier in order && p.ops == Routed(ops, addresses, cfgs, p.qualifier) && p.ops != [])
      && (forall q :: q in order && Routed(ops, addresses, cfgs, q) != [] ==>
            Proposal(q, Routed(ops, addresses, cfgs, q)) in ps)
      && (forall i, j :: 0 <= i < j < |ps| ==> ps[i].qualifier != ps[j].qualifier)
      && InOrder(ps, order)
  {
    hide Routed, InOrder;
    if order == [] {
      NoProposals(ops, addresses, cfgs);
    } else {
      var rest, q := order[..|order| - 1], order[|order| - 1];
      assert order == rest + [q] && q !in rest;
      ProposalsAre(rest, ops, addresses, cfgs);
      ProposalsSnoc(rest, q, ops, addresses, cfgs);
      var before, routed := Proposals(rest, ops, addresses, cfgs), Routed(ops, addresses, cfgs, q);
      StillInOrder(before, rest, q, routed);
      hide Proposals;
      if routed == [] {
        assert before + [] == before;
      } else {
        LastProposal(before, Proposal(q, routed));
      }
    }
  }

  lemma LastProposal(before: seq<Proposal>, p: Proposal)
    requires forall r :: r in before ==> r.qualifier != p.qualifier
    requires forall i, j :: 0 <= i < j < |before| ==> before[i].qualifier != before[j].qualifier
    ensures forall r :: r in before + [p] <==> r in before || r == p
    ensures
      var ps := before + [p];
      forall i, j :: 0 <= i < j < |ps| ==> ps[i].qualifier != ps[j].qualifier
  {
    assert forall i :: 0 <= i < |before| ==> before[i] in before;
  }

  lemma ProposalsSnoc(rest: seq<string>, q: string, ops: seq<BatchOp>, addresses: seq<AddressRef>, cfgs: Configs)
    ensures
      var (before, routed) := (Proposals(rest, ops, addresses, cfgs), Routed(ops, addresses, cfgs, q));
      Proposals(rest + [q], ops, addresses, cfgs) == before + if routed == [] then [] else [Proposal(q, routed)]
  {
    hide Routed;
    assert (rest + [q])[..|rest|] == rest;
  }

  /** The proposals are for some of the qualifiers, in their order. */
  predicate InOrder(ps: seq<Proposal>, order: seq<string>) {
    || ps == []
    || (order != []
          && if ps[|ps| - 1].qualifier == order[|order| - 1] then InOrder(ps[..|ps| - 1], order[..|order| - 1])
             else InOrder(ps, order[..|order| - 1]))
  }

  lemma NoProposals(ops: seq<BatchOp>, addresses: seq<AddressRef>, cfgs: Configs)
    ensures InOrder(Proposals([], ops, addresses, cfgs), [])
  {}

  lemma StillInOrder(before: seq<Proposal>, order: seq<string>, q: string, ops: seq<BatchOp>)
    requires InOrder(before, order) && q !in order && forall p :: p in before ==> p.qualifier in order
    ensures InOrder(before, order + [q]) && InOrder(before + [Proposal(q, ops)], order + [q])
  {
    assert (order + [q])[..|order|] == order;
    assert (before + [Proposal(q, ops)])[..|before|] == before;
    assert before != [] ==> before[|before| - 1] in before;
  }

  lemma OneMoreProposal(order: seq<string>, ops: seq<BatchOp>, addresses: seq<AddressRef>, cfgs: Configs)
    requires order != []
    ensures
      var n := |order| - 1;
      AllProposed(Proposals(order, ops, addresses, cfgs)) == AllProposed(Proposals(order[..n], ops, addresses, cfgs))
        + Routed(ops, addresses, cfgs, order[n])
  {
    var n := |order| - 1;
    var before, routed := Proposals(order[..n], ops, addresses, cfgs), Routed(ops, addresses, cfgs, order[n]);
    if routed == [] {
      assert before + [] == before && AllProposed(before) + [] == AllProposed(before);
    } else {
      var p := Proposal(order[n], routed);
      assert (before + [p])[..|before|] == before;
    }
  }

  lemma {:induction false} ProposedOnce(runs: seq<ChainRun>, cfgs: Configs, hasMCMS: bool, es: seq<Emission>,
                                        order: seq<string>)
    requires ValidRuns(runs, cfgs, hasMCMS) && (forall r :: r in runs ==> RoutesOwn(r))
    requires forall e :: e in es ==> e.run in runs && Honest(e)
    requires forall i, j :: 0 <= i < j < |order| ==> order[i] != order[j]
    ensures multiset(AllProposed(Proposals(order, Ops(es), AllAddresses(runs), cfgs))) ==
      multiset(Ops(Among(es, Named(order))))
  {
    hide ValidRuns, Honest, RoutesOwn, AllAddresses, Routed, Ops, ForQualifier, Among, Proposals, AllProposed;
    if order == [] {
      NoneAmong(es);
      assert Named(order) == {};
      NoOps(runs, cfgs, es);
    } else {
      var n := |order| - 1;
      ProposedOnce(runs, cfgs, hasMCMS, es, order[..n]);
      RoutedHome(runs, cfgs, hasMCMS, es, order[n]);
      OneMoreProposal(order, Ops(es), AllAddresses(runs), cfgs);
      assert order == order[..n] + [order[n]];
      assert Named(order) == Named(order[..n]) + {order[n]};
      AmongOneMore(es, Named(order[..n]), order[n]);
    }
  }

  lemma NoOps(runs: seq<ChainRun>, cfgs: Configs, es: seq<Emission>)
    ensures Ops([]) == [] && AllProposed(Proposals([], Ops(es), AllAddresses(runs), cfgs)) == []
  {}

  lemma QualifierListed(cfgs: Configs, hasMCMS: bool, e: Emission)
    requires ValidRun(e.run, cfgs, hasMCMS) && Honest(e)
    ensures e.timelock.qualifier in QualifiersWithTransfers(cfgs)
  {
    var tx := e.op.transactions[0];
    assert tx in e.op.transactions;
    var h :| h in e.timelock.transferOwnership && ResolveHolder(h, RefsOf(e.run)) == Some(tx);
  }

  /** Conservation: over all chains, whatever the order of the qualifiers, every
      emitted batch is in exactly one proposal, its own timelock's qualifier's; each
      proposal keeps the emission order; none is lost or repeated; and no proposal is
      empty. */
  lemma Conservation(runs: seq<ChainRun>, cfgs: Configs, hasMCMS: bool, order: seq<string>)
    requires ValidRuns(runs, cfgs, hasMCMS) && AllRunsResolvable(runs) && (forall r :: r in runs ==> RoutesOwn(r))
    requires forall i, j :: 0 <= i < j < |order| ==> order[i] != order[j]
    requires forall q :: q in order <==> q in QualifiersWithTransfers(cfgs)
    ensures
      var es := AllEmissions(runs);
      var ps := Proposals(order, Ops(es), AllAddresses(runs), cfgs);
      && RoutesHome(ps, es) && InOrder(ps, order)
      && (forall p :: p in ps ==> p.ops != [])
      && (forall i, j :: 0 <= i < j < |ps| ==> ps[i].qualifier != ps[j].qualifier)
      && multiset(AllProposed(ps)) == multiset(Ops(es))
  {
    var es := AllEmissions(runs);
    AllHonest(runs);
    ProposalsAre(order, Ops(es), AllAddresses(runs), cfgs);
    hide InOrder;
    forall q | q in order
      ensures Routed(Ops(es), AllAddresses(runs), cfgs, q) == Ops(ForQualifier(es, q))
    {
      RoutedHome(runs, cfgs, hasMCMS, es, q);
    }
    ProposedOnce(runs, cfgs, hasMCMS, es, order);
    forall e | e in es
      ensures e.timelock.qualifier in Named(order)
    {
      assert ValidRun(e.run, cfgs, hasMCMS);
      QualifierListed(cfgs, hasMCMS, e);
    }
    AmongAll(es, Named(order));
  }

  // ----- without unique qualifiers and types

  /** The MCM at this address has an earlier one alike. */
  predicate Shadowed(r: ChainRun, a: Address) {
    exists i, j :: 0 <= j < i < |r.cfg.mcms| && a == r.first + i && Alike(r.cfg.mcms[j], r.cfg.mcms[i])
  }

  /** What a lookup yields is never shadowed. */
  lemma PlaceUnshadowed(r: ChainRun, h: RoleHolder)
    requires h.address.Some? ==> h.address.value < r.first
    ensures LookupPlace(r, h).Some? ==> !Shadowed(r, LookupPlace(r, h).value)
  {
    hide FirstSpec, FirstAlike;
    if h.address.None? && FirstSpec(r.cfg.mcms, h.mcmRef).Some? {
      var i := SpecIndex(r.cfg.mcms, h.mcmRef);
      FirstAlikeIs(r.cfg.mcms, i);
      var j := FirstAlike(r.cfg.mcms, r.cfg.mcms[i]);
      assert forall k :: 0 <= k < j ==> !Alike(r.cfg.mcms[k], r.cfg.mcms[j]);
    }
  }

  /** An unshadowed target is found again. */
  lemma UnshadowedHolder(r: ChainRun, cfgs: Configs, hasMCMS: bool, h: RoleHolder)
    requires ValidRun(r, cfgs, hasMCMS) && ValidHolder(h, McmRefs(r.cfg.mcms))
    requires ResolveHolder(h, RefsOf(r)).Some? && !Shadowed(r, ResolveHolder(h, RefsOf(r)).value)
    ensures LookupPlace(r, h) == ResolveHolder(h, RefsOf(r))
  {
    hide FirstSpec, FirstAlike, McmPlaces, ValidChainConfig, McmRefs;
    UniqueRefs(r.cfg, hasMCMS);
    McmPlacesAre(r.first, r.cfg.mcms);
    if h.mcmRef != "" {
      var i := DeclaredAt(r.cfg.mcms, h.mcmRef);
      FirstSpecIs(r.cfg.mcms, i);
      FirstAlikeIs(r.cfg.mcms, i);
    }
  }

  lemma DeclaredAt(mcms: seq<MCMSpec>, ref: string) returns (i: nat)
    requires ref in McmRefs(mcms)
    ensures i < |mcms| && mcms[i].ref == ref
  {
    i :| 0 <= i < |mcms| && mcms[i].ref == ref;
  }

  /** A batch is in some proposal exactly when one of its targets is not an MCM
      shadowed by an earlier one alike; otherwise it is lost. */
  lemma KeptIff(runs: seq<ChainRun>, cfgs: Configs, hasMCMS: bool, e: Emission)
    requires ValidRuns(runs, cfgs, hasMCMS) && e.run in runs && Honest(e)
    requires forall tl, h :: tl in e.run.cfg.timelocks && h in tl.transferOwnership && h.address.Some? ==>
      h.address.value < e.run.first
    ensures (exists q :: Belongs(e.op, AllAddresses(runs), cfgs, q)) <==>
      exists a :: a in e.op.transactions && !Shadowed(e.run, a)
  {
    var r := e.run;
    assert ValidRun(r, cfgs, hasMCMS);
    hide AllAddresses, Shadowed, ValidRuns, ValidRun, LookupPlace, Belongs, RefsOf;
    if q :| Belongs(e.op, AllAddresses(runs), cfgs, q) {
      BelongsIff(runs, cfgs, hasMCMS, e, q);
      var tl, h :| tl in r.cfg.timelocks && tl.qualifier == q && h in tl.transferOwnership && LookupPlace(r, h).Some?
        && LookupPlace(r, h).value in e.op.transactions;
      PlaceUnshadowed(r, h);
    }
    if a :| a in e.op.transactions && !Shadowed(r, a) {
      var h :| h in e.timelock.transferOwnership && ResolveHolder(h, RefsOf(r)) == Some(a);
      HoldersValid(r, cfgs, hasMCMS, e.timelock, h);
      UnshadowedHolder(r, cfgs, hasMCMS, h);
      BelongsIff(runs, cfgs, hasMCMS, e, e.timelock.qualifier);
    }
  }
}
