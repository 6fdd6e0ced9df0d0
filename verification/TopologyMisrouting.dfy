/** Two MCMs alike, in a configuration that validation accepts: the batch of the one
    asked for by the first timelock goes to both proposals, that of the other to none. */
module TopologyMisrouting {
  import opened Wrappers
  import opened Evm
  import opened Ownership
  import opened Topology
  import opened TopologyRun
  import opened TopologyOutcome
  import opened TopologyProgram
  import opened TopologyProgress
  import opened TopologyEffect
  import opened TopologyResult
  import opened TopologyRouting
  import opened TopologyConservation
  import opened TopologyEndToEnd

  const FIRST := MCMSpec("m1", Config(1), "team", PROPOSER, "")
  const SECOND := MCMSpec("m2", Config(2), "team", PROPOSER, "")
  const NOBODY := RoleAssignments([], [], [], [], [])
  const ASKS_FIRST := TimelockSpec("t1", 0, "a", "", NOBODY, [RoleHolder("m1", None)])
  const ASKS_SECOND := TimelockSpec("t2", 0, "b", "", NOBODY, [RoleHolder("m2", None)])
  const ALIKE := ChainConfig([FIRST, SECOND], [ASKS_FIRST, ASKS_SECOND], map[])

  /** A run of it on chain 1, by deployer 2, whose MCMs are at 5 and 6. */
  const RUN := ChainRun(Env(1, 2, map[]), ALIKE, 5, map[5 := Ownable(2, None, true), 6 := Ownable(2, None, true)])
  const CFGS: Configs := map[1 := ALIKE]

  lemma Accepted()
    ensures ValidChainConfig(ALIKE, true) && ValidRuns([RUN], CFGS, true)
  {
    var declared := McmRefs(ALIKE.mcms);
    assert FIRST in ALIKE.mcms && SECOND in ALIKE.mcms;
    assert declared == {"m1", "m2"};
    assert ALIKE.mcms[0].ref[1] != ALIKE.mcms[1].ref[1] && ALIKE.timelocks[0].ref[1] != ALIKE.timelocks[1].ref[1];
    assert "t1"[0] != "m1"[0] && "t1"[0] != "m2"[0] && "t2"[0] != "m1"[0] && "t2"[0] != "m2"[0];
    assert ValidTimelock(ASKS_FIRST, declared, true) && ValidTimelock(ASKS_SECOND, declared, true);
    assert ValidRun(RUN, CFGS, true);
  }

  lemma Places()
    ensures RefsOf(RUN).Keys == {"m1", "m2"} && RefsOf(RUN)["m1"] == 5 && RefsOf(RUN)["m2"] == 6
    ensures AllRunsResolvable([RUN])
    ensures Targets(ASKS_FIRST, RefsOf(RUN)) == {5} && Targets(ASKS_SECOND, RefsOf(RUN)) == {6}
    ensures LookupPlace(RUN, RoleHolder("m1", None)) == Some(5) && LookupPlace(RUN, RoleHolder("m2", None)) == Some(5)
  {
    Accepted();
    McmPlacesAre(5, ALIKE.mcms);
    assert ALIKE.mcms[0] == FIRST && ALIKE.mcms[1] == SECOND && McmRefs(ALIKE.mcms) == {"m1", "m2"};
    AllResolve(ALIKE.timelocks, RefsOf(RUN), {"m1", "m2"}, true);
    assert RoleHolder("m1", None) in ASKS_FIRST.transferOwnership
      && RoleHolder("m2", None) in ASKS_SECOND.transferOwnership;
    FirstSpecIs(ALIKE.mcms, 0);
    FirstSpecIs(ALIKE.mcms, 1);
    assert Alike(FIRST, SECOND) && Alike(FIRST, FIRST);
  }

  /** The run's start: an empty chain, no reports, operations for every command. */
  predicate Start(s: St) {
    && s.chain == Chain(map[], map[], map[], map[], 5) && s.reports == map[]
    && s.budget >= |Program(RUN.env, ALIKE)|
  }

  lemma Completes(s: St)
    requires Start(s)
    ensures Run(s, RUN.env, ALIKE).1.Done?
      && ChainDone(s.chain, RUN, Run(s, RUN.env, ALIKE).0.chain, Run(s, RUN.env, ALIKE).1.value)
  {
    Accepted();
    hide ValidChainConfig, Run, Program, ChainDone;
    assert ClaimedOnce(ALIKE) && OutsideOwned(ALIKE, RUN.env, s.chain.ownables);
    assert Resumable(s, RUN.env, ALIKE, true);
    CompletesIff(s, RUN.env, ALIKE, true);
    StartsAs(s);
    ChainOutcome(s, RUN.env, ALIKE, true);
  }

  lemma StartsAs(s: St)
    requires Start(s)
    ensures ChainRunOf(s.chain, RUN.env, ALIKE) == RUN
  {
    assert ALIKE.mcms[..1] == [FIRST] && [FIRST][..0] == [];
    assert AfterMcms(s.chain, 2, []) == s.chain;
    var c := AfterMcms(s.chain, 2, [FIRST]);
    assert c.next == 6 && c.ownables == map[5 := Ownable(2, None, true)];
  }

  /** What the completed run returns. */
  lemma Returns(s: St, e1: Emission, e2: Emission)
    requires Start(s) && AllRunsResolvable([RUN]) && e1 in AllEmissions([RUN]) && e2 in AllEmissions([RUN])
    ensures
      var o := Run(s, RUN.env, ALIKE).1;
      && o.Done? && o.value.batchOps == Ops(AllEmissions([RUN])) && o.value.addresses == AllAddresses([RUN])
      && e1.op in o.value.batchOps && e2.op in o.value.batchOps
  {
    hide Run, Start, EmissionsOf, AddressesOf;
    Completes(s);
    OneRun();
    InOps(AllEmissions([RUN]), e1);
    InOps(AllEmissions([RUN]), e2);
  }

  lemma Emitted() returns (e1: Emission, e2: Emission)
    ensures ValidChainConfig(ALIKE, true) && ValidRuns([RUN], CFGS, true) && AllRunsResolvable([RUN])
    ensures FirstAddress(AllAddresses([RUN]), 1, SECOND) == Some(5) && RefsOf(RUN).Keys == {"m1", "m2"}
      && RefsOf(RUN)["m2"] == 6
    ensures e1 in AllEmissions([RUN]) && e1.timelock == ASKS_FIRST && e1.op.transactions == [5]
    ensures Belongs(e1.op, AllAddresses([RUN]), CFGS, "a") && Belongs(e1.op, AllAddresses([RUN]), CFGS, "b")
    ensures 5 !in Targets(ASKS_SECOND, RefsOf(RUN))
    ensures e2 in AllEmissions([RUN]) && e2.timelock == ASKS_SECOND && e2.op.transactions == [6]
    ensures forall q :: !Belongs(e2.op, AllAddresses([RUN]), CFGS, q)
    ensures !RoutesOwn(RUN)
  {
    Accepted();
    Places();
    hide RefsOf, Belongs, AllAddresses, ValidRuns, ValidChainConfig, AllEmissions, EmissionsOf;
    assert RUN in [RUN] && ASKS_FIRST in ALIKE.timelocks && ASKS_SECOND in ALIKE.timelocks;
    assert Pending(RUN, ASKS_FIRST) == {5} && Pending(RUN, ASKS_SECOND) == {6};
    e1 := EmissionOf([RUN], RUN, ASKS_FIRST);
    e2 := EmissionOf([RUN], RUN, ASKS_SECOND);
    AllHonest([RUN]);
    OneTransaction(e1, 5);
    OneTransaction(e2, 6);
    AskedPlaces();
    BelongsToPlaces([RUN], CFGS, true, e1, "a");
    BelongsToPlaces([RUN], CFGS, true, e1, "b");
    forall q
      ensures !Belongs(e2.op, AllAddresses([RUN]), CFGS, q)
    {
      BelongsToPlaces([RUN], CFGS, true, e2, q);
    }
    OwnChainOnly([RUN], RUN, SECOND);
    assert ALIKE.mcms[1] == SECOND;
    FindsFirstAlike(RUN, 1);
    assert Alike(FIRST, SECOND);
  }

  /** The configuration is accepted and its run completes. The reverse lookup of the
      second MCM, at 6, finds the first, at 5. The batch that accepts 5 belongs to the
      proposals of both qualifiers, although "b" asks for none of its contracts; the
      batch that accepts 6 belongs to no proposal, and is lost. */
  lemma AlikeMcmsMisroute(s: St) returns (op1: BatchOp, op2: BatchOp)
    requires Start(s)
    ensures ValidChainConfig(ALIKE, true) && !RoutesOwn(RUN)
    ensures RefsOf(RUN).Keys == {"m1", "m2"} && RefsOf(RUN)["m2"] == 6 && 5 !in Targets(ASKS_SECOND, RefsOf(RUN))
    ensures
      var o := Run(s, RUN.env, ALIKE).1;
      && o.Done? && FirstAddress(o.value.addresses, 1, SECOND) == Some(5)
      && op1 in o.value.batchOps && op1.transactions == [5]
      && Belongs(op1, o.value.addresses, CFGS, "a") && Belongs(op1, o.value.addresses, CFGS, "b")
      && op2 in o.value.batchOps && op2.transactions == [6]
      && forall q :: !Belongs(op2, o.value.addresses, CFGS, q)
  {
    hide *;
    var e1, e2 := Emitted();
    Returns(s, e1, e2);
    op1, op2 := e1.op, e2.op;
  }

  lemma OneRun()
    ensures AllRunsResolvable([RUN]) && AllResolvable(ALIKE.timelocks, RefsOf(RUN))
    ensures AllEmissions([RUN]) == EmissionsOf(RUN, ALIKE.timelocks) && AllAddresses([RUN]) == AddressesOf(RUN)
  {
    Places();
    assert [RUN][..0] == [];
    assert RUN in [RUN];
    var none: seq<Emission> := [];
    assert AllEmissions([]) == none && AllAddresses([]) == [];
    hide EmissionsOf, AddressesOf;
  }

  lemma InOps(es: seq<Emission>, e: Emission)
    requires e in es
    ensures e.op in Ops(es)
  {
    var i :| 0 <= i < |es| && es[i] == e;
    assert Ops(es)[i] == e.op;
  }

  lemma OneTransaction(e: Emission, a: Address)
    requires Honest(e) && forall b :: b in e.op.transactions <==> b == a
    ensures e.op.transactions == [a]
  {
    var txs := e.op.transactions;
    var n := |txs| - 1;
    assert txs[0] in txs && txs[n] in txs;
  }

  lemma AskedPlaces()
    ensures PlacesAskedFor(RUN, "a") == {5} && PlacesAskedFor(RUN, "b") == {5}
    ensures forall q :: PlacesAskedFor(RUN, q) <= {5}
  {
    Places();
    assert ASKS_FIRST in ALIKE.timelocks && ASKS_SECOND in ALIKE.timelocks;
    assert RoleHolder("m1", None) in ASKS_FIRST.transferOwnership
      && RoleHolder("m2", None) in ASKS_SECOND.transferOwnership;
    hide LookupPlace;
    assert forall tl, h :: tl in ALIKE.timelocks && h in tl.transferOwnership ==> LookupPlace(RUN, h) == Some(5);
  }
}
