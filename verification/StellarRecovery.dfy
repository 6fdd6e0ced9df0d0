/** Crash recovery of the Stellar deployment: any series of runs, each killed
    anywhere and its metadata lost, is completed by one more run. */
module StellarRecovery {
  import opened Wrappers
  import opened StellarIdentity
  import opened StellarDeploy
  import opened Sequences

  /** One run of a series: the writes it gets, the reports it still finds (none with a
      volatile store, all with a persistent one), whether the report of the sequence
      itself is among them, and whatever other parties did to the ledger since the
      previous run. */
  datatype Attempt = Attempt(budget: nat, kept: set<OpInput>, keptOutput: bool, others: Ledger)

  /** The world with the reports of the sequence itself. */
  type Deployments = Store<World, Input, seq<AddressRef>>

  /** Only the deployer can occupy an address derived from its own account. */
  ghost predicate ByOthers(env: Env, others: Ledger) {
    forall s: Salt :: Contract(env.network, env.signer, s) !in others
  }

  function Begin(w: World, attempt: Attempt): World {
    World(Chain(w.chain.ledger + attempt.others, attempt.budget),
          map op | op in w.reports && op in attempt.kept :: w.reports[op])
  }

  function BeginStore(s: Deployments, attempt: Attempt): Deployments {
    Store(Begin(s.world, attempt), if attempt.keptOutput then s.outputs else map[])
  }

  /** The deploy changeset on one chain: a sequence that has succeeded on this input
      before returns its old refs. */
  function RunSequence(s: Deployments, env: Env, ds: DataStore, input: Input): (Deployments, Outcome<seq<AddressRef>>) {
    if input in s.outputs then (s, Done(s.outputs[input])) else
    match Run(s.world, env, ds, input)
    case (w, Done(refs)) => (Store(w, s.outputs[input := refs]), Done(refs))
    case (w, o) => (Store(w, s.outputs), o)
  }

  /** The state after a series of runs over the same datastore: the refs a run
      may have found are lost, whether it was killed, failed or completed. */
  function After(s: Deployments, env: Env, ds: DataStore, input: Input, attempts: seq<Attempt>): Deployments {
    if attempts == [] then s
    else RunSequence(BeginStore(After(s, env, ds, input, attempts[..|attempts| - 1]), attempts[|attempts| - 1]), env,
      ds, input).0
  }

  // ----- the four contracts of one input

  datatype Part = P | C | B | T

  function TypeOf(part: Part): string {
    match part case P => PROPOSER case C => CANCELLER case B => BYPASSER case T => TIMELOCK
  }

  function ConfigOf(input: Input, part: Part): Config {
    match part case P => input.proposer case C => input.canceller case B => input.bypasser case T => NO_CONFIG
  }

  function WasmOf(env: Env, part: Part): seq<nat> {
    if part.T? then env.timelockWasm else env.mcmWasm
  }

  function PartSite(env: Env, input: Input, part: Part): Site {
    SiteOf(env, TypeOf(part), input.qualifier)
  }

  /** The attempt and the address a part resolves to on the ledger `start`. */
  function AttemptOf(start: Ledger, env: Env, input: Input, part: Part): nat {
    Resolved(start, PartSite(env, input, part), WasmHash(WasmOf(env, part)))
  }

  function Home(start: Ledger, env: Env, input: Input, part: Part): Address {
    Slot(PartSite(env, input, part), AttemptOf(start, env, input, part))
  }

  function RefOf(start: Ledger, env: Env, input: Input, part: Part): AddressRef {
    NewAddressRef(TypeOf(part), Home(start, env, input, part), input.qualifier, input.lbl)
  }

  /** The finished contract: a multisig with its configured config, or the
      timelock with exactly the role tables {P}, {P, C, B} and {B}. */
  function Finished(start: Ledger, env: Env, input: Input, part: Part): Instance {
    if part.T? then
      var (p, c, b) := (Home(start, env, input, P), Home(start, env, input, C), Home(start, env, input, B));
      Deployed(env.timelockWasm).(roles := Some(Roles(input.minDelay, {p}, {p, c, b}, {b})))
    else
      Deployed(env.mcmWasm).(owner := Some(Account(env.signer)), config := ConfigOf(input, part))
  }

  function OpOf(start: Ledger, env: Env, input: Input, part: Part): OpInput {
    if part.T? then TimelockOp(input, Home(start, env, input, P), Home(start, env, input, C),
      Home(start, env, input, B))
    else MCMOp(input, TypeOf(part), ConfigOf(input, part))
  }

  // ----- hypotheses on the start

  /** The probed slots are free or hold foreign code, and one is free. */
  predicate FreeOrForeign(start: Ledger, site: Site, hash: WasmHash) {
    && (forall a: nat :: a < MAX_DEPLOYMENT_SALT_ATTEMPTS ==>
          Slot(site, a) !in start || Foreign(start, Slot(site, a), hash))
    && exists a: nat :: a < MAX_DEPLOYMENT_SALT_ATTEMPTS && Slot(site, a) !in start
  }

  predicate ValidSetup(env: Env, input: Input) {
    && Usable(env, env.mcmWasm) && Usable(env, env.timelockWasm)
    && input.proposer.valid && input.canceller.valid && input.bypasser.valid
  }

  predicate CleanStart(start: Deployments, env: Env, ds: DataStore, input: Input) {
    && ValidSetup(env, input)
    && (forall part: Part ::
          FreeOrForeign(start.world.chain.ledger, PartSite(env, input, part), WasmHash(WasmOf(env, part))))
    && (forall part: Part :: OpOf(start.world.chain.ledger, env, input, part) !in start.world.reports)
    && input !in start.outputs
    && (forall part: Part :: (TypeOf(part), input.qualifier) !in ds)
  }

  // ----- what every run keeps

  predicate Staged(start: Ledger, env: Env, input: Input, ledger: Ledger, part: Part) {
    var id := Home(start, env, input, part);
    id in ledger ==> ledger[id] == Deployed(WasmOf(env, part)) || ledger[id] == Finished(start, env, input, part)
  }

  predicate IsFinished(start: Ledger, env: Env, input: Input, ledger: Ledger, part: Part) {
    var id := Home(start, env, input, part);
    id in ledger && ledger[id] == Finished(start, env, input, part)
  }

  /** Addresses derived from the deployer, apart from the four homes, are as at the start. */
  ghost predicate OthersUntouched(start: Ledger, env: Env, input: Input, ledger: Ledger) {
    forall s: Salt ::
      var id := Contract(env.network, env.signer, s);
      (forall part: Part :: id != Home(start, env, input, part)) ==>
        (id in ledger <==> id in start) && (id in start ==> ledger[id] == start[id])
  }

  ghost predicate Inv(start: Ledger, env: Env, input: Input, w: World) {
    && OthersUntouched(start, env, input, w.chain.ledger)
    && (forall part: Part :: Staged(start, env, input, w.chain.ledger, part))
    && (forall part: Part :: OpOf(start, env, input, part) in w.reports ==>
          && w.reports[OpOf(start, env, input, part)] == RefOf(start, env, input, part)
          && IsFinished(start, env, input, w.chain.ledger, part))
  }

  predicate Starts(start: Ledger, env: Env, input: Input) {
    && ValidSetup(env, input)
    && forall part: Part ::
         && AttemptOf(start, env, input, part) < MAX_DEPLOYMENT_SALT_ATTEMPTS
         && Home(start, env, input, part) !in start
  }

  /** A report of the sequence itself: of the finished four. */
  ghost predicate InvStore(start: Ledger, env: Env, input: Input, s: Deployments) {
    && Inv(start, env, input, s.world)
    && (input in s.outputs ==>
          s.outputs[input] == AllRefs(start, env, input) && AllFinished(start, env, input, s.world.chain.ledger))
  }

  lemma CleanStarts(start: Deployments, env: Env, ds: DataStore, input: Input)
    requires CleanStart(start, env, ds, input)
    ensures Starts(start.world.chain.ledger, env, input)
    ensures InvStore(start.world.chain.ledger, env, input, start)
  {
    forall part: Part
      ensures AttemptOf(start.world.chain.ledger, env, input, part) < MAX_DEPLOYMENT_SALT_ATTEMPTS
      ensures Home(start.world.chain.ledger, env, input, part) !in start.world.chain.ledger
    {
      var site, hash := PartSite(env, input, part), WasmHash(WasmOf(env, part));
      assert FreeOrForeign(start.world.chain.ledger, site, hash);
      var a: nat :| a < MAX_DEPLOYMENT_SALT_ATTEMPTS && Slot(site, a) !in start.world.chain.ledger;
      assert !Foreign(start.world.chain.ledger, Slot(site, a), hash);
    }
  }

  lemma TypesColonFree(part: Part)
    ensures ':' !in TypeOf(part)
  {}

  lemma TypesDiffer(part: Part, part': Part)
    requires part != part'
    ensures TypeOf(part) != TypeOf(part')
  {
    assert TypeOf(part)[0] != TypeOf(part')[0];
  }

  /** The homes of different parts differ, and none is another's earlier slot:
      this is where the salt preimage must be injective. */
  lemma HomesApart(start: Ledger, env: Env, input: Input, part: Part, part': Part, a: nat)
    requires part != part' || a != AttemptOf(start, env, input, part')
    ensures Slot(PartSite(env, input, part), a) != Home(start, env, input, part')
  {
    TypesColonFree(part);
    TypesColonFree(part');
    if part != part' {
      TypesDiffer(part, part');
    }
    SlotInjective(PartSite(env, input, part), a, PartSite(env, input, part'), AttemptOf(start, env, input, part'));
  }

  lemma HomesDistinct(start: Ledger, env: Env, input: Input)
    ensures Distinct(Home(start, env, input, P), Home(start, env, input, C), Home(start, env, input, B))
    ensures forall part: Part, part': Part :: part != part' ==>
      Home(start, env, input, part) != Home(start, env, input, part')
  {
    forall part: Part, part': Part | part != part'
      ensures Home(start, env, input, part) != Home(start, env, input, part')
    {
      HomesApart(start, env, input, part, part', AttemptOf(start, env, input, part));
    }
  }

  /** Resolution does not drift: in every state a run can leave, each part still
      resolves to its home. */
  lemma ResolutionStays(start: Ledger, env: Env, input: Input, w: World, part: Part)
    requires Starts(start, env, input) && Inv(start, env, input, w)
    ensures Resolved(w.chain.ledger, PartSite(env, input, part), WasmHash(WasmOf(env, part))) ==
      AttemptOf(start, env, input, part)
  {
    var site, hash, k := PartSite(env, input, part), WasmHash(WasmOf(env, part)), AttemptOf(start, env, input, part);
    forall a: nat | a < k
      ensures Foreign(w.chain.ledger, Slot(site, a), hash)
    {
      assert Foreign(start, Slot(site, a), hash);
      forall part': Part
        ensures Slot(site, a) != Home(start, env, input, part')
      {
        HomesApart(start, env, input, part, part', a);
      }
      assert Slot(site, a) ==
        Contract(env.network, env.signer, DeriveDeploymentSalt(site.contractType, site.qualifier, a));
    }
    assert Staged(start, env, input, w.chain.ledger, part);
    ResolvedIs(w.chain.ledger, site, hash, k);
  }

  /** The writes an operation still needs. */
  function Needed(start: Ledger, env: Env, input: Input, ledger: Ledger, part: Part): nat {
    if Home(start, env, input, part) !in ledger then 2 else if IsFinished(start, env, input, ledger, part) then 0 else 1
  }

  /** What one operation does from any state of a series: at most two writes, both
      at its home, the second one finishing the contract. */
  predicate Performed(start: Ledger, env: Env, input: Input, before: Chain, part: Part, after: Chain,
                      o: Outcome<AddressRef>) {
    var id := Home(start, env, input, part);
    var needed := Needed(start, env, input, before.ledger, part);
    if before.budget >= needed then
      && o == Done(RefOf(start, env, input, part))
      && after == Chain(before.ledger[id := Finished(start, env, input, part)], before.budget - needed)
    else
      && o == Killed
      && after == Chain(if before.budget == 1 then before.ledger[id := Deployed(WasmOf(env, part))]
           else before.ledger, 0)
  }

  lemma ClaimPart(start: Ledger, env: Env, input: Input, w: World, part: Part)
    requires Starts(start, env, input) && Inv(start, env, input, w)
    ensures
      var id := Home(start, env, input, part);
      Claim(w.chain, env, TypeOf(part), input.qualifier, WasmOf(env, part)) ==
        if id in w.chain.ledger then (w.chain, Done(id))
        else
          var (c1, ok) := Write(w.chain, id, Deployed(WasmOf(env, part)));
          (c1, if ok then Done(id) else Killed)
  {
    ResolutionStays(start, env, input, w, part);
    assert AttemptOf(start, env, input, part) < MAX_DEPLOYMENT_SALT_ATTEMPTS;
  }

  lemma PerformMCM(start: Ledger, env: Env, input: Input, w: World, part: Part)
    requires Starts(start, env, input) && Inv(start, env, input, w) && part != T
    ensures
      var (c, o) := DeployMCM(w.chain, env, OpOf(start, env, input, part).mcm);
      Performed(start, env, input, w.chain, part, c, o)
  {
    ClaimPart(start, env, input, w, part);
    assert Staged(start, env, input, w.chain.ledger, part);
    var id := Home(start, env, input, part);
    if IsFinished(start, env, input, w.chain.ledger, part) {
      assert w.chain.ledger[id := Finished(start, env, input, part)] == w.chain.ledger;
    }
    var claimed := w.chain.ledger[id := Deployed(WasmOf(env, part))];
    assert claimed[id := Finished(start, env, input, part)] == w.chain.ledger[id := Finished(start, env, input, part)];
  }

  lemma PerformTimelock(start: Ledger, env: Env, input: Input, w: World)
    requires Starts(start, env, input) && Inv(start, env, input, w)
    ensures
      var (c, o) := DeployTimelock(w.chain, env, OpOf(start, env, input, T).timelock);
      Performed(start, env, input, w.chain, T, c, o)
  {
    ClaimPart(start, env, input, w, T);
    HomesDistinct(start, env, input);
    assert Staged(start, env, input, w.chain.ledger, T);
    assert Home(start, env, input, P).Contract? && Home(start, env, input, C).Contract?
      && Home(start, env, input, B).Contract?;
    TimelockFrom(w.chain, env, OpOf(start, env, input, T).timelock, Home(start, env, input, T),
      Finished(start, env, input, T));
    hide Inv, Starts, Claim, Home, DeployTimelock, Distinct;
  }

  /** Deploying a timelock at `id`, where it is absent, bare or finished. */
  lemma TimelockFrom(chain: Chain, env: Env, tl: TimelockInput, id: Address, finished: Instance)
    requires Claim(chain, env, TIMELOCK, tl.qualifier, env.timelockWasm) ==
      if id in chain.ledger then (chain, Done(id))
      else
        var (c1, ok) := Write(chain, id, Deployed(env.timelockWasm));
        (c1, if ok then Done(id) else Killed)
    requires
      var (p, c, b) := (tl.proposer, tl.canceller, tl.bypasser);
      && Distinct(p, c, b) && p != NoAddress && c != NoAddress && b != NoAddress
      && finished == Deployed(env.timelockWasm).(roles := Some(Roles(tl.minDelay, {p}, {p, c, b}, {b})))
    requires id in chain.ledger ==> chain.ledger[id] == Deployed(env.timelockWasm) || chain.ledger[id] == finished
    ensures
      var (c1, o) := DeployTimelock(chain, env, tl);
      var needed := if id !in chain.ledger then 2 else if chain.ledger[id] == finished then 0 else 1;
      if chain.budget >= needed then
        o == Done(NewAddressRef(TIMELOCK, id, tl.qualifier, tl.lbl))
          && c1 == Chain(chain.ledger[id := finished], chain.budget - needed)
      else
        o == Killed && c1 ==
          Chain(if chain.budget == 1 then chain.ledger[id := Deployed(env.timelockWasm)] else chain.ledger, 0)
  {
    hide Claim, InitializeTimelock;
    InitializeRoles(Claim(chain, env, TIMELOCK, tl.qualifier, env.timelockWasm).0, id, tl.minDelay, tl.proposer,
      tl.canceller, tl.bypasser);
    if id in chain.ledger && chain.ledger[id] == finished {
      assert chain.ledger[id := finished] == chain.ledger;
    }
    assert chain.ledger[id := Deployed(env.timelockWasm)][id := finished] == chain.ledger[id := finished];
  }

  lemma InitializeRoles(chain: Chain, id: Address, minDelay: nat, p: Address, c: Address, b: Address)
    requires Distinct(p, c, b) && p != NoAddress && c != NoAddress && b != NoAddress
    ensures id in chain.ledger ==>
      InitializeTimelock(chain, id, minDelay, [p], [p, c, b], [b]) ==
        var (c1, ok) := Write(chain, id, chain.ledger[id].(roles := Some(Roles(minDelay, {p}, {p, c, b}, {b}))));
        (c1, if ok then Done(()) else Killed)
  {
    assert AsSet([p]) == {p} && AsSet([p, c, b]) == {p, c, b} && AsSet([b]) == {b};
    assert ValidRoleAddresses([p]) && ValidRoleAddresses([p, c, b]) && ValidRoleAddresses([b]);
  }

  lemma PerformPart(start: Ledger, env: Env, input: Input, w: World, part: Part)
    requires Starts(start, env, input) && Inv(start, env, input, w)
    ensures
      var (c, o) := Perform(w.chain, env, OpOf(start, env, input, part));
      Performed(start, env, input, w.chain, part, c, o)
  {
    if part.T? {
      PerformTimelock(start, env, input, w);
    } else {
      PerformMCM(start, env, input, w, part);
    }
  }

  /** Writing a part's blank or finished contract at its home keeps the invariant. */
  lemma WriteHome(start: Ledger, env: Env, input: Input, w: World, part: Part, ledger: Ledger, budget: nat)
    requires Inv(start, env, input, w)
    requires
      var id := Home(start, env, input, part);
      || ledger == w.chain.ledger
      || ledger == w.chain.ledger[id := Finished(start, env, input, part)]
      || (ledger == w.chain.ledger[id := Deployed(WasmOf(env, part))]
            && !IsFinished(start, env, input, w.chain.ledger, part))
    ensures Inv(start, env, input, World(Chain(ledger, budget), w.reports))
  {
    HomesDistinct(start, env, input);
    forall other: Part
      ensures Staged(start, env, input, ledger, other)
      ensures IsFinished(start, env, input, w.chain.ledger, other) ==> IsFinished(start, env, input, ledger, other)
    {
      assert Staged(start, env, input, w.chain.ledger, other);
    }
  }

  lemma OpsDiffer(start: Ledger, env: Env, input: Input, part: Part, part': Part)
    requires part != part'
    ensures OpOf(start, env, input, part) != OpOf(start, env, input, part')
  {
    TypesDiffer(part, part');
  }

  /** One memoised operation of a run. */
  predicate Stepped(start: Ledger, env: Env, input: Input, w: World, part: Part, w': World, o: Outcome<AddressRef>) {
    && (o.Done? || o.Killed?)
    && (w.chain.budget >= 2 ==> o.Done? && w'.chain.budget >= w.chain.budget - 2)
    && (IsFinished(start, env, input, w.chain.ledger, part) ==> o.Done? && w'.chain == w.chain)
    && (o.Done? ==> o.value == RefOf(start, env, input, part) && IsFinished(start, env, input, w'.chain.ledger, part))
    && (forall other: Part :: IsFinished(start, env, input, w.chain.ledger, other) ==>
          IsFinished(start, env, input, w'.chain.ledger, other))
  }

  lemma FinishedStays(start: Ledger, env: Env, input: Input, before: Chain, part: Part, after: Chain,
                      o: Outcome<AddressRef>)
    requires Performed(start, env, input, before, part, after, o)
    ensures forall other: Part :: IsFinished(start, env, input, before.ledger, other) ==>
      IsFinished(start, env, input, after.ledger, other)
    ensures IsFinished(start, env, input, before.ledger, part) ==> o.Done? && after == before
  {
    HomesDistinct(start, env, input);
    var id := Home(start, env, input, part);
    if IsFinished(start, env, input, before.ledger, part) {
      assert before.ledger[id := Finished(start, env, input, part)] == before.ledger;
    }
  }

  lemma ExecutePart(start: Ledger, env: Env, input: Input, w: World, part: Part)
    requires Starts(start, env, input) && Inv(start, env, input, w)
    ensures
      var (w', o) := Execute(w, env, OpOf(start, env, input, part));
      Inv(start, env, input, w') && Stepped(start, env, input, w, part, w', o)
  {
    var op := OpOf(start, env, input, part);
    if op !in w.reports {
      PerformPart(start, env, input, w, part);
      var (c, o) := Perform(w.chain, env, op);
      FinishedStays(start, env, input, w.chain, part, c, o);
      WriteHome(start, env, input, w, part, c.ledger, c.budget);
      if o.Done? {
        RecordReport(start, env, input, World(c, w.reports), part);
      }
    }
  }

  lemma RecordReport(start: Ledger, env: Env, input: Input, w: World, part: Part)
    requires Inv(start, env, input, w) && IsFinished(start, env, input, w.chain.ledger, part)
    ensures Inv(start, env, input,
      World(w.chain, w.reports[OpOf(start, env, input, part) := RefOf(start, env, input, part)]))
  {
    forall other: Part | other != part
      ensures OpOf(start, env, input, part) != OpOf(start, env, input, other)
    {
      OpsDiffer(start, env, input, part, other);
    }
  }

  /** The refs of a completed run. */
  function AllRefs(start: Ledger, env: Env, input: Input): seq<AddressRef> {
    [RefOf(start, env, input, P), RefOf(start, env, input, C), RefOf(start, env, input, B), RefOf(start, env, input, T)]
  }

  predicate AllFinished(start: Ledger, env: Env, input: Input, ledger: Ledger) {
    forall part: Part :: IsFinished(start, env, input, ledger, part)
  }

  /** One run: it keeps the invariant, never fails, completes when it gets eight
      writes, needs none once everything is finished, and when it completes it
      returns the four refs of the four finished contracts. */
  lemma RunPart(start: Ledger, env: Env, ds: DataStore, input: Input, w: World)
    requires Starts(start, env, input) && Inv(start, env, input, w)
    requires forall part: Part :: (TypeOf(part), input.qualifier) !in ds
    ensures
      var (w', o) := Run(w, env, ds, input);
      && Inv(start, env, input, w')
      && (o.Done? || o.Killed?)
      && (w.chain.budget >= 8 ==> o.Done?)
      && (AllFinished(start, env, input, w.chain.ledger) ==> o.Done? && w'.chain == w.chain)
      && (o.Done? ==> o.value == AllRefs(start, env, input) && AllFinished(start, env, input, w'.chain.ledger))
  {
    hide Perform, Inv, Starts, Execute, IsFinished, EnsureMCMs, Home, OpOf, RefOf, Distinct;
    var (w3, mcms) := EnsureMCMs(w, env, ds, input);
    RunMCMs(start, env, ds, input, w);
    if mcms.Done? {
      LastOp(start, env, input);
      assert (TypeOf(T), input.qualifier) !in ds;
      ExecutePart(start, env, input, w3, T);
      assert AllFinished(start, env, input, w.chain.ledger) ==> IsFinished(start, env, input, w3.chain.ledger, T);
    }
  }

  /** The timelock operation of a run names the addresses of the other three refs. */
  lemma LastOp(start: Ledger, env: Env, input: Input)
    ensures
      var p, c, b :=
        RefOf(start, env, input, P).address, RefOf(start, env, input, C).address, RefOf(start, env, input, B).address;
      Distinct(p, c, b) && OpOf(start, env, input, T) == TimelockOp(input, p, c, b)
  {
    HomesDistinct(start, env, input);
  }

  lemma RunMCMs(start: Ledger, env: Env, ds: DataStore, input: Input, w: World)
    requires Starts(start, env, input) && Inv(start, env, input, w)
    requires forall part: Part :: (TypeOf(part), input.qualifier) !in ds
    ensures
      var (w', o) := EnsureMCMs(w, env, ds, input);
      && Inv(start, env, input, w')
      && (o.Done? || o.Killed?)
      && (w.chain.budget >= 8 ==> o.Done? && w'.chain.budget >= 2)
      && (AllFinished(start, env, input, w.chain.ledger) ==> o.Done? && w'.chain == w.chain)
      && (o.Done? ==>
            && o.value ==
                 ((RefOf(start, env, input, P), true), (RefOf(start, env, input, C), true),
                   (RefOf(start, env, input, B), true))
            && forall part: Part :: part != T ==> IsFinished(start, env, input, w'.chain.ledger, part))
  {
    hide Perform, Inv, Starts, Execute, RefOf, IsFinished;
    assert (TypeOf(P), input.qualifier) !in ds && (TypeOf(C), input.qualifier) !in ds
      && (TypeOf(B), input.qualifier) !in ds;
    ExecutePart(start, env, input, w, P);
    var (w1, p) := Execute(w, env, OpOf(start, env, input, P));
    if p.Done? {
      ExecutePart(start, env, input, w1, C);
      var (w2, c) := Execute(w1, env, OpOf(start, env, input, C));
      if c.Done? {
        ExecutePart(start, env, input, w2, B);
      }
    }
  }

  /** One run with the sequence's own reports. */
  lemma SequencePart(start: Ledger, env: Env, ds: DataStore, input: Input, s: Deployments)
    requires Starts(start, env, input) && InvStore(start, env, input, s)
    requires forall part: Part :: (TypeOf(part), input.qualifier) !in ds
    ensures
      var (s', o) := RunSequence(s, env, ds, input);
      && InvStore(start, env, input, s')
      && (o.Done? || o.Killed?)
      && (s.world.chain.budget >= 8 ==> o.Done?)
      && (AllFinished(start, env, input, s.world.chain.ledger) ==> o.Done? && s'.world.chain == s.world.chain)
      && (o.Done? ==>
            o.value == AllRefs(start, env, input) && AllFinished(start, env, input, s'.world.chain.ledger)
              && input in s'.outputs)
  {
    RunPart(start, env, ds, input, s.world);
    hide Run, Inv, AllFinished, AllRefs, Starts;
  }

  lemma {:induction false} InvAfter(start: Ledger, env: Env, ds: DataStore, input: Input, s: Deployments,
                                    attempts: seq<Attempt>)
    requires Starts(start, env, input) && InvStore(start, env, input, s)
    requires forall part: Part :: (TypeOf(part), input.qualifier) !in ds
    requires forall i :: 0 <= i < |attempts| ==> ByOthers(env, attempts[i].others)
    ensures InvStore(start, env, input, After(s, env, ds, input, attempts))
  {
    hide RunSequence, InvStore, Starts;
    if attempts != [] {
      var last := attempts[|attempts| - 1];
      var before := After(s, env, ds, input, attempts[..|attempts| - 1]);
      InvAfter(start, env, ds, input, s, attempts[..|attempts| - 1]);
      InvBeginStore(start, env, input, before, last);
      SequencePart(start, env, ds, input, BeginStore(before, last));
    }
  }

  lemma InvBeginStore(start: Ledger, env: Env, input: Input, s: Deployments, attempt: Attempt)
    requires InvStore(start, env, input, s) && ByOthers(env, attempt.others)
    ensures InvStore(start, env, input, BeginStore(s, attempt))
    ensures AllFinished(start, env, input, s.world.chain.ledger) ==>
      AllFinished(start, env, input, BeginStore(s, attempt).world.chain.ledger)
  {
    InvBegin(start, env, input, s.world, attempt);
    hide Inv;
  }

  lemma InvBegin(start: Ledger, env: Env, input: Input, w: World, attempt: Attempt)
    requires Inv(start, env, input, w) && ByOthers(env, attempt.others)
    ensures Inv(start, env, input, Begin(w, attempt))
    ensures forall part: Part :: IsFinished(start, env, input, w.chain.ledger, part) ==>
      IsFinished(start, env, input, Begin(w, attempt).chain.ledger, part)
  {
    var w' := Begin(w, attempt);
    forall part: Part
      ensures Staged(start, env, input, w'.chain.ledger, part)
      ensures IsFinished(start, env, input, w.chain.ledger, part) ==>
        IsFinished(start, env, input, w'.chain.ledger, part)
    {
      assert Staged(start, env, input, w.chain.ledger, part);
    }
  }

  /** Crash recovery. From a ledger whose probed slots are free or foreign, after
      any series of runs, each killed anywhere, with any part of the report store
      lost and other parties acting in between, a run that gets its eight writes
      completes. The refs it returns do not depend on the history; each multisig
      holds its configured config, the timelock exactly its role tables. */
  lemma CrashRecovery(start: Deployments, env: Env, ds: DataStore, input: Input, attempts: seq<Attempt>, last: Attempt)
    requires CleanStart(start, env, ds, input)
    requires forall i :: 0 <= i < |attempts| ==> ByOthers(env, attempts[i].others)
    requires ByOthers(env, last.others) && last.budget >= 8
    ensures
      var l := start.world.chain.ledger;
      var (s, o) := RunSequence(BeginStore(After(start, env, ds, input, attempts), last), env, ds, input);
      var ledger := s.world.chain.ledger;
      var (p, c, b, t) :=
        (RefOf(l, env, input, P), RefOf(l, env, input, C), RefOf(l, env, input, B), RefOf(l, env, input, T));
      && o == Done([p, c, b, t])
      && Distinct(p.address, c.address, b.address)
      && (forall part: Part :: RefOf(l, env, input, part).address in ledger)
      && ledger[p.address].config == input.proposer
      && ledger[c.address].config == input.canceller
      && ledger[b.address].config == input.bypasser
      && ledger[t.address].roles ==
           Some(Roles(input.minDelay, {p.address}, {p.address, c.address, b.address}, {b.address}))
      && (forall part: Part :: part != T ==>
            ledger[RefOf(l, env, input, part).address].owner == Some(Account(env.signer)))
  {
    hide RunSequence, After, InvStore, Starts, CleanStart, Home;
    var l := start.world.chain.ledger;
    RecoveredRun(start, env, ds, input, attempts, last);
    HomesDistinct(l, env, input);
    var ledger :=
      RunSequence(BeginStore(After(start, env, ds, input, attempts), last), env, ds, input).0.world.chain.ledger;
    forall part: Part
      ensures RefOf(l, env, input, part).address in ledger
      ensures ledger[RefOf(l, env, input, part).address] == Finished(l, env, input, part)
    {
      assert IsFinished(l, env, input, ledger, part);
    }
  }

  lemma RecoveredRun(start: Deployments, env: Env, ds: DataStore, input: Input, attempts: seq<Attempt>, last: Attempt)
    requires CleanStart(start, env, ds, input)
    requires forall i :: 0 <= i < |attempts| ==> ByOthers(env, attempts[i].others)
    requires ByOthers(env, last.others) && last.budget >= 8
    ensures
      var l := start.world.chain.ledger;
      var (s, o) := RunSequence(BeginStore(After(start, env, ds, input, attempts), last), env, ds, input);
      && Starts(l, env, input) && InvStore(l, env, input, s)
      && o == Done(AllRefs(l, env, input)) && AllFinished(l, env, input, s.world.chain.ledger) && input in s.outputs
  {
    hide RunSequence, InvStore, Starts, AllRefs, AllFinished;
    var l := start.world.chain.ledger;
    CleanStarts(start, env, ds, input);
    InvAfter(l, env, ds, input, start, attempts);
    InvBeginStore(l, env, input, After(start, env, ds, input, attempts), last);
    SequencePart(l, env, ds, input, BeginStore(After(start, env, ds, input, attempts), last));
  }

  /** Merging the refs into the datastore (deploy changeset). */
  function Merge(ds: DataStore, refs: seq<AddressRef>): DataStore {
    if refs == [] then ds
    else Merge(ds, refs[..|refs| - 1])[(refs[|refs| - 1].contractType, refs[|refs| - 1].qualifier) := refs[|refs| - 1]]
  }

  /** A completed run is a fixed point. Repeated without its metadata it writes
      nothing, even with no report left, and returns the same refs. Repeated over the
      merged datastore it touches neither ledger nor reports; it returns the old refs
      again if the sequence's report is still there and none otherwise, and either way
      merging them changes nothing. */
  lemma CompletedRunIsFixedPoint(start: Deployments, env: Env, ds: DataStore, input: Input, attempts: seq<Attempt>,
                                 last: Attempt, again: Attempt)
    requires CleanStart(start, env, ds, input)
    requires forall i :: 0 <= i < |attempts| ==> ByOthers(env, attempts[i].others)
    requires ByOthers(env, last.others) && last.budget >= 8
    requires ByOthers(env, again.others)
    ensures
      var (s, o) := RunSequence(BeginStore(After(start, env, ds, input, attempts), last), env, ds, input);
      && o.Done?
      && var s' := BeginStore(s, again);
      && RunSequence(s', env, ds, input).0.world.chain == s'.world.chain
      && RunSequence(s', env, ds, input).1 == o
      && var (s'', o'') := RunSequence(s', env, Merge(ds, o.value), input);
      && s''.world == s'.world
      && o'' == Done(if again.keptOutput then o.value else [])
      && Merge(Merge(ds, o.value), o''.value) == Merge(ds, o.value)
  {
    hide RunSequence, After, InvStore, Starts, AllRefs, AllFinished, BeginStore, Merge;
    var l := start.world.chain.ledger;
    RecoveredRun(start, env, ds, input, attempts, last);
    var (s, o) := RunSequence(BeginStore(After(start, env, ds, input, attempts), last), env, ds, input);
    InvBeginStore(l, env, input, s, again);
    var s' := BeginStore(s, again);
    CleanHasNoRefs(start, env, ds, input);
    SequencePart(l, env, ds, input, s');
    OverMerged(l, env, ds, input, s, again);
  }

  lemma CleanHasNoRefs(start: Deployments, env: Env, ds: DataStore, input: Input)
    requires CleanStart(start, env, ds, input)
    ensures forall part: Part :: (TypeOf(part), input.qualifier) !in ds
  {}

  lemma OverMerged(start: Ledger, env: Env, ds: DataStore, input: Input, s: Deployments, again: Attempt)
    requires InvStore(start, env, input, s) && input in s.outputs
    ensures
      var refs := AllRefs(start, env, input);
      var s' := BeginStore(s, again);
      var (s'', o) := RunSequence(s', env, Merge(ds, refs), input);
      && s''.world == s'.world
      && o == Done(if again.keptOutput then refs else [])
      && Merge(Merge(ds, refs), o.value) == Merge(ds, refs)
  {
    var refs := AllRefs(start, env, input);
    MergedLookup(start, env, ds, input);
    MergedTwice(start, env, ds, input);
    HomesDistinct(start, env, input);
    hide Run, Inv, AllFinished, AllRefs, Home;
    RunOverKnownRefs(BeginStore(s, again).world, env, Merge(ds, refs), input);
    assert Merge(Merge(ds, refs), []) == Merge(ds, refs);
  }

  lemma MergedTwice(start: Ledger, env: Env, ds: DataStore, input: Input)
    ensures
      var refs := AllRefs(start, env, input);
      Merge(Merge(ds, refs), refs) == Merge(ds, refs)
  {
    var refs := AllRefs(start, env, input);
    MergedFour(start, env, ds, input);
    MergedFour(start, env, Merge(ds, refs), input);
    MergedLookup(start, env, ds, input);
    assert refs[0] == RefOf(start, env, input, P) && refs[1] == RefOf(start, env, input, C)
      && refs[2] == RefOf(start, env, input, B) && refs[3] == RefOf(start, env, input, T);
    hide Merge, RefOf;
  }

  /** Over a datastore that holds all four refs, of distinct multisigs, a run
      touches neither the chain nor the reports and has nothing new. */
  lemma RunOverKnownRefs(w: World, env: Env, ds: DataStore, input: Input)
    requires forall part: Part :: (TypeOf(part), input.qualifier) in ds
    requires
      var (p, c, b) :=
        (ds[(TypeOf(P), input.qualifier)], ds[(TypeOf(C), input.qualifier)], ds[(TypeOf(B), input.qualifier)]);
      Distinct(p.address, c.address, b.address)
    ensures Run(w, env, ds, input) == (w, Done([]))
  {
    hide Execute;
    assert (TypeOf(P), input.qualifier) in ds && (TypeOf(C), input.qualifier) in ds
      && (TypeOf(B), input.qualifier) in ds && (TypeOf(T), input.qualifier) in ds;
    var (p, c, b) :=
      (ds[(TypeOf(P), input.qualifier)], ds[(TypeOf(C), input.qualifier)], ds[(TypeOf(B), input.qualifier)]);
    assert EnsureMCMs(w, env, ds, input) == (w, Done(((p, false), (c, false), (b, false))));
    assert New((p, false)) + New((c, false)) + New((b, false)) + New((ds[(TypeOf(T), input.qualifier)], false)) == [];
  }

  lemma MergedFour(start: Ledger, env: Env, ds: DataStore, input: Input)
    ensures
      var refs, q := AllRefs(start, env, input), input.qualifier;
      Merge(ds, refs) ==
        ds[(TypeOf(P), q) := refs[0]][(TypeOf(C), q) := refs[1]][(TypeOf(B), q) := refs[2]][(TypeOf(T), q) := refs[3]]
  {
    var refs := AllRefs(start, env, input);
    var (r0, r1, r2, r3) := (refs[0], refs[1], refs[2], refs[3]);
    MergeOne(ds, [], r0);
    MergeOne(ds, [r0], r1);
    MergeOne(ds, [r0, r1], r2);
    MergeOne(ds, [r0, r1, r2], r3);
    assert refs == [r0, r1, r2] + [r3] && [r0, r1, r2] == [r0, r1] + [r2] && [r0, r1] == [r0] + [r1]
      && [r0] == [] + [r0];
    assert Merge(ds, []) == ds;
  }

  lemma MergedLookup(start: Ledger, env: Env, ds: DataStore, input: Input)
    ensures forall part: Part ::
      && (TypeOf(part), input.qualifier) in Merge(ds, AllRefs(start, env, input))
      && Merge(ds, AllRefs(start, env, input))[(TypeOf(part), input.qualifier)] == RefOf(start, env, input, part)
  {
    TypesDiffer(P, C);
    TypesDiffer(P, B);
    TypesDiffer(P, T);
    TypesDiffer(C, B);
    TypesDiffer(C, T);
    TypesDiffer(B, T);
    MergedFour(start, env, ds, input);
    var merged, q := Merge(ds, AllRefs(start, env, input)), input.qualifier;
    forall part: Part
      ensures (TypeOf(part), q) in merged && merged[(TypeOf(part), q)] == RefOf(start, env, input, part)
    {
      hide RefOf, Merge;
      assert part == P || part == C || part == B || part == T;
    }
  }

  lemma MergeOne(ds: DataStore, refs: seq<AddressRef>, ref: AddressRef)
    ensures Merge(ds, refs + [ref]) == Merge(ds, refs)[(ref.contractType, ref.qualifier) := ref]
  {
    assert (refs + [ref])[..|refs|] == refs;
  }
}
