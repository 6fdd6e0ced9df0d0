/** What a run of the Stellar deployment leaves and returns, from any ledger, over any
    datastore and any reports: each part is where its ref says, where its report says,
    or newly at its resolved slot. */
module StellarSequence {
  import opened Wrappers
  import opened StellarIdentity
  import opened StellarDeploy

  function Labels(lbl: string): set<string> {
    if lbl == "" then {} else {lbl}
  }

  /** Where a contract type resolves to before the run. */
  function HomeOf(ledger: Ledger, env: Env, input: Input, contractType: string, wasm: seq<nat>): Address {
    var site := Site(env.network, env.signer, contractType, input.qualifier);
    Slot(site, Resolved(ledger, site, WasmHash(wasm)))
  }

  /** A part of the topology: its type, the operation that deploys it, and its code. */
  datatype Part = Part(contractType: string, op: OpInput, wasm: seq<nat>)

  function McmPart(env: Env, input: Input, contractType: string, config: Config): Part {
    Part(contractType, OpMCM(McmInput(contractType, config, input.qualifier, input.lbl)), env.mcmWasm)
  }

  function TimelockPart(env: Env, input: Input, p: Address, c: Address, b: Address): Part {
    Part(TIMELOCK, OpTimelock(TimelockInput(input.minDelay, p, c, b, input.qualifier, input.lbl)),
         env.timelockWasm)
  }

  predicate Listed(ds: DataStore, input: Input, part: Part) {
    (part.contractType, input.qualifier) in ds
  }

  /** Neither the datastore nor a report has it. */
  predicate IsNew(w: World, ds: DataStore, input: Input, part: Part) {
    !Listed(ds, input, part) && part.op !in w.reports
  }

  function RefFor(w: World, env: Env, ds: DataStore, input: Input, part: Part): AddressRef {
    if Listed(ds, input, part) then ds[(part.contractType, input.qualifier)]
    else if part.op in w.reports then w.reports[part.op]
    else AddressRef(part.contractType, HomeOf(w.chain.ledger, env, input, part.contractType, part.wasm),
      input.qualifier,
                    Labels(input.lbl))
  }

  // ----- one part

  /** The contract an operation leaves where it found `found`. */
  function Result(found: Instance, env: Env, op: OpInput): Instance {
    match op
    case OpMCM(mcm) =>
      if found.owner.None? then found.(owner := Some(Account(env.signer)), config := mcm.config)
      else if found.config == mcm.config then found
      else found.(config := mcm.config, root := 0)
    case OpTimelock(tl) =>
      if found.roles.Some? then found
      else
        found.(roles :=
          Some(Roles(tl.minDelay, {tl.proposer}, {tl.proposer, tl.canceller, tl.bypasser}, {tl.bypasser})))
  }

  predicate Able(ledger: Ledger, env: Env, op: OpInput) {
    match op
    case OpMCM(mcm) => Configurable(ledger, env, mcm)
    case OpTimelock(tl) => Initialisable(ledger, env, tl)
  }

  predicate OwnOp(env: Env, input: Input, part: Part) {
    match part.op
    case OpMCM(mcm) =>
      && part.contractType == mcm.contractType && mcm.qualifier == input.qualifier && mcm.lbl == input.lbl
      && part.wasm == env.mcmWasm
    case OpTimelock(tl) =>
      && part.contractType == TIMELOCK && tl.qualifier == input.qualifier && tl.lbl == input.lbl
      && part.wasm == env.timelockWasm
  }

  /** What ensuring one part does: nothing but name the ref, unless the part is new;
      then at its home it leaves the result, or at most a bare contract. */
  ghost predicate Ensured(w: World, env: Env, ds: DataStore, input: Input, part: Part, w': World,
                          o: Outcome<FoundRef>) {
    var home := HomeOf(w.chain.ledger, env, input, part.contractType, part.wasm);
    var ref := RefFor(w, env, ds, input, part);
    if !IsNew(w, ds, input, part) then w' == w && o == Done((ref, !Listed(ds, input, part)))
    else
      && (w.chain.budget >= 2 ==> (o.Done? <==> Able(w.chain.ledger, env, part.op)))
      && (o.Killed? ==> w.chain.budget < 2)
      && (o.Failed? ==> o.error != SameContract)
      && w'.chain.budget <= w.chain.budget <= w'.chain.budget + 2
      && (o.Done? ==>
            && o.value == (ref, true) && w'.reports == w.reports[part.op := ref]
            && w'.chain.ledger ==
                 w.chain.ledger[home := Result(Found(w.chain.ledger, home, part.wasm), env, part.op)])
      && (!o.Done? ==> w'.reports == w.reports && AtMostDeployed(w.chain, w'.chain, home, part.wasm))
  }

  lemma EnsureOutcome(w: World, env: Env, ds: DataStore, input: Input, part: Part)
    requires OwnOp(env, input, part)
    ensures
      var (w', o) := Ensure(w, env, ds, part.contractType, input.qualifier, part.op);
      Ensured(w, env, ds, input, part, w', o)
  {
    match part.op {
      case OpMCM(mcm) =>
        DeployMCMOutcome(w.chain, env, mcm);
        OtherErrors(w.chain, env, part.op);
        hide DeployMCM, Resolved, Slot, Configurable;
      case OpTimelock(tl) =>
        DeployTimelockOutcome(w.chain, env, tl);
        OtherErrors(w.chain, env, part.op);
        hide DeployTimelock, Resolved, Slot, Initialisable;
    }
  }

  lemma OtherErrors(c: Chain, env: Env, op: OpInput)
    ensures Perform(c, env, op).1.Failed? ==> Perform(c, env, op).1.error != SameContract
  {
    hide Resolved, Slot;
  }

  // ----- the parts do not meet

  /** The slots of one contract type are as they were. */
  ghost predicate SameSlots(l: Ledger, l': Ledger, env: Env, input: Input, contractType: string) {
    forall k: nat ::
      var id := Slot(Site(env.network, env.signer, contractType, input.qualifier), k);
      (id in l' <==> id in l) && (id in l ==> l'[id] == l[id])
  }

  /** A step at the home of another type leaves them alone. */
  lemma OtherType(l: Ledger, l': Ledger, env: Env, input: Input, contractType: string, wasm: seq<nat>, other: string)
    requires ':' !in contractType && ':' !in other && contractType != other
    requires forall a :: a != HomeOf(l, env, input, contractType, wasm) ==>
      (a in l' <==> a in l) && (a in l ==> l'[a] == l[a])
    ensures SameSlots(l, l', env, input, other)
  {
    var site, site' := Site(env.network, env.signer, contractType, input.qualifier),
                       Site(env.network, env.signer, other, input.qualifier);
    forall k: nat
      ensures Slot(site', k) != HomeOf(l, env, input, contractType, wasm)
    {
      SlotInjective(site', k, site, Resolved(l, site, WasmHash(wasm)));
    }
  }

  lemma SameSlotsTogether(l: Ledger, l1: Ledger, l2: Ledger, env: Env, input: Input, contractType: string)
    requires SameSlots(l, l1, env, input, contractType) && SameSlots(l1, l2, env, input, contractType)
    ensures SameSlots(l, l2, env, input, contractType)
  {}

  /** So the type resolves as before, and finds what was there before. */
  lemma ResolvesAlike(l: Ledger, l': Ledger, env: Env, input: Input, part: Part)
    requires SameSlots(l, l', env, input, part.contractType) && OwnOp(env, input, part)
    ensures
      var home := HomeOf(l, env, input, part.contractType, part.wasm);
      && HomeOf(l', env, input, part.contractType, part.wasm) == home
      && Found(l', home, part.wasm) == Found(l, home, part.wasm) && (home in l' <==> home in l)
      && (Able(l', env, part.op) <==> Able(l, env, part.op))
  {
    var site, hash := Site(env.network, env.signer, part.contractType, input.qualifier), WasmHash(part.wasm);
    var k := Resolved(l, site, hash);
    assert forall a: nat :: Foreign(l', Slot(site, a), hash) <==> Foreign(l, Slot(site, a), hash);
    assert forall a: nat :: a < k ==> Foreign(l, Slot(site, a), hash);
    ResolvedIs(l', site, hash, k);
    hide Slot;
  }

  // ----- the parts together

  function Home(w: World, env: Env, input: Input, part: Part): Address {
    HomeOf(w.chain.ledger, env, input, part.contractType, part.wasm)
  }

  /** Off the homes of the new ones among `parts`, no contract has changed. */
  ghost predicate OnlyAt(w: World, ledger: Ledger, env: Env, ds: DataStore, input: Input, parts: seq<Part>) {
    forall a :: (forall part :: part in parts && IsNew(w, ds, input, part) ==> a != Home(w, env, input, part)) ==>
      (a in ledger <==> a in w.chain.ledger) && (a in w.chain.ledger ==> ledger[a] == w.chain.ledger[a])
  }

  /** The new ones among `parts` are there, as their operations leave them. */
  ghost predicate AllThere(w: World, ledger: Ledger, env: Env, ds: DataStore, input: Input, parts: seq<Part>) {
    forall part :: part in parts && IsNew(w, ds, input, part) ==>
      var home := Home(w, env, input, part);
      home in ledger && ledger[home] == Result(Found(w.chain.ledger, home, part.wasm), env, part.op)
  }

  /** Exactly the new ones are newly reported, with their refs. */
  ghost predicate AllReported(w: World, w': World, env: Env, ds: DataStore, input: Input, parts: seq<Part>) {
    && (forall op :: op in w.reports ==> op in w'.reports && w'.reports[op] == w.reports[op])
    && (forall op :: op in w'.reports && op !in w.reports ==> exists part :: part in parts && op == part.op)
    && (forall part :: part in parts ==>
          if IsNew(w, ds, input, part) then part.op in w'.reports
            && w'.reports[part.op] == RefFor(w, env, ds, input, part)
          else part.op in w'.reports <==> part.op in w.reports)
  }

  predicate Apart(parts: seq<Part>) {
    && (forall part :: part in parts ==> ':' !in part.contractType)
    && (forall i, j :: 0 <= i < j < |parts| ==> parts[i].contractType != parts[j].contractType)
  }

  /** All that, with at most `spent` writes. */
  ghost predicate Reached(w: World, w': World, env: Env, ds: DataStore, input: Input, parts: seq<Part>, spent: nat) {
    && OnlyAt(w, w'.chain.ledger, env, ds, input, parts)
    && AllThere(w, w'.chain.ledger, env, ds, input, parts)
    && AllReported(w, w', env, ds, input, parts)
    && w'.chain.budget + spent >= w.chain.budget
  }

  lemma NothingYet(w: World, env: Env, ds: DataStore, input: Input)
    ensures Reached(w, w, env, ds, input, [], 0)
  {}

  lemma OtherSlots(w: World, w1: World, env: Env, ds: DataStore, input: Input, parts: seq<Part>, part: Part)
    requires Apart(parts + [part]) && OnlyAt(w, w1.chain.ledger, env, ds, input, parts)
    ensures SameSlots(w.chain.ledger, w1.chain.ledger, env, input, part.contractType)
  {
    var all := parts + [part];
    assert part in all && all[|parts|] == part;
    var site := Site(env.network, env.signer, part.contractType, input.qualifier);
    forall k: nat, other | other in parts
      ensures Slot(site, k) != Home(w, env, input, other)
    {
      var i :| 0 <= i < |parts| && parts[i] == other;
      assert all[i] == other && other in all;
      var site' := Site(env.network, env.signer, other.contractType, input.qualifier);
      SlotInjective(site, k, site', Resolved(w.chain.ledger, site', WasmHash(other.wasm)));
    }
  }

  lemma NotReported(w: World, w1: World, env: Env, ds: DataStore, input: Input, parts: seq<Part>, part: Part)
    requires Apart(parts + [part]) && AllReported(w, w1, env, ds, input, parts)
    requires OwnOp(env, input, part) && forall other :: other in parts ==> OwnOp(env, input, other)
    ensures part.op in w1.reports <==> part.op in w.reports
    ensures IsNew(w1, ds, input, part) <==> IsNew(w, ds, input, part)
  {
    var all := parts + [part];
    assert all[|parts|] == part;
    forall other | other in parts
      ensures part.op != other.op
    {
      var i :| 0 <= i < |parts| && parts[i] == other;
      assert all[i] == other;
    }
  }

  /** Seen from the start and from where the parts before it were reached, a part is alike. */
  lemma SeenAlike(w: World, w1: World, env: Env, ds: DataStore, input: Input, parts: seq<Part>, part: Part)
    requires Apart(parts + [part])
    requires OnlyAt(w, w1.chain.ledger, env, ds, input, parts) && AllReported(w, w1, env, ds, input, parts)
    requires OwnOp(env, input, part) && forall other :: other in parts ==> OwnOp(env, input, other)
    ensures IsNew(w1, ds, input, part) <==> IsNew(w, ds, input, part)
    ensures RefFor(w1, env, ds, input, part) == RefFor(w, env, ds, input, part)
    ensures
      var home := Home(w, env, input, part);
      && Home(w1, env, input, part) == home && (home in w1.chain.ledger <==> home in w.chain.ledger)
      && Found(w1.chain.ledger, home, part.wasm) == Found(w.chain.ledger, home, part.wasm)
      && (Able(w1.chain.ledger, env, part.op) <==> Able(w.chain.ledger, env, part.op))
  {
    OtherSlots(w, w1, env, ds, input, parts, part);
    NotReported(w, w1, env, ds, input, parts, part);
    hide OnlyAt, AllThere;
    ResolvesAlike(w.chain.ledger, w1.chain.ledger, env, input, part);
    hide SameSlots, HomeOf, Apart, OwnOp, Able, Found;
  }

  lemma HomeApart(w: World, env: Env, input: Input, parts: seq<Part>, part: Part)
    requires Apart(parts + [part])
    ensures forall other :: other in parts ==> Home(w, env, input, other) != Home(w, env, input, part)
  {
    var all := parts + [part];
    assert part in all && all[|parts|] == part;
    forall other | other in parts
      ensures Home(w, env, input, other) != Home(w, env, input, part)
    {
      var i :| 0 <= i < |parts| && parts[i] == other;
      assert all[i] == other && other in all;
      var site := Site(env.network, env.signer, part.contractType, input.qualifier);
      var site' := Site(env.network, env.signer, other.contractType, input.qualifier);
      SlotInjective(site, Resolved(w.chain.ledger, site, WasmHash(part.wasm)), site',
        Resolved(w.chain.ledger, site', WasmHash(other.wasm)));
    }
  }

  /** Only at `home`, if there, can the ledgers differ. */
  ghost predicate OffHome(l: Ledger, l': Ledger, there: bool, home: Address) {
    forall a :: !(there && a == home) ==> (a in l' <==> a in l) && (a in l ==> l'[a] == l[a])
  }

  lemma OneMoreOnly(w: World, l1: Ledger, l2: Ledger, env: Env, ds: DataStore, input: Input, parts: seq<Part>,
                    part: Part)
    requires OnlyAt(w, l1, env, ds, input, parts)
    requires OffHome(l1, l2, IsNew(w, ds, input, part), Home(w, env, input, part))
    ensures OnlyAt(w, l2, env, ds, input, parts + [part])
  {
    hide Home, IsNew;
    assert forall other :: other in parts ==> other in parts + [part];
    assert part in parts + [part];
  }

  lemma OneMoreThere(w: World, l1: Ledger, env: Env, ds: DataStore, input: Input, parts: seq<Part>, part: Part)
    requires Parts(env, input, parts + [part]) && AllThere(w, l1, env, ds, input, parts)
    ensures
      var home := Home(w, env, input, part);
      var l2 := l1[home := Result(Found(w.chain.ledger, home, part.wasm), env, part.op)];
      AllThere(w, if IsNew(w, ds, input, part) then l2 else l1, env, ds, input, parts + [part])
  {
    HomeApart(w, env, input, parts, part);
    hide Home, Result, Found, IsNew, Apart;
  }

  lemma OneMoreReported(w: World, w1: World, w2: World, env: Env, ds: DataStore, input: Input, parts: seq<Part>,
                        part: Part)
    requires Parts(env, input, parts + [part]) && AllReported(w, w1, env, ds, input, parts)
    requires
      w2.reports == if IsNew(w, ds, input, part) then w1.reports[part.op := RefFor(w, env, ds, input, part)]
        else w1.reports
    ensures AllReported(w, w2, env, ds, input, parts + [part])
  {
    assert part in parts + [part] && forall other :: other in parts ==> other in parts + [part];
    NotReported(w, w1, env, ds, input, parts, part);
    assert IsNew(w, ds, input, part) ==> part.op !in w1.reports;
    OpsApart(env, input, parts, part);
    hide RefFor, OwnOp, Apart, IsNew;
    ReportsPlus(w, w1, w2, env, ds, input, parts, part);
  }

  lemma OpsApart(env: Env, input: Input, parts: seq<Part>, part: Part)
    requires Apart(parts + [part])
    requires OwnOp(env, input, part) && forall other :: other in parts ==> OwnOp(env, input, other)
    ensures forall other :: other in parts ==> other.op != part.op
  {
    var all := parts + [part];
    assert all[|parts|] == part;
    forall other | other in parts
      ensures other.op != part.op
    {
      var i :| 0 <= i < |parts| && parts[i] == other;
      assert all[i] == other;
    }
  }

  lemma ReportsPlus(w: World, w1: World, w2: World, env: Env, ds: DataStore, input: Input, parts: seq<Part>, part: Part)
    requires AllReported(w, w1, env, ds, input, parts) && forall other :: other in parts ==> other.op != part.op
    requires part.op in w1.reports <==> part.op in w.reports
    requires IsNew(w, ds, input, part) ==> part.op !in w1.reports
    requires
      w2.reports == if IsNew(w, ds, input, part) then w1.reports[part.op := RefFor(w, env, ds, input, part)]
        else w1.reports
    ensures AllReported(w, w2, env, ds, input, parts + [part])
  {
    hide RefFor, IsNew;
    var all := parts + [part];
    forall op | op in w2.reports && op !in w.reports
      ensures exists other :: other in all && op == other.op
    {
      if op in w1.reports {
        var other :| other in parts && op == other.op;
        assert other in all;
      } else {
        assert part in all;
      }
    }
  }

  predicate MayConfigure(w: World, env: Env, ds: DataStore, input: Input, part: Part) {
    IsNew(w, ds, input, part) ==> Able(w.chain.ledger, env, part.op)
  }

  function Value(w: World, env: Env, ds: DataStore, input: Input, part: Part): FoundRef {
    (RefFor(w, env, ds, input, part), !Listed(ds, input, part))
  }

  predicate Parts(env: Env, input: Input, parts: seq<Part>) {
    Apart(parts) && forall part :: part in parts ==> OwnOp(env, input, part)
  }

  /** One more part is ensured. */
  ghost predicate Next(w: World, w1: World, env: Env, ds: DataStore, input: Input, parts: seq<Part>, part: Part,
                       spent: nat,
                       w2: World, o: Outcome<FoundRef>) {
    && (o.Done? ==>
          Reached(w, w2, env, ds, input, parts + [part], spent + 2) && o.value == Value(w, env, ds, input, part))
    && OnlyAt(w, w2.chain.ledger, env, ds, input, parts + [part])
    && (w1.chain.budget >= 2 ==> (o.Done? <==> MayConfigure(w, env, ds, input, part)))
    && (o.Failed? ==> o.error != SameContract)
    && (o.Killed? ==> w1.chain.budget < 2)
  }

  lemma EnsureNext(w: World, w1: World, env: Env, ds: DataStore, input: Input, parts: seq<Part>, part: Part, spent: nat)
    requires Parts(env, input, parts + [part]) && Reached(w, w1, env, ds, input, parts, spent)
    ensures
      var (w2, o) := Ensure(w1, env, ds, part.contractType, input.qualifier, part.op);
      Next(w, w1, env, ds, input, parts, part, spent, w2, o)
  {
    assert OwnOp(env, input, part) by {
      assert part in parts + [part];
    }
    hide *;
    EnsureOutcome(w1, env, ds, input, part);
    var (w2, o) := Ensure(w1, env, ds, part.contractType, input.qualifier, part.op);
    OneMore(w, w1, env, ds, input, parts, part, spent, w2, o);
  }

  lemma OneMore(w: World, w1: World, env: Env, ds: DataStore, input: Input, parts: seq<Part>, part: Part, spent: nat,
                w2: World, o: Outcome<FoundRef>)
    requires Parts(env, input, parts + [part]) && Reached(w, w1, env, ds, input, parts, spent)
    requires Ensured(w1, env, ds, input, part, w2, o)
    ensures Next(w, w1, env, ds, input, parts, part, spent, w2, o)
  {
    EnsuredSeen(w, w1, env, ds, input, parts, part, spent, w2, o);
    hide Home, Found, RefFor, Result, OnlyAt, AllThere, AllReported, IsNew, Ensured, MayConfigure, Value, Parts,
      OffHome;
    OneMoreOnly(w, w1.chain.ledger, w2.chain.ledger, env, ds, input, parts, part);
    if o.Done? {
      OneMoreThere(w, w1.chain.ledger, env, ds, input, parts, part);
      OneMoreReported(w, w1, w2, env, ds, input, parts, part);
    }
  }

  /** What ensuring it does, told from the start. */
  lemma EnsuredSeen(w: World, w1: World, env: Env, ds: DataStore, input: Input, parts: seq<Part>, part: Part,
                    spent: nat,
                    w2: World, o: Outcome<FoundRef>)
    requires Parts(env, input, parts + [part]) && Reached(w, w1, env, ds, input, parts, spent)
    requires Ensured(w1, env, ds, input, part, w2, o)
    ensures
      var home := Home(w, env, input, part);
      var (l1, l2) := (w1.chain.ledger, w2.chain.ledger);
      && OffHome(l1, l2, IsNew(w, ds, input, part), home)
      && (w1.chain.budget >= 2 ==> (o.Done? <==> MayConfigure(w, env, ds, input, part)))
      && (o.Failed? ==> o.error != SameContract)
      && (o.Killed? ==> w1.chain.budget < 2)
      && w1.chain.budget <= w2.chain.budget + 2
      && (o.Done? ==>
            && o.value == Value(w, env, ds, input, part)
            && if IsNew(w, ds, input, part) then
                 && l2 == l1[home := Result(Found(w.chain.ledger, home, part.wasm), env, part.op)]
                 && w2.reports == w1.reports[part.op := RefFor(w, env, ds, input, part)]
               else w2 == w1)
  {
    EnsuredFacts(w1, env, ds, input, part, w2, o);
    assert part in parts + [part] && forall other :: other in parts ==> other in parts + [part];
    SeenAlike(w, w1, env, ds, input, parts, part);
    hide Home, Found, RefFor, Result, OnlyAt, AllThere, AllReported, IsNew, Ensured, Listed, Able, OffHome;
  }

  lemma EnsuredFacts(w: World, env: Env, ds: DataStore, input: Input, part: Part, w': World, o: Outcome<FoundRef>)
    requires Ensured(w, env, ds, input, part, w', o)
    ensures
      var home := Home(w, env, input, part);
      var (l, l') := (w.chain.ledger, w'.chain.ledger);
      && OffHome(l, l', IsNew(w, ds, input, part), home)
      && (w.chain.budget >= 2 ==> (o.Done? <==> MayConfigure(w, env, ds, input, part)))
      && (o.Failed? ==> o.error != SameContract)
      && (o.Killed? ==> w.chain.budget < 2)
      && w.chain.budget <= w'.chain.budget + 2
      && (o.Done? ==>
            && o.value == Value(w, env, ds, input, part)
            && if IsNew(w, ds, input, part) then
                 && l' == l[home := Result(Found(l, home, part.wasm), env, part.op)]
                 && w'.reports == w.reports[part.op := RefFor(w, env, ds, input, part)]
               else w' == w)
  {
    hide HomeOf, Able, Found, Result, RefFor;
  }

  // ----- the run

  predicate MayAll(w: World, env: Env, ds: DataStore, input: Input, parts: seq<Part>) {
    forall part :: part in parts ==> MayConfigure(w, env, ds, input, part)
  }

  /** The three multisigs `p`, `c` and `b` of the input. */
  ghost predicate McmsEnsured(w: World, env: Env, ds: DataStore, input: Input, p: Part, c: Part, b: Part, w': World,
                              o: Outcome<(FoundRef, FoundRef, FoundRef)>) {
    && OnlyAt(w, w'.chain.ledger, env, ds, input, [p] + [c] + [b])
    && (w.chain.budget >= 6 ==> (o.Done? <==> MayAll(w, env, ds, input, [p] + [c] + [b])))
    && (o.Failed? ==> o.error != SameContract)
    && (o.Killed? ==> w.chain.budget < 6)
    && (o.Done? ==>
          && Reached(w, w', env, ds, input, [p] + [c] + [b], 6)
          && o.value == (Value(w, env, ds, input, p), Value(w, env, ds, input, c), Value(w, env, ds, input, b)))
  }

  predicate AreMcms(env: Env, input: Input, p: Part, c: Part, b: Part) {
    && p.contractType == PROPOSER && p.op == MCMOp(input, PROPOSER, input.proposer)
    && c.contractType == CANCELLER && c.op == MCMOp(input, CANCELLER, input.canceller)
    && b.contractType == BYPASSER && b.op == MCMOp(input, BYPASSER, input.bypasser)
    && Parts(env, input, [p] + [c] + [b])
  }

  lemma McmsOutcome(w: World, env: Env, ds: DataStore, input: Input, p: Part, c: Part, b: Part)
    requires AreMcms(env, input, p, c, b)
    ensures
      var (w', o) := EnsureMCMs(w, env, ds, input);
      McmsEnsured(w, env, ds, input, p, c, b, w', o)
  {
    var none: seq<Part> := [];
    assert none + [p] == [p];
    PartsPrefix(env, input, [p] + [c], b);
    PartsPrefix(env, input, [p], c);
    hide *;
    NothingYet(w, env, ds, input);
    ThreeSteps(w, env, ds, input, p, c, b);
  }

  /** What stops a step stops the whole. */
  predicate Stops<T, U>(o: Outcome<T>, o': Outcome<U>) {
    !o'.Done? && (o'.Killed? <==> o.Killed?) && (o'.Failed? ==> o.Failed? && o'.error == o.error)
  }

  lemma McmSteps(w: World, env: Env, ds: DataStore, input: Input, p: Part, c: Part, b: Part)
    requires AreMcms(env, input, p, c, b)
    ensures
      var (w1, o1) := Ensure(w, env, ds, p.contractType, input.qualifier, p.op);
      var (w2, o2) := Ensure(w1, env, ds, c.contractType, input.qualifier, c.op);
      var (w3, o3) := Ensure(w2, env, ds, b.contractType, input.qualifier, b.op);
      var (w', o) := EnsureMCMs(w, env, ds, input);
      if !o1.Done? then w' == w1 && Stops(o1, o)
      else if !o2.Done? then w' == w2 && Stops(o2, o)
      else if !o3.Done? then w' == w3 && Stops(o3, o)
      else w' == w3 && o == Done((o1.value, o2.value, o3.value))
  {
    hide Ensure, MCMOp, Parts;
  }

  lemma ThreeSteps(w: World, env: Env, ds: DataStore, input: Input, p: Part, c: Part, b: Part)
    requires AreMcms(env, input, p, c, b) && Reached(w, w, env, ds, input, [], 0)
    requires Parts(env, input, [p]) && Parts(env, input, [p] + [c]) && Parts(env, input, [p] + [c] + [b])
    ensures
      var (w', o) := EnsureMCMs(w, env, ds, input);
      McmsEnsured(w, env, ds, input, p, c, b, w', o)
  {
    var none: seq<Part> := [];
    assert none + [p] == [p];
    var (w1, o1) := Ensure(w, env, ds, p.contractType, input.qualifier, p.op);
    var (w2, o2) := Ensure(w1, env, ds, c.contractType, input.qualifier, c.op);
    var (w3, o3) := Ensure(w2, env, ds, b.contractType, input.qualifier, b.op);
    var (w', o) := EnsureMCMs(w, env, ds, input);
    hide *;
    McmSteps(w, env, ds, input, p, c, b);
    EnsureNext(w, w, env, ds, input, none, p, 0);
    if !o1.Done? {
      StoppedAt(w, w, env, ds, input, p, c, b, none, p, 0, w1, o1, o);
    } else {
      Advanced(w, w, env, ds, input, none, p, 0, w1, o1);
      EnsureNext(w, w1, env, ds, input, [p], c, 2);
      if !o2.Done? {
        StoppedAt(w, w1, env, ds, input, p, c, b, [p], c, 2, w2, o2, o);
      } else {
        Advanced(w, w1, env, ds, input, [p], c, 2, w2, o2);
        EnsureNext(w, w2, env, ds, input, [p] + [c], b, 4);
        if !o3.Done? {
          StoppedAt(w, w2, env, ds, input, p, c, b, [p] + [c], b, 4, w3, o3, o);
        } else {
          Advanced(w, w2, env, ds, input, [p] + [c], b, 4, w3, o3);
          Spent(w, w1, env, ds, input, [p], 2);
          Spent(w, w2, env, ds, input, [p] + [c], 4);
          AllEnsured(w, env, ds, input, p, c, b, w3, o);
        }
      }
    }
  }

  lemma Advanced(w: World, w1: World, env: Env, ds: DataStore, input: Input, parts: seq<Part>, part: Part, spent: nat,
                 w2: World, o: Outcome<FoundRef>)
    requires Next(w, w1, env, ds, input, parts, part, spent, w2, o) && o.Done?
    ensures Reached(w, w2, env, ds, input, parts + [part], spent + 2)
    ensures o.value == Value(w, env, ds, input, part)
    ensures w1.chain.budget >= 2 ==> MayConfigure(w, env, ds, input, part)
  {
    hide OnlyAt, AllThere, AllReported, MayConfigure, Value;
  }

  lemma Spent(w: World, w': World, env: Env, ds: DataStore, input: Input, parts: seq<Part>, spent: nat)
    requires Reached(w, w', env, ds, input, parts, spent)
    ensures w'.chain.budget + spent >= w.chain.budget
  {
    hide OnlyAt, AllThere, AllReported;
  }

  /** Of the three, `part` is the first not to be done. */
  lemma StoppedAt(w: World, w1: World, env: Env, ds: DataStore, input: Input, p: Part, c: Part, b: Part,
                  parts: seq<Part>,
                  part: Part, spent: nat, w2: World, o: Outcome<FoundRef>, o': Outcome<(FoundRef, FoundRef, FoundRef)>)
    requires Reached(w, w1, env, ds, input, parts, spent) && spent <= 4
    requires Next(w, w1, env, ds, input, parts, part, spent, w2, o) && !o.Done? && Stops(o, o')
    requires parts + [part] == [p] || parts + [part] == [p] + [c] || parts + [part] == [p] + [c] + [b]
    ensures McmsEnsured(w, env, ds, input, p, c, b, w2, o')
  {
    var mcms := [p] + [c] + [b];
    assert OnlyAt(w, w2.chain.ledger, env, ds, input, parts + [part]);
    if parts + [part] == [p] {
      Grows(w, w2, env, ds, input, [p], c);
    }
    if parts + [part] != mcms {
      Grows(w, w2, env, ds, input, [p] + [c], b);
    }
    assert part in parts + [part];
    assert part in mcms;
    hide OnlyAt, AllThere, AllReported, MayConfigure;
  }

  lemma AllEnsured(w: World, env: Env, ds: DataStore, input: Input, p: Part, c: Part, b: Part, w': World,
                   o: Outcome<(FoundRef, FoundRef, FoundRef)>)
    requires Reached(w, w', env, ds, input, [p] + [c] + [b], 6) && o.Done?
    requires o.value == (Value(w, env, ds, input, p), Value(w, env, ds, input, c), Value(w, env, ds, input, b))
    requires w.chain.budget >= 6 ==>
      MayConfigure(w, env, ds, input, p) && MayConfigure(w, env, ds, input, c) && MayConfigure(w, env, ds, input, b)
    ensures McmsEnsured(w, env, ds, input, p, c, b, w', o)
  {
    MayThree(w, env, ds, input, p, c, b);
    hide OnlyAt, AllThere, AllReported, MayConfigure, MayAll, Value;
  }

  lemma MayThree(w: World, env: Env, ds: DataStore, input: Input, p: Part, c: Part, b: Part)
    ensures MayAll(w, env, ds, input, [p] + [c] + [b]) <==>
      MayConfigure(w, env, ds, input, p) && MayConfigure(w, env, ds, input, c) && MayConfigure(w, env, ds, input, b)
  {
    hide MayConfigure;
    var all := [p] + [c] + [b];
    assert p in all && c in all && b in all && forall part :: part in all ==> part == p || part == c || part == b;
  }

  lemma PartsPrefix(env: Env, input: Input, parts: seq<Part>, part: Part)
    requires Parts(env, input, parts + [part])
    ensures Parts(env, input, parts)
  {
    var all := parts + [part];
    assert forall part :: part in parts ==> part in all;
    assert forall i :: 0 <= i < |parts| ==> parts[i] == all[i];
  }

  lemma TypesColonFree()
    ensures ':' !in PROPOSER && ':' !in CANCELLER && ':' !in BYPASSER && ':' !in TIMELOCK
  {}

  lemma Grows(w: World, w': World, env: Env, ds: DataStore, input: Input, parts: seq<Part>, part: Part)
    requires OnlyAt(w, w'.chain.ledger, env, ds, input, parts)
    ensures OnlyAt(w, w'.chain.ledger, env, ds, input, parts + [part])
  {
    assert forall other :: other in parts ==> other in parts + [part];
    hide Home, IsNew;
  }

  // ----- the whole run

  /** The refs of those the datastore does not have, in order. */
  function NewRefs(w: World, env: Env, ds: DataStore, input: Input, parts: seq<Part>): seq<AddressRef> {
    if parts == [] then []
    else
      var last := parts[|parts| - 1];
      NewRefs(w, env, ds, input, parts[..|parts| - 1])
      + if Listed(ds, input, last) then [] else [RefFor(w, env, ds, input, last)]
  }

  lemma NewRefsPlus(w: World, env: Env, ds: DataStore, input: Input, parts: seq<Part>, part: Part)
    ensures NewRefs(w, env, ds, input, []) == []
    ensures NewRefs(w, env, ds, input, parts + [part]) == NewRefs(w, env, ds, input, parts)
      + New(Value(w, env, ds, input, part))
  {
    assert (parts + [part])[..|parts|] == parts;
  }

  lemma NewRefsOfFour(w: World, env: Env, ds: DataStore, input: Input, p: Part, c: Part, b: Part, t: Part)
    ensures NewRefs(w, env, ds, input, [p] + [c] + [b] + [t]) ==
      New(Value(w, env, ds, input, p)) + New(Value(w, env, ds, input, c)) + New(Value(w, env, ds, input, b))
      + New(Value(w, env, ds, input, t))
  {
    var none: seq<Part> := [];
    assert none + [p] == [p];
    var n, m, l, k := Value(w, env, ds, input, p), Value(w, env, ds, input, c), Value(w, env, ds, input, b),
                      Value(w, env, ds, input, t);
    hide *;
    NewRefsPlus(w, env, ds, input, none, p);
    NewRefsPlus(w, env, ds, input, [p], c);
    NewRefsPlus(w, env, ds, input, [p] + [c], b);
    NewRefsPlus(w, env, ds, input, [p] + [c] + [b], t);
    Empty(New(n));
  }

  lemma Empty<T>(s: seq<T>)
    ensures [] + s == s
  {}

  /** What becomes of a run over these four parts. */
  ghost predicate RunEnds(w: World, env: Env, ds: DataStore, input: Input, p: Part, c: Part, b: Part, t: Part,
                          apart: bool,
                          w': World, o: Outcome<seq<AddressRef>>) {
    var mcms := [p] + [c] + [b];
    var all := mcms + [t];
    && (w.chain.budget >= 8 ==>
          (o.Done? <==> MayAll(w, env, ds, input, mcms) && apart && MayConfigure(w, env, ds, input, t)))
    && (o.Done? ==>
          && o.value == NewRefs(w, env, ds, input, all)
          && AllThere(w, w'.chain.ledger, env, ds, input, all)
          && AllReported(w, w', env, ds, input, all))
    && OnlyAt(w, w'.chain.ledger, env, ds, input, all)
    && (!apart ==> !o.Done? && OnlyAt(w, w'.chain.ledger, env, ds, input, mcms))
    && (o == Failed(SameContract) ==>
          !apart && AllThere(w, w'.chain.ledger, env, ds, input, mcms) && AllReported(w, w', env, ds, input, mcms))
    && (!apart && w.chain.budget >= 6 && MayAll(w, env, ds, input, mcms) ==> o == Failed(SameContract))
  }

  /** From any ledger, over any datastore and any reports. Each part's ref is the one
      the datastore has, else the reported one, else a new one for the slot its type
      resolves to; the timelock's roles are for the multisigs these refs name. With eight
      writes to spend the run completes exactly when the multisigs are at three addresses
      and each new part can be configured. A completed run returns exactly the refs that
      the datastore does not have, in order, reports exactly the new parts, and leaves
      each as its operation does. Nothing else on the ledger changes, whatever becomes of
      the run. Where multisigs share an address the run does not complete and leaves the
      timelock alone; with the multisigs done, that is the error it reports, and never
      otherwise; then the multisigs are there and reported. */
  lemma RunOutcome(w: World, env: Env, ds: DataStore, input: Input)
    ensures
      var (w', o) := Run(w, env, ds, input);
      var p := McmPart(env, input, "ProposerManyChainMultiSig", input.proposer);
      var c := McmPart(env, input, "CancellerManyChainMultiSig", input.canceller);
      var b := McmPart(env, input, "BypasserManyChainMultiSig", input.bypasser);
      var (x, y, z) := (RefFor(w, env, ds, input, p).address, RefFor(w, env, ds, input, c).address,
                        RefFor(w, env, ds, input, b).address);
      var t := TimelockPart(env, input, x, y, z);
      RunEnds(w, env, ds, input, p, c, b, t, x != y && x != z && y != z, w', o)
  {
    var p := McmPart(env, input, PROPOSER, input.proposer);
    var c := McmPart(env, input, CANCELLER, input.canceller);
    var b := McmPart(env, input, BYPASSER, input.bypasser);
    var (x, y, z) := (RefFor(w, env, ds, input, p).address, RefFor(w, env, ds, input, c).address,
                      RefFor(w, env, ds, input, b).address);
    var t := TimelockPart(env, input, x, y, z);
    AreParts(env, input, x, y, z);
    FourOutcome(w, env, ds, input, p, c, b, t);
    hide *;
  }

  lemma AreParts(env: Env, input: Input, x: Address, y: Address, z: Address)
    ensures
      var p := McmPart(env, input, PROPOSER, input.proposer);
      var c := McmPart(env, input, CANCELLER, input.canceller);
      var b := McmPart(env, input, BYPASSER, input.bypasser);
      var t := TimelockPart(env, input, x, y, z);
      AreMcms(env, input, p, c, b) && Parts(env, input, [p] + [c] + [b] + [t])
  {
    var p := McmPart(env, input, PROPOSER, input.proposer);
    var c := McmPart(env, input, CANCELLER, input.canceller);
    var b := McmPart(env, input, BYPASSER, input.bypasser);
    var t := TimelockPart(env, input, x, y, z);
    TypesApart();
    TypesColonFree();
    PartsPrefix(env, input, [p] + [c] + [b], t);
  }

  lemma TypesApart()
    ensures PROPOSER != CANCELLER && PROPOSER != BYPASSER && CANCELLER != BYPASSER
    ensures TIMELOCK != PROPOSER && TIMELOCK != CANCELLER && TIMELOCK != BYPASSER
  {
    assert PROPOSER[0] != CANCELLER[0] && PROPOSER[0] != BYPASSER[0] && CANCELLER[0] != BYPASSER[0];
    assert PROPOSER[0] != TIMELOCK[0] && CANCELLER[0] != TIMELOCK[0] && BYPASSER[0] != TIMELOCK[0];
  }

  lemma FourSteps(w: World, env: Env, ds: DataStore, input: Input)
    ensures
      var (w3, o3) := EnsureMCMs(w, env, ds, input);
      var (w', o) := Run(w, env, ds, input);
      if !o3.Done? then w' == w3 && Stops(o3, o)
      else
        var (p, c, b) := o3.value;
        var (x, y, z) := (p.0.address, c.0.address, b.0.address);
        if x == y || x == z || y == z then w' == w3 && o == Failed(SameContract)
        else
          var (w4, o4) := Ensure(w3, env, ds, TIMELOCK, input.qualifier, TimelockOp(input, x, y, z));
          w' == w4 && if o4.Done? then o == Done(New(p) + New(c) + New(b) + New(o4.value)) else Stops(o4, o)
  {
    hide Ensure, EnsureMCMs, TimelockOp, New;
  }

  /** The multisigs are done and apart, and then the timelock was tried. */
  lemma RanAll(w: World, env: Env, ds: DataStore, input: Input, p: Part, c: Part, b: Part, t: Part,
               w3: World, o3: Outcome<(FoundRef, FoundRef, FoundRef)>, w4: World, o4: Outcome<FoundRef>,
               o: Outcome<seq<AddressRef>>)
    requires McmsEnsured(w, env, ds, input, p, c, b, w3, o3) && o3.Done?
    requires Next(w, w3, env, ds, input, [p] + [c] + [b], t, 6, w4, o4)
    requires if o4.Done? then o == Done(New(o3.value.0) + New(o3.value.1) + New(o3.value.2) + New(o4.value))
             else Stops(o4, o)
    ensures RunEnds(w, env, ds, input, p, c, b, t, true, w4, o)
  {
    NewRefsOfFour(w, env, ds, input, p, c, b, t);
    hide OnlyAt, AllThere, AllReported, MayAll, MayConfigure, NewRefs, Value, New;
    var all := [p] + [c] + [b] + [t];
    assert o.Done? ==> Reached(w, w4, env, ds, input, all, 8);
    assert o.Done? ==> o.value == NewRefs(w, env, ds, input, all);
  }

  /** The multisigs are not done, or not apart. */
  lemma RanMcms(w: World, env: Env, ds: DataStore, input: Input, p: Part, c: Part, b: Part, t: Part, apart: bool,
                w3: World, o3: Outcome<(FoundRef, FoundRef, FoundRef)>, o: Outcome<seq<AddressRef>>)
    requires McmsEnsured(w, env, ds, input, p, c, b, w3, o3)
    requires if o3.Done? then !apart && o == Failed(SameContract) else Stops(o3, o)
    ensures RunEnds(w, env, ds, input, p, c, b, t, apart, w3, o)
  {
    hide AllThere, AllReported, MayAll, MayConfigure, NewRefs, Value;
    Grows(w, w3, env, ds, input, [p] + [c] + [b], t);
    hide OnlyAt;
  }

  lemma FourOutcome(w: World, env: Env, ds: DataStore, input: Input, p: Part, c: Part, b: Part, t: Part)
    requires AreMcms(env, input, p, c, b) && Parts(env, input, [p] + [c] + [b] + [t])
    requires
      var (x, y, z) := (RefFor(w, env, ds, input, p).address, RefFor(w, env, ds, input, c).address,
                        RefFor(w, env, ds, input, b).address);
      t.contractType == TIMELOCK && t.op == TimelockOp(input, x, y, z)
    ensures
      var (w', o) := Run(w, env, ds, input);
      var (x, y, z) := (RefFor(w, env, ds, input, p).address, RefFor(w, env, ds, input, c).address,
                        RefFor(w, env, ds, input, b).address);
      RunEnds(w, env, ds, input, p, c, b, t, x != y && x != z && y != z, w', o)
  {
    var (x, y, z) := (RefFor(w, env, ds, input, p).address, RefFor(w, env, ds, input, c).address,
                      RefFor(w, env, ds, input, b).address);
    var (w3, o3) := EnsureMCMs(w, env, ds, input);
    var (w4, o4) := Ensure(w3, env, ds, t.contractType, input.qualifier, t.op);
    var (w', o) := Run(w, env, ds, input);
    var apart := x != y && x != z && y != z;
    hide *;
    McmsOutcome(w, env, ds, input, p, c, b);
    FourSteps(w, env, ds, input);
    McmsDone(w, env, ds, input, p, c, b, w3, o3);
    if o3.Done? && apart {
      EnsureNext(w, w3, env, ds, input, [p] + [c] + [b], t, 6);
      RanAll(w, env, ds, input, p, c, b, t, w3, o3, w4, o4, o);
    } else {
      RanMcms(w, env, ds, input, p, c, b, t, apart, w3, o3, o);
    }
  }

  lemma McmsDone(w: World, env: Env, ds: DataStore, input: Input, p: Part, c: Part, b: Part, w3: World,
                 o3: Outcome<(FoundRef, FoundRef, FoundRef)>)
    requires McmsEnsured(w, env, ds, input, p, c, b, w3, o3)
    ensures o3.Done? ==>
      && Reached(w, w3, env, ds, input, [p] + [c] + [b], 6)
      && o3.value.0.0 == RefFor(w, env, ds, input, p) && o3.value.1.0 == RefFor(w, env, ds, input, c)
      && o3.value.2.0 == RefFor(w, env, ds, input, b)
  {
    hide Reached, RefFor, OnlyAt, MayAll;
  }

  /** For instance where the datastore has the multisigs, at three addresses, and no
      timelock is reported or at its slot: a run returns the timelock's ref alone, with
      the requested delay and the roles of these three, and no other contract changes. */
  lemma OnlyTheTimelock(w: World, env: Env, ds: DataStore, input: Input, p: Address, c: Address, b: Address)
    requires Usable(env, env.timelockWasm) && w.chain.budget >= 2 && p != c && p != b && c != b
    requires NoAddress !in {p, c, b} && w.reports == map[]
    requires ("RBACTimelock", input.qualifier) !in ds
    requires ("ProposerManyChainMultiSig", input.qualifier) in ds
    requires ("CancellerManyChainMultiSig", input.qualifier) in ds
    requires ("BypasserManyChainMultiSig", input.qualifier) in ds
    requires ds[("ProposerManyChainMultiSig", input.qualifier)].address == p
    requires ds[("CancellerManyChainMultiSig", input.qualifier)].address == c
    requires ds[("BypasserManyChainMultiSig", input.qualifier)].address == b
    requires HomeOf(w.chain.ledger, env, input, "RBACTimelock", env.timelockWasm) !in w.chain.ledger
    requires Resolved(w.chain.ledger, SiteOf(env, TIMELOCK, input.qualifier), WasmHash(env.timelockWasm)) < 1024
    ensures
      var (w', o) := Run(w, env, ds, input);
      var home := HomeOf(w.chain.ledger, env, input, "RBACTimelock", env.timelockWasm);
      && o == Done([AddressRef("RBACTimelock", home, input.qualifier, Labels(input.lbl))])
      && w'.chain.ledger == w.chain.ledger[home :=
           Instance(Some(WasmHash(env.timelockWasm)), None, NO_CONFIG, 0,
                    Some(Roles(input.minDelay, {p}, {p, c, b}, {b})))]
  {
    var t := TimelockPart(env, input, p, c, b);
    KnownMcms(w, env, ds, input);
    FourSteps(w, env, ds, input);
    EnsureOutcome(w, env, ds, input, t);
    hide Resolved, Slot, EnsureMCMs, Run;
    assert IsNew(w, ds, input, t) && Able(w.chain.ledger, env, t.op);
    hide Ensure;
    var (w4, o4) := Ensure(w, env, ds, TIMELOCK, input.qualifier, t.op);
    assert o4.Done? && o4.value == (RefFor(w, env, ds, input, t), true);
    assert Run(w, env, ds, input) == (w4, Done([] + [] + [] + [o4.value.0]));
    assert [] + [] + [] + [o4.value.0] == [o4.value.0];
  }

  lemma KnownMcms(w: World, env: Env, ds: DataStore, input: Input)
    requires (PROPOSER, input.qualifier) in ds && (CANCELLER, input.qualifier) in ds
      && (BYPASSER, input.qualifier) in ds
    ensures EnsureMCMs(w, env, ds, input) ==
      (w, Done(((ds[(PROPOSER, input.qualifier)], false), (ds[(CANCELLER, input.qualifier)], false),
                (ds[(BYPASSER, input.qualifier)], false))))
  {}
}
