/** The Stellar deploy operations and sequence: deploy or adopt, initialise or
    repair, three multisigs and one timelock.

    A run may be killed before any on-chain write: `budget` counts the writes it
    still gets. Reads cannot change the ledger, so a run that dies on a failed
    read leaves the state of a run killed before its next write. */
module StellarDeploy {
  import opened Wrappers
  import opened StellarIdentity

  const PROPOSER := "ProposerManyChainMultiSig"
  const CANCELLER := "CancellerManyChainMultiSig"
  const BYPASSER := "BypasserManyChainMultiSig"
  const TIMELOCK := "RBACTimelock"

  const NO_CONFIG := Config(0, false)

  /** What the process takes from its environment: the network, the signer and
      the two WASM artifacts. */
  datatype Env = Env(network: string, signer: string, mcmWasm: seq<nat>, timelockWasm: seq<nat>)

  predicate Usable(env: Env, wasm: seq<nat>) {
    env.network != "" && env.signer != "" && wasm != []
  }

  function SiteOf(env: Env, contractType: string, qualifier: string): Site {
    Site(env.network, env.signer, contractType, qualifier)
  }

  datatype Chain = Chain(ledger: Ledger, budget: nat)

  datatype Error = Unresolved | UnsupportedType | InvalidConfig | ForeignOwner | InvalidRoles | SameContract

  datatype Outcome<+T> = Done(value: T) | Failed(error: Error) | Killed

  datatype AddressRef = AddressRef(contractType: string, address: Address, qualifier: string, labels: set<string>)

  function NewAddressRef(contractType: string, address: Address, qualifier: string, lbl: string): AddressRef {
    AddressRef(contractType, address, qualifier, if lbl != "" then {lbl} else {})
  }

  datatype McmInput = McmInput(contractType: string, config: Config, qualifier: string, lbl: string)
  datatype TimelockInput = TimelockInput(minDelay: nat, proposer: Address, canceller: Address, bypasser: Address,
                                         qualifier: string, lbl: string)

  // ----- contracts on the ledger

  function Deployed(wasm: seq<nat>): Instance {
    Instance(Some(WasmHash(wasm)), None, NO_CONFIG, 0, None)
  }

  /** One on-chain write: it happens whole, or the run has been killed before it. */
  function Write(c: Chain, id: Address, instance: Instance): (Chain, bool) {
    if c.budget == 0 then (c, false) else (Chain(c.ledger[id := instance], c.budget - 1), true)
  }

  predicate SupportedType(contractType: string) {
    contractType in {PROPOSER, CANCELLER, BYPASSER}
  }

  /** Initialise an ownerless multisig, repair a wrong config, or leave it alone. */
  function ConfigureMCM(c: Chain, signer: string, id: Address, mcm: McmInput): (Chain, Outcome<()>)
    requires id in c.ledger
  {
    var current := c.ledger[id];
    if current.owner.None? then
      if !SupportedType(mcm.contractType) then (c, Failed(UnsupportedType))
      else if !mcm.config.valid then (c, Failed(InvalidConfig))
      else
        var (c1, ok) := Write(c, id, current.(owner := Some(Account(signer)), config := mcm.config));
        (c1, if ok then Done(()) else Killed)
    else if current.config == mcm.config then (c, Done(()))
    else if current.owner.value != Account(signer) then (c, Failed(ForeignOwner))
    else if !mcm.config.valid then (c, Failed(InvalidConfig))
    else
      var (c1, ok) := Write(c, id, current.(config := mcm.config, root := 0));
      (c1, if ok then Done(()) else Killed)
  }

  /** The slot a contract type resolves to, after deploying to it when it is free. */
  function Claim(c: Chain, env: Env, contractType: string, qualifier: string, wasm: seq<nat>)
    : (r: (Chain, Outcome<Address>))
    ensures r.1.Done? ==> r.1.value in r.0.ledger
  {
    var site := SiteOf(env, contractType, qualifier);
    var k := Resolved(c.ledger, site, WasmHash(wasm));
    var id := Slot(site, k);
    if !Usable(env, wasm) || contractType == "" || k == MAX_DEPLOYMENT_SALT_ATTEMPTS then (c, Failed(Unresolved))
    else if id in c.ledger then (c, Done(id))
    else
      var (c1, ok) := Write(c, id, Deployed(wasm));
      (c1, if ok then Done(id) else Killed)
  }

  function DeployMCM(c: Chain, env: Env, mcm: McmInput): (Chain, Outcome<AddressRef>) {
    match Claim(c, env, mcm.contractType, mcm.qualifier, env.mcmWasm)
    case (c1, Killed) => (c1, Killed)
    case (c1, Failed(e)) => (c1, Failed(e))
    case (c1, Done(id)) =>
      match ConfigureMCM(c1, env.signer, id, mcm)
      case (c2, Killed) => (c2, Killed)
      case (c2, Failed(e)) => (c2, Failed(e))
      case (c2, Done(_)) => (c2, Done(NewAddressRef(mcm.contractType, id, mcm.qualifier, mcm.lbl)))
  }

  /** What validateTimelockRoleAddresses accepts. */
  predicate ValidRoleAddresses(addresses: seq<Address>) {
    && |addresses| > 0
    && NoAddress !in addresses
    && forall i, j :: 0 <= i < j < |addresses| ==> addresses[i] != addresses[j]
  }

  function AsSet(addresses: seq<Address>): set<Address> {
    set a | a in addresses
  }

  function InitializeTimelock(c: Chain, id: Address, minDelay: nat, proposers: seq<Address>, cancellers: seq<Address>,
                              bypassers: seq<Address>): (Chain, Outcome<()>)
    requires id in c.ledger
  {
    if !ValidRoleAddresses(proposers) || !ValidRoleAddresses(cancellers) || !ValidRoleAddresses(bypassers) then
      (c, Failed(InvalidRoles))
    else
      var roles := Roles(minDelay, AsSet(proposers), AsSet(cancellers), AsSet(bypassers));
      var (c1, ok) := Write(c, id, c.ledger[id].(roles := Some(roles)));
      (c1, if ok then Done(()) else Killed)
  }

  function DeployTimelock(c: Chain, env: Env, tl: TimelockInput): (Chain, Outcome<AddressRef>) {
    match Claim(c, env, TIMELOCK, tl.qualifier, env.timelockWasm)
    case (c1, Killed) => (c1, Killed)
    case (c1, Failed(e)) => (c1, Failed(e))
    case (c1, Done(id)) =>
      var ref := NewAddressRef(TIMELOCK, id, tl.qualifier, tl.lbl);
      if c1.ledger[id].roles.Some? then (c1, Done(ref)) else
      match InitializeTimelock(c1, id, tl.minDelay, [tl.proposer], [tl.proposer, tl.canceller, tl.bypasser],
        [tl.bypasser])
      case (c2, Killed) => (c2, Killed)
      case (c2, Failed(e)) => (c2, Failed(e))
      case (c2, Done(_)) => (c2, Done(ref))
  }

  // ----- the sequence

  datatype OpInput = OpMCM(mcm: McmInput) | OpTimelock(timelock: TimelockInput)

  /** `reports` is the memo table of the operations framework for one chain. */
  datatype World = World(chain: Chain, reports: map<OpInput, AddressRef>)

  /** Datastore refs of one chain and version, keyed by (type, qualifier). */
  type DataStore = map<(string, string), AddressRef>

  datatype Input = Input(qualifier: string, lbl: string, minDelay: nat, proposer: Config, canceller: Config,
                         bypasser: Config)

  function Perform(c: Chain, env: Env, op: OpInput): (Chain, Outcome<AddressRef>) {
    match op
    case OpMCM(mcm) => DeployMCM(c, env, mcm)
    case OpTimelock(tl) => DeployTimelock(c, env, tl)
  }

  /** ExecuteOperation: reuse a report, or perform the operation and record one. */
  function Execute(w: World, env: Env, op: OpInput): (World, Outcome<AddressRef>) {
    if op in w.reports then (w, Done(w.reports[op])) else
    match Perform(w.chain, env, op)
    case (c, Done(ref)) => (World(c, w.reports[op := ref]), Done(ref))
    case (c, o) => (World(c, w.reports), o)
  }

  /** A ref, and whether it is new metadata: not from the datastore. */
  type FoundRef = (AddressRef, bool)

  function Ensure(w: World, env: Env, ds: DataStore, contractType: string, qualifier: string, op: OpInput)
    : (World, Outcome<FoundRef>)
  {
    if (contractType, qualifier) in ds then (w, Done((ds[(contractType, qualifier)], false))) else
    match Execute(w, env, op)
    case (w1, Done(ref)) => (w1, Done((ref, true)))
    case (w1, Failed(e)) => (w1, Failed(e))
    case (w1, Killed) => (w1, Killed)
  }

  function MCMOp(input: Input, contractType: string, config: Config): OpInput {
    OpMCM(McmInput(contractType, config, input.qualifier, input.lbl))
  }

  function TimelockOp(input: Input, p: Address, c: Address, b: Address): OpInput {
    OpTimelock(TimelockInput(input.minDelay, p, c, b, input.qualifier, input.lbl))
  }

  predicate Distinct(p: Address, c: Address, b: Address) {
    p != c && p != b && c != b
  }

  function EnsureMCMs(w: World, env: Env, ds: DataStore, input: Input)
    : (World, Outcome<(FoundRef, FoundRef, FoundRef)>)
  {
    match Ensure(w, env, ds, PROPOSER, input.qualifier, MCMOp(input, PROPOSER, input.proposer))
    case (w1, Failed(e)) => (w1, Failed(e))
    case (w1, Killed) => (w1, Killed)
    case (w1, Done(p)) =>
      match Ensure(w1, env, ds, CANCELLER, input.qualifier, MCMOp(input, CANCELLER, input.canceller))
      case (w2, Failed(e)) => (w2, Failed(e))
      case (w2, Killed) => (w2, Killed)
      case (w2, Done(c)) =>
        match Ensure(w2, env, ds, BYPASSER, input.qualifier, MCMOp(input, BYPASSER, input.bypasser))
        case (w3, Failed(e)) => (w3, Failed(e))
        case (w3, Killed) => (w3, Killed)
        case (w3, Done(b)) => (w3, Done((p, c, b)))
  }

  function New(found: FoundRef): seq<AddressRef> {
    if found.1 then [found.0] else []
  }

  /** A whole run: the new world and, when it completes, the new refs. The
      changeset drops the output of a run that does not complete. */
  function Run(w: World, env: Env, ds: DataStore, input: Input): (World, Outcome<seq<AddressRef>>) {
    match EnsureMCMs(w, env, ds, input)
    case (w3, Failed(e)) => (w3, Failed(e))
    case (w3, Killed) => (w3, Killed)
    case (w3, Done((p, c, b))) =>
      if !Distinct(p.0.address, c.0.address, b.0.address) then (w3, Failed(SameContract)) else
      match Ensure(w3, env, ds, TIMELOCK, input.qualifier, TimelockOp(input, p.0.address, c.0.address, b.0.address))
      case (w4, Failed(e)) => (w4, Failed(e))
      case (w4, Killed) => (w4, Killed)
      case (w4, Done(t)) => (w4, Done(New(p) + New(c) + New(b) + New(t)))
  }

  // ----- deployStellarMCM, from every ledger state

  /** The multisig a run may find at its resolved slot can be brought to `mcm.config`. */
  predicate Configurable(ledger: Ledger, env: Env, mcm: McmInput) {
    var site := SiteOf(env, mcm.contractType, mcm.qualifier);
    var k := Resolved(ledger, site, WasmHash(env.mcmWasm));
    var id := Slot(site, k);
    && Usable(env, env.mcmWasm)
    && mcm.contractType != ""
    && k < MAX_DEPLOYMENT_SALT_ATTEMPTS
    && if id !in ledger || ledger[id].owner.None?
       then mcm.config.valid
            && mcm.contractType in {"ProposerManyChainMultiSig", "CancellerManyChainMultiSig",
                 "BypasserManyChainMultiSig"}
       else ledger[id].config == mcm.config || (ledger[id].owner == Some(Account(env.signer)) && mcm.config.valid)
  }

  /** The contract an operation finds at its slot once it has deployed there if free. */
  function Found(ledger: Ledger, id: Address, wasm: seq<nat>): Instance {
    if id in ledger then ledger[id] else Instance(Some(WasmHash(wasm)), None, NO_CONFIG, 0, None)
  }

  /** An operation that did not complete has at most deployed a bare contract at `id`. */
  predicate AtMostDeployed(c: Chain, c': Chain, id: Address, wasm: seq<nat>) {
    c'.ledger == c.ledger || (id !in c.ledger && c'.ledger == c.ledger[id := Found(c.ledger, id, wasm)])
  }

  /** With two writes to spend it succeeds exactly on configurable slots. Success,
      however many writes it had, means: the ref names the resolved slot, and the
      multisig there is initialised with the signer as owner and the requested config,
      if it had no owner; as it was, if it had that config; and otherwise repaired:
      config replaced and root cleared. No other contract changes. */
  lemma DeployMCMOutcome(c: Chain, env: Env, mcm: McmInput)
    ensures
      var (c', o) := DeployMCM(c, env, mcm);
      var site := Site(env.network, env.signer, mcm.contractType, mcm.qualifier);
      var id := Slot(site, Resolved(c.ledger, site, WasmHash(env.mcmWasm)));
      var found := Found(c.ledger, id, env.mcmWasm);
      && (c.budget >= 2 ==> (o.Done? <==> Configurable(c.ledger, env, mcm)))
      && (o.Killed? ==> c.budget < 2)
      && (o.Done? ==>
            && o.value ==
                 AddressRef(mcm.contractType, id, mcm.qualifier, if mcm.lbl == "" then {} else {mcm.lbl})
            && found.code == Some(WasmHash(env.mcmWasm))
            && c'.ledger == c.ledger[id :=
                 if found.owner.None? then found.(owner := Some(Account(env.signer)), config := mcm.config)
                 else if found.config == mcm.config then found
                 else found.(config := mcm.config, root := 0)])
      && (!o.Done? ==> AtMostDeployed(c, c', id, env.mcmWasm))
      && c'.budget <= c.budget <= c'.budget + 2
  {
    var site := Site(env.network, env.signer, mcm.contractType, mcm.qualifier);
    var id := Slot(site, Resolved(c.ledger, site, WasmHash(env.mcmWasm)));
    assert Resolved(c.ledger, site, WasmHash(env.mcmWasm)) <= MAX_DEPLOYMENT_SALT_ATTEMPTS;
    assert Resolved(c.ledger, site, WasmHash(env.mcmWasm)) < MAX_DEPLOYMENT_SALT_ATTEMPTS ==>
      !Foreign(c.ledger, id, WasmHash(env.mcmWasm));
    hide Resolved, Slot;
    if id in c.ledger {
      assert c.ledger[id := c.ledger[id]] == c.ledger;
    }
  }

  /** The timelock a run may find at its resolved slot is initialised, or can be with
      these role holders. */
  predicate Initialisable(ledger: Ledger, env: Env, tl: TimelockInput) {
    var site := SiteOf(env, TIMELOCK, tl.qualifier);
    var k := Resolved(ledger, site, WasmHash(env.timelockWasm));
    var id := Slot(site, k);
    && Usable(env, env.timelockWasm)
    && k < MAX_DEPLOYMENT_SALT_ATTEMPTS
    && ((id in ledger && ledger[id].roles.Some?)
        || (NoAddress !in {tl.proposer, tl.canceller, tl.bypasser} && Distinct(tl.proposer, tl.canceller, tl.bypasser)))
  }

  lemma RoleLists(p: Address, c: Address, b: Address)
    ensures AsSet([p]) == {p} && AsSet([p, c, b]) == {p, c, b} && AsSet([b]) == {b}
    ensures ValidRoleAddresses([p]) && ValidRoleAddresses([p, c, b]) && ValidRoleAddresses([b]) <==>
      NoAddress !in {p, c, b} && Distinct(p, c, b)
  {
    assert [p, c, b][0] == p && [p, c, b][1] == c && [p, c, b][2] == b && [p][0] == p && [b][0] == b;
  }

  /** The same for the timelock: one that has roles is adopted as it is, any other is
      initialised with the requested delay, the proposer to propose, all three to cancel
      and the bypasser to bypass. */
  lemma DeployTimelockOutcome(c: Chain, env: Env, tl: TimelockInput)
    ensures
      var (c', o) := DeployTimelock(c, env, tl);
      var site := Site(env.network, env.signer, "RBACTimelock", tl.qualifier);
      var id := Slot(site, Resolved(c.ledger, site, WasmHash(env.timelockWasm)));
      var found := Found(c.ledger, id, env.timelockWasm);
      && (c.budget >= 2 ==> (o.Done? <==> Initialisable(c.ledger, env, tl)))
      && (o.Killed? ==> c.budget < 2)
      && (o.Done? ==>
            && o.value == AddressRef("RBACTimelock", id, tl.qualifier, if tl.lbl == "" then {} else {tl.lbl})
            && found.code == Some(WasmHash(env.timelockWasm))
            && c'.ledger == c.ledger[id :=
                 if found.roles.Some? then found
                 else found.(roles := Some(Roles(tl.minDelay, {tl.proposer}, {tl.proposer, tl.canceller, tl.bypasser},
                                                 {tl.bypasser})))])
      && (!o.Done? ==> AtMostDeployed(c, c', id, env.timelockWasm))
      && c'.budget <= c.budget <= c'.budget + 2
  {
    var site := Site(env.network, env.signer, TIMELOCK, tl.qualifier);
    var id := Slot(site, Resolved(c.ledger, site, WasmHash(env.timelockWasm)));
    RoleLists(tl.proposer, tl.canceller, tl.bypasser);
    hide ValidRoleAddresses, AsSet;
    if id in c.ledger {
      assert c.ledger[id := c.ledger[id]] == c.ledger;
    }
  }

  /** A wrong config under a foreign owner is refused, without a write; nothing
      else is refused for that reason. */
  lemma ForeignOwnerIff(c: Chain, env: Env, mcm: McmInput)
    ensures
      var (c', o) := DeployMCM(c, env, mcm);
      var site := SiteOf(env, mcm.contractType, mcm.qualifier);
      var k := Resolved(c.ledger, site, WasmHash(env.mcmWasm));
      var id := Slot(site, k);
      && (o == Failed(ForeignOwner) <==>
            && Usable(env, env.mcmWasm) && mcm.contractType != "" && k < MAX_DEPLOYMENT_SALT_ATTEMPTS
            && id in c.ledger
            && c.ledger[id].owner.Some? && c.ledger[id].owner != Some(Account(env.signer))
            && c.ledger[id].config != mcm.config)
      && (o == Failed(ForeignOwner) ==> c' == c)
  {}

  /** Repeating a successful call, with any number of writes left, even none,
      writes nothing and returns the same ref. */
  lemma RepeatedDeployMCM(c: Chain, env: Env, mcm: McmInput, budget: nat)
    requires DeployMCM(c, env, mcm).1.Done?
    ensures
      var (c', o) := DeployMCM(c, env, mcm);
      DeployMCM(Chain(c'.ledger, budget), env, mcm) == (Chain(c'.ledger, budget), o)
  {
    var c' := DeployMCM(c, env, mcm).0;
    var site, hash := SiteOf(env, mcm.contractType, mcm.qualifier), WasmHash(env.mcmWasm);
    DeployMCMOutcome(c, env, mcm);
    ResolutionUnderGrowth(c.ledger, c'.ledger, site, hash);
  }

  // ----- the code, step by step

  method ValidateTimelockRoleAddresses(addresses: seq<Address>) returns (ok: bool)
    ensures ok <==> ValidRoleAddresses(addresses)
  {
    if |addresses| == 0 {
      return false;
    }
    var seen: set<Address> := {};
    for i := 0 to |addresses|
      invariant seen == AsSet(addresses[..i])
      invariant NoAddress !in addresses[..i]
      invariant forall j, k :: 0 <= j < k < i ==> addresses[j] != addresses[k]
    {
      if addresses[i] == NoAddress {
        return false;
      }
      if addresses[i] in seen {
        return false;
      }
      seen := seen + {addresses[i]};
    }
    return true;
  }

  /** `clash` names the earlier and the later role of the first clash. */
  method ValidateDistinctMCMs(proposer: AddressRef, canceller: AddressRef, bypasser: AddressRef)
    returns (clash: Option<(string, string)>)
    ensures clash.None? <==> Distinct(proposer.address, canceller.address, bypasser.address)
    ensures clash.Some? ==>
      clash.value == if proposer.address == canceller.address then ("proposer", "canceller")
                     else if proposer.address == bypasser.address then ("proposer", "bypasser")
                     else ("canceller", "bypasser")
  {
    var refs := [("proposer", proposer.address), ("canceller", canceller.address), ("bypasser", bypasser.address)];
    var seen: map<Address, string> := map[];
    for i := 0 to |refs|
      invariant seen.Keys == set j | 0 <= j < i :: refs[j].1
      invariant forall j :: 0 <= j < i ==> seen[refs[j].1] == refs[j].0
      invariant forall j, k :: 0 <= j < k < i ==> refs[j].1 != refs[k].1
    {
      if refs[i].1 in seen {
        assert refs[0] == ("proposer", proposer.address) && refs[1] == ("canceller", canceller.address)
          && refs[2] == ("bypasser", bypasser.address);
        assert exists j :: 0 <= j < i && refs[j].1 == refs[i].1;
        return Some((seen[refs[i].1], refs[i].0));
      }
      seen := seen[refs[i].1 := refs[i].0];
    }
    assert refs[0].1 != refs[1].1 && refs[0].1 != refs[2].1 && refs[1].1 != refs[2].1;
    return None;
  }

  /** The chain and report store a run works on, updated in place. */
  class Session {
    const env: Env
    var ledger: Ledger
    var budget: nat
    var reports: map<OpInput, AddressRef>

    constructor (env: Env, ledger: Ledger, budget: nat, reports: map<OpInput, AddressRef>)
      ensures this.env == env && State() == World(Chain(ledger, budget), reports)
    {
      this.env := env;
      this.ledger, this.budget, this.reports := ledger, budget, reports;
    }

    function OnChain(): Chain
      reads this
    {
      Chain(ledger, budget)
    }

    function State(): World
      reads this
    {
      World(OnChain(), reports)
    }

    method Send(id: Address, instance: Instance) returns (ok: bool)
      modifies this`ledger, this`budget
      ensures (OnChain(), ok) == Write(old(OnChain()), id, instance)
    {
      if budget == 0 {
        return false;
      }
      ledger, budget := ledger[id := instance], budget - 1;
      return true;
    }

    method DeployStellarMCM(mcm: McmInput) returns (r: Outcome<AddressRef>)
      modifies this`ledger, this`budget
      ensures (OnChain(), r) == DeployMCM(old(OnChain()), env, mcm)
    {
      var identity := ResolveDeploymentIdentity(Some(Reader(ledger, {})), env.network, env.signer, true,
                                                mcm.contractType, mcm.qualifier, env.mcmWasm);
      if identity.Failure? {
        ExhaustedMeansMaximum(ledger, SiteOf(env, mcm.contractType, mcm.qualifier), WasmHash(env.mcmWasm));
        return Failed(Unresolved);
      }
      var contractID := identity.value.contractID;
      if !identity.value.existing {
        var sent := Send(contractID, Deployed(env.mcmWasm));
        if !sent {
          return Killed;
        }
      }
      var owner := ledger[contractID].owner;
      if owner.None? {
        if !SupportedType(mcm.contractType) {
          return Failed(UnsupportedType);
        }
        if !mcm.config.valid {
          return Failed(InvalidConfig);
        }
        var sent := Send(contractID, ledger[contractID].(owner := Some(Account(env.signer)), config := mcm.config));
        if !sent {
          return Killed;
        }
      } else {
        var currentConfig := ledger[contractID].config;
        if mcm.config != currentConfig {
          if owner.value != Account(env.signer) {
            return Failed(ForeignOwner);
          }
          if !mcm.config.valid {
            return Failed(InvalidConfig);
          }
          var sent := Send(contractID, ledger[contractID].(config := mcm.config, root := 0));
          if !sent {
            return Killed;
          }
        }
      }
      return Done(NewAddressRef(mcm.contractType, contractID, mcm.qualifier, mcm.lbl));
    }

    method DeployStellarTimelock(tl: TimelockInput) returns (r: Outcome<AddressRef>)
      modifies this`ledger, this`budget
      ensures (OnChain(), r) == DeployTimelock(old(OnChain()), env, tl)
    {
      var identity := ResolveDeploymentIdentity(Some(Reader(ledger, {})), env.network, env.signer, true,
                                                TIMELOCK, tl.qualifier, env.timelockWasm);
      if identity.Failure? {
        ExhaustedMeansMaximum(ledger, SiteOf(env, TIMELOCK, tl.qualifier), WasmHash(env.timelockWasm));
        return Failed(Unresolved);
      }
      var contractID := identity.value.contractID;
      if !identity.value.existing {
        var sent := Send(contractID, Deployed(env.timelockWasm));
        if !sent {
          return Killed;
        }
      }
      var initialized := false;
      if identity.value.existing {
        initialized := ledger[contractID].roles.Some?;
      }
      if !initialized {
        var proposers, cancellers, bypassers := [tl.proposer], [tl.proposer, tl.canceller, tl.bypasser], [tl.bypasser];
        var okP := ValidateTimelockRoleAddresses(proposers);
        var okC := ValidateTimelockRoleAddresses(cancellers);
        var okB := ValidateTimelockRoleAddresses(bypassers);
        if !okP || !okC || !okB {
          return Failed(InvalidRoles);
        }
        var roles := Roles(tl.minDelay, AsSet(proposers), AsSet(cancellers), AsSet(bypassers));
        var sent := Send(contractID, ledger[contractID].(roles := Some(roles)));
        if !sent {
          return Killed;
        }
      }
      return Done(NewAddressRef(TIMELOCK, contractID, tl.qualifier, tl.lbl));
    }

    method ExecuteOperation(op: OpInput) returns (r: Outcome<AddressRef>)
      modifies this
      ensures (State(), r) == Execute(old(State()), env, op)
    {
      if op in reports {
        return Done(reports[op]);
      }
      match op {
        case OpMCM(mcm) => r := DeployStellarMCM(mcm);
        case OpTimelock(tl) => r := DeployStellarTimelock(tl);
      }
      if r.Done? {
        reports := reports[op := r.value];
      }
    }

    method EnsureRef(ds: DataStore, contractType: string, qualifier: string, op: OpInput) returns (r: Outcome<FoundRef>)
      modifies this
      ensures (State(), r) == Ensure(old(State()), env, ds, contractType, qualifier, op)
    {
      if (contractType, qualifier) in ds {
        return Done((ds[(contractType, qualifier)], false));
      }
      var report := ExecuteOperation(op);
      match report {
        case Done(ref) => return Done((ref, true));
        case Failed(e) => return Failed(e);
        case Killed => return Killed;
      }
    }

    method EnsureThreeMCMs(ds: DataStore, input: Input) returns (r: Outcome<(FoundRef, FoundRef, FoundRef)>)
      modifies this
      ensures (State(), r) == EnsureMCMs(old(State()), env, ds, input)
    {
      var p := EnsureRef(ds, PROPOSER, input.qualifier, MCMOp(input, PROPOSER, input.proposer));
      if !p.Done? {
        return if p.Failed? then Failed(p.error) else Killed;
      }
      var c := EnsureRef(ds, CANCELLER, input.qualifier, MCMOp(input, CANCELLER, input.canceller));
      if !c.Done? {
        return if c.Failed? then Failed(c.error) else Killed;
      }
      var b := EnsureRef(ds, BYPASSER, input.qualifier, MCMOp(input, BYPASSER, input.bypasser));
      if !b.Done? {
        return if b.Failed? then Failed(b.error) else Killed;
      }
      return Done((p.value, c.value, b.value));
    }

    method DeployMCMSWithTimelock(ds: DataStore, input: Input) returns (r: Outcome<seq<AddressRef>>)
      modifies this
      ensures (State(), r) == Run(old(State()), env, ds, input)
    {
      var mcms := EnsureThreeMCMs(ds, input);
      if !mcms.Done? {
        return if mcms.Failed? then Failed(mcms.error) else Killed;
      }
      var (p, c, b) := mcms.value;
      var out := New(p);
      out := out + New(c);
      out := out + New(b);
      var clash := ValidateDistinctMCMs(p.0, c.0, b.0);
      if clash.Some? {
        return Failed(SameContract);
      }
      var t := EnsureRef(ds, TIMELOCK, input.qualifier, TimelockOp(input, p.0.address, c.0.address, b.0.address));
      if !t.Done? {
        return if t.Failed? then Failed(t.error) else Killed;
      }
      out := out + New(t.value);
      return Done(out);
    }
  }

  lemma ExhaustedMeansMaximum(ledger: Ledger, site: Site, hash: WasmHash)
    ensures Resolved(ledger, site, hash) == MAX_DEPLOYMENT_SALT_ATTEMPTS
       <==> forall a: nat :: a < MAX_DEPLOYMENT_SALT_ATTEMPTS ==> ReadsForeign(Reader(ledger, {}), site, hash, a)
  {
    assert forall a: nat :: ReadsForeign(Reader(ledger, {}), site, hash, a) <==> Foreign(ledger, Slot(site, a), hash);
  }
}
