/** EVM deployment of the fixed topology: bypasser, canceller and proposer
    multisigs, a timelock, a call proxy, and the timelock's role grants. It starts
    from whatever subset of the five the datastore already has. */
module EvmDeploy {
  import opened Wrappers
  import opened Evm
  import opened RoleTables

  datatype Kind = BypasserMcm | CancellerMcm | ProposerMcm | Timelock | CallProxy

  /** The order in which missing contracts are deployed. */
  const KINDS := [BypasserMcm, CancellerMcm, ProposerMcm, Timelock, CallProxy]

  const VERSION := "1.0.0"

  datatype Config = Config(id: nat)

  datatype AddressRef = AddressRef(selector: nat, kind: Kind, address: Address, version: string, qualifier: string,
                                   labels: set<string>)

  type DataStore = seq<AddressRef>

  datatype Mcm = Mcm(owner: Address, config: Option<Config>)

  /** The contracts of one chain. New contracts take the addresses from `next` on. */
  datatype Chain = Chain(
    mcms: map<Address, Mcm>,
    timelocks: map<Address, Tables>,
    proxies: map<Address, Address>,
    next: Address)

  datatype Input = Input(selector: nat, deployer: Address, qualifier: string, lbl: string, minDelay: nat,
                         proposer: Config, canceller: Config, bypasser: Config)

  type Grants = seq<(Role, seq<Address>)>

  /** Memoised operations and sequences. On one chain their idempotency keys add
      the contract they target, which is part of the input here. */
  datatype OpInput =
    | DeployMcmOp(kind: Kind, qualifier: string)
    | SetConfigOp(target: Address, config: Config)
    | DeployTimelockOp(qualifier: string, minDelay: nat, admin: Address, proposers: seq<Address>,
      cancellers: seq<Address>, bypassers: seq<Address>)
    | DeployProxyOp(qualifier: string, target: Address)
    | GrantOp(timelock: Address, role: Role, account: Address)
    | McmWithConfigSeq(kind: Kind, config: Config, qualifier: string)
    | GrantRolesSeq(timelock: Address, grants: Grants)

  /** A report holds the deployed address where there is one, else zero; `sent` lists
      the operations whose transactions the deployer has sent. */
  datatype World = World(chain: Chain, reports: map<OpInput, Address>, sent: seq<OpInput>)

  datatype Error = AmbiguousRef | SetConfigRejected | UnreadableTimelock

  // ----- loading

  predicate Matches(ref: AddressRef, selector: nat, kind: Kind, qualifier: string) {
    ref.selector == selector && ref.kind == kind && ref.version == VERSION && ref.qualifier == qualifier
  }

  function Filter(ds: DataStore, selector: nat, kind: Kind, qualifier: string): seq<AddressRef> {
    if ds == [] then []
    else Filter(ds[..|ds| - 1], selector, kind, qualifier) + if Matches(ds[|ds| - 1], selector, kind, qualifier)
      then [ds[|ds| - 1]] else []
  }

  /** None, one, or an error for several; a zero address reads as not deployed. */
  function FindDeployedAddress(ds: DataStore, selector: nat, kind: Kind, qualifier: string)
    : Result<Option<Address>, Error>
  {
    var refs := Filter(ds, selector, kind, qualifier);
    if |refs| == 0 then Success(None)
    else if |refs| == 1 then Success(Some(refs[0].address))
    else Failure(AmbiguousRef)
  }

  /** Addresses by kind; zero where there is none yet. */
  type Addresses = map<Kind, Address>

  predicate Unambiguous(ds: DataStore, input: Input) {
    forall kind: Kind :: |Filter(ds, input.selector, kind, input.qualifier)| <= 1
  }

  function Known(ds: DataStore, input: Input, kind: Kind): Address {
    var refs := Filter(ds, input.selector, kind, input.qualifier);
    if |refs| == 1 then refs[0].address else 0
  }

  function Existing(ds: DataStore, input: Input): Addresses {
    map kind: Kind :: Known(ds, input, kind)
  }

  const NOTHING: Addresses := map[BypasserMcm := 0, CancellerMcm := 0, ProposerMcm := 0, Timelock := 0, CallProxy := 0]

  lemma AllKinds()
    ensures forall kind: Kind :: kind in KINDS && kind in NOTHING
  {
    forall kind: Kind
      ensures kind in KINDS && kind in NOTHING
    {
      assert kind.BypasserMcm? || kind.CancellerMcm? || kind.ProposerMcm? || kind.Timelock? || kind.CallProxy?;
      assert KINDS[0] == BypasserMcm && KINDS[1] == CancellerMcm && KINDS[2] == ProposerMcm && KINDS[3] == Timelock
        && KINDS[4] == CallProxy;
    }
  }

  lemma KnownIsFound(ds: DataStore, input: Input, kind: Kind)
    ensures
      match FindDeployedAddress(ds, input.selector, kind, input.qualifier)
      case Failure(_) => |Filter(ds, input.selector, kind, input.qualifier)| > 1
      case Success(found) => Known(ds, input, kind) == if found.Some? then found.value else 0
  {}

  method LoadDeployedAddresses(ds: DataStore, input: Input) returns (r: Result<Addresses, Error>)
    ensures r == if Unambiguous(ds, input) then Success(Existing(ds, input)) else Failure(AmbiguousRef)
  {
    hide Known, Filter;
    AllKinds();
    var addrs := NOTHING;
    for i := 0 to |KINDS|
      invariant forall kind: Kind :: kind in addrs
      invariant forall j :: 0 <= j < i ==> |Filter(ds, input.selector, KINDS[j], input.qualifier)| <= 1
      invariant forall kind: Kind :: addrs[kind] == if kind in KINDS[..i] then Known(ds, input, kind) else 0
    {
      assert KINDS[..i + 1] == KINDS[..i] + [KINDS[i]];
      var found := FindDeployedAddress(ds, input.selector, KINDS[i], input.qualifier);
      if found.Failure? {
        return Failure(found.error);
      }
      KnownIsFound(ds, input, KINDS[i]);
      if found.value.Some? {
        addrs := addrs[KINDS[i] := found.value.value];
      }
    }
    assert KINDS[..|KINDS|] == KINDS;
    assert forall kind: Kind :: kind in KINDS ==> |Filter(ds, input.selector, kind, input.qualifier)| <= 1;
    assert addrs == Existing(ds, input);
    return Success(addrs);
  }

  // ----- operations

  /** The deployer owns what it deploys. */
  function DeployMcm(w: World, deployer: Address, kind: Kind, qualifier: string): (World, Address) {
    var op := DeployMcmOp(kind, qualifier);
    if op in w.reports then (w, w.reports[op])
    else
      var c, a := w.chain, w.chain.next;
      var mcms := c.mcms[a := Mcm(deployer, None)];
      (World(c.(mcms := mcms, next := a + 1), w.reports[op := a], w.sent + [op]), a)
  }

  predicate OwnedBy(c: Chain, a: Address, owner: Address) {
    a in c.mcms && c.mcms[a].owner == owner
  }

  /** Only the owner's transaction goes through; another's fails and leaves no report. */
  function SetConfig(w: World, deployer: Address, target: Address, config: Config): Option<World> {
    var op := SetConfigOp(target, config);
    if op in w.reports then Some(w)
    else if !OwnedBy(w.chain, target, deployer) then None
    else
      var mcms := w.chain.mcms[target := Mcm(deployer, Some(config))];
      Some(World(w.chain.(mcms := mcms), w.reports[op := 0], w.sent + [op]))
  }

  /** seqDeployMCMWithConfig, memoised as a sequence; no address when it fails. */
  function DeployMcmWithConfig(w: World, deployer: Address, kind: Kind, config: Config, qualifier: string)
    : (World, Option<Address>)
  {
    var op := McmWithConfigSeq(kind, config, qualifier);
    if op in w.reports then (w, Some(w.reports[op]))
    else
      var (w1, a) := DeployMcm(w, deployer, kind, qualifier);
      match SetConfig(w1, deployer, a, config)
      case None => (w1, None)
      case Some(w2) => (w2.(reports := w2.reports[op := a]), Some(a))
  }

  function TimelockOp(input: Input, proposer: Address, canceller: Address, bypasser: Address): OpInput {
    var cancellers := [canceller, proposer, bypasser];
    DeployTimelockOp(input.qualifier, input.minDelay, input.deployer, [proposer], cancellers, [bypasser])
  }

  /** The tables its constructor gives a timelock: no executor, the deployer as admin. */
  function NewTables(deployer: Address, proposer: Address, canceller: Address, bypasser: Address): Tables {
    Tables({proposer}, {canceller, proposer, bypasser}, {bypasser}, {}, {deployer})
  }

  function DeployTimelock(w: World, input: Input, proposer: Address, canceller: Address, bypasser: Address)
    : (World, Address)
  {
    var op := TimelockOp(input, proposer, canceller, bypasser);
    if op in w.reports then (w, w.reports[op])
    else
      var c, a := w.chain, w.chain.next;
      var timelocks := c.timelocks[a := NewTables(input.deployer, proposer, canceller, bypasser)];
      (World(c.(timelocks := timelocks, next := a + 1), w.reports[op := a], w.sent + [op]), a)
  }

  function DeployCallProxy(w: World, qualifier: string, timelock: Address): (World, Address) {
    var op := DeployProxyOp(qualifier, timelock);
    if op in w.reports then (w, w.reports[op])
    else
      var c, a := w.chain, w.chain.next;
      (World(c.(proxies := c.proxies[a := timelock], next := a + 1), w.reports[op := a], w.sent + [op]), a)
  }

  /** One grant: the write is sent when the deployer may grant, else it stays unsent. */
  function Grant(w: World, deployer: Address, timelock: Address, role: Role, account: Address): World {
    var op := GrantOp(timelock, role, account);
    if op in w.reports || timelock !in w.chain.timelocks then w
    else if deployer !in w.chain.timelocks[timelock].admins then w.(reports := w.reports[op := 0])
    else
      World(w.chain.(timelocks := w.chain.timelocks[timelock := w.chain.timelocks[timelock].Grant(role, account)]),
        w.reports[op := 0], w.sent + [op])
  }

  function GrantEach(w: World, deployer: Address, timelock: Address, role: Role, existing: set<Address>,
                     accounts: seq<Address>): World {
    if accounts == [] then w
    else
      var w1, a :=
        GrantEach(w, deployer, timelock, role, existing, accounts[..|accounts| - 1]), accounts[|accounts| - 1];
      if a in existing then w1 else Grant(w1, deployer, timelock, role, a)
  }

  /** The members the inspector reports; admins are not asked for. */
  function Inspect(chain: Chain, timelock: Address, role: Role): set<Address> {
    if role == Admin || timelock !in chain.timelocks then {} else chain.timelocks[timelock].Get(role)
  }

  function GrantAll(w: World, deployer: Address, timelock: Address, grants: Grants): World {
    if grants == [] then w
    else
      var w1, g := GrantAll(w, deployer, timelock, grants[..|grants| - 1]), grants[|grants| - 1];
      GrantEach(w1, deployer, timelock, g.0, Inspect(w1.chain, timelock, g.0), g.1)
  }

  /** seqGrantRolesTimelock, memoised as a sequence. */
  function GrantRoles(w: World, deployer: Address, timelock: Address, grants: Grants): World {
    var op := GrantRolesSeq(timelock, grants);
    if op in w.reports then w
    else
      var w1 := GrantAll(w, deployer, timelock, grants);
      w1.(reports := w1.reports[op := 0])
  }

  function RoleGrants(addrs: Addresses, timelockIsAdmin: bool): Grants
    requires forall kind: Kind :: kind in addrs
  {
    [(Proposer, [addrs[ProposerMcm]]),
     (Canceller, [addrs[ProposerMcm], addrs[CancellerMcm], addrs[BypasserMcm]]),
     (Bypasser, [addrs[BypasserMcm]]),
     (Executor, [addrs[CallProxy]])]
    + if timelockIsAdmin then [] else [(Admin, [addrs[Timelock]])]
  }

  /** The state of the deployer object: world, addresses, new refs, and whether a
      configuration was rejected, which ends the deployment. */
  datatype Progress = Progress(world: World, addrs: Addresses, out: seq<AddressRef>, rejected: bool)

  function NewRef(input: Input, kind: Kind, address: Address): AddressRef {
    AddressRef(input.selector, kind, address, VERSION, input.qualifier, if input.lbl != "" then {input.lbl} else {})
  }

  /** Deploying one kind, without looking whether it is there. */
  function DeployKind(w: World, input: Input, addrs: Addresses, kind: Kind): (World, Option<Address>)
    requires forall k: Kind :: k in addrs
  {
    match kind
    case BypasserMcm => DeployMcmWithConfig(w, input.deployer, kind, input.bypasser, input.qualifier)
    case CancellerMcm => DeployMcmWithConfig(w, input.deployer, kind, input.canceller, input.qualifier)
    case ProposerMcm => DeployMcmWithConfig(w, input.deployer, kind, input.proposer, input.qualifier)
    case Timelock =>
      var (w', a) := DeployTimelock(w, input, addrs[ProposerMcm], addrs[CancellerMcm], addrs[BypasserMcm]);
      (w', Some(a))
    case CallProxy =>
      var (w', a) := DeployCallProxy(w, input.qualifier, addrs[Timelock]);
      (w', Some(a))
  }

  function DeployIfNeeded(p: Progress, input: Input, kind: Kind): Progress
    requires forall k: Kind :: k in p.addrs
  {
    if p.rejected || p.addrs[kind] != 0 then p
    else
      match DeployKind(p.world, input, p.addrs, kind)
      case (w, None) => p.(world := w, rejected := true)
      case (w, Some(a)) => Progress(w, p.addrs[kind := a], p.out + [NewRef(input, kind, a)], false)
  }

  /** The first `n` kinds, in order. */
  function DeployMissing(w: World, ds: DataStore, input: Input, n: nat): (p: Progress)
    requires n <= |KINDS|
    ensures forall k: Kind :: k in p.addrs
  {
    if n == 0 then Progress(w, Existing(ds, input), [], false)
    else DeployIfNeeded(DeployMissing(w, ds, input, n - 1), input, KINDS[n - 1])
  }

  function GrantTimelockRoles(w: World, input: Input, addrs: Addresses): Option<World>
    requires forall k: Kind :: k in addrs
  {
    var tl := addrs[Timelock];
    if tl !in w.chain.timelocks then None
    else
      var admins := w.chain.timelocks[tl].admins;
      if input.deployer !in admins then Some(w)
      else Some(GrantRoles(w, input.deployer, tl, RoleGrants(addrs, tl in admins)))
  }

  /** deployMCMSWithTimelock: the new world, and on success the new refs. */
  function Run(w: World, ds: DataStore, input: Input): (World, Result<seq<AddressRef>, Error>) {
    if !Unambiguous(ds, input) then (w, Failure(AmbiguousRef))
    else
      var p := DeployMissing(w, ds, input, |KINDS|);
      if p.rejected then (p.world, Failure(SetConfigRejected)) else
      match GrantTimelockRoles(p.world, input, p.addrs)
      case None => (p.world, Failure(UnreadableTimelock))
      case Some(w') => (w', Success(p.out))
  }

  /** A rejected configuration ends the deployment. */
  lemma {:induction false} RejectedOn(w: World, ds: DataStore, input: Input, n: nat, m: nat)
    requires n <= m <= |KINDS| && DeployMissing(w, ds, input, n).rejected
    ensures DeployMissing(w, ds, input, m) == DeployMissing(w, ds, input, n)
  {
    if n < m {
      RejectedOn(w, ds, input, n, m - 1);
    }
  }

  // ----- the code, step by step

  class Deployer {
    const input: Input
    var chain: Chain
    var reports: map<OpInput, Address>
    var sent: seq<OpInput>
    var out: seq<AddressRef>

    constructor (input: Input, w: World)
      ensures this.input == input && State() == w && out == []
    {
      this.input, this.chain, this.reports, this.sent, this.out := input, w.chain, w.reports, w.sent, [];
    }

    function State(): World
      reads this
    {
      World(chain, reports, sent)
    }

    /** Where the next contract is created. */
    method Allocate() returns (a: Address)
      modifies this`chain
      ensures a == old(chain.next) && chain == old(chain).(next := a + 1)
    {
      a := chain.next;
      chain := chain.(next := a + 1);
    }

    method DeployMcmWithConfigSeq(kind: Kind, config: Config) returns (r: Option<Address>)
      modifies this`chain, this`reports, this`sent
      ensures (State(), r) == DeployMcmWithConfig(old(State()), input.deployer, kind, config, input.qualifier)
    {
      var seqOp, op := McmWithConfigSeq(kind, config, input.qualifier), DeployMcmOp(kind, input.qualifier);
      if seqOp in reports {
        return Some(reports[seqOp]);
      }
      var a;
      if op in reports {
        a := reports[op];
      } else {
        a := Allocate();
        chain := chain.(mcms := chain.mcms[a := Mcm(input.deployer, None)]);
        reports, sent := reports[op := a], sent + [op];
      }
      var setOp := SetConfigOp(a, config);
      if setOp !in reports {
        if !OwnedBy(chain, a, input.deployer) {
          return None;
        }
        chain := chain.(mcms := chain.mcms[a := Mcm(input.deployer, Some(config))]);
        reports, sent := reports[setOp := 0], sent + [setOp];
      }
      reports := reports[seqOp := a];
      return Some(a);
    }

    method DeployMCMIfNeeded(kind: Kind, config: Config, existing: Address) returns (r: Option<Address>)
      modifies this
      ensures
        var (w, b) := DeployMcmWithConfig(old(State()), input.deployer, kind, config, input.qualifier);
        if existing != 0 then r == Some(existing) && State() == old(State()) && out == old(out)
        else (State(), r) == (w, b) && out == old(out) + if r.Some? then [NewRef(input, kind, r.value)] else []
    {
      if existing != 0 {
        return Some(existing);
      }
      r := DeployMcmWithConfigSeq(kind, config);
      if r.Some? {
        out := out + [NewRef(input, kind, r.value)];
      }
    }

    method DeployNewTimelock(addrs: Addresses) returns (a: Address)
      requires forall k: Kind :: k in addrs
      modifies this
      ensures (State(), a) ==
        DeployTimelock(old(State()), input, addrs[ProposerMcm], addrs[CancellerMcm], addrs[BypasserMcm])
      ensures out == old(out) + [NewRef(input, Timelock, a)]
    {
      var proposers, cancellers, bypassers :=
        [addrs[ProposerMcm]], [addrs[CancellerMcm], addrs[ProposerMcm], addrs[BypasserMcm]], [addrs[BypasserMcm]];
      var op := DeployTimelockOp(input.qualifier, input.minDelay, input.deployer, proposers, cancellers, bypassers);
      if op in reports {
        a := reports[op];
      } else {
        a := Allocate();
        var tables :=
          Tables({addrs[ProposerMcm]}, {addrs[CancellerMcm], addrs[ProposerMcm], addrs[BypasserMcm]},
            {addrs[BypasserMcm]}, {}, {input.deployer});
        chain := chain.(timelocks := chain.timelocks[a := tables]);
        reports, sent := reports[op := a], sent + [op];
      }
      out := out + [NewRef(input, Timelock, a)];
    }

    method DeployNewCallProxy(timelock: Address) returns (a: Address)
      modifies this
      ensures (State(), a) == DeployCallProxy(old(State()), input.qualifier, timelock)
      ensures out == old(out) + [NewRef(input, CallProxy, a)]
    {
      var op := DeployProxyOp(input.qualifier, timelock);
      if op in reports {
        a := reports[op];
      } else {
        a := Allocate();
        chain := chain.(proxies := chain.proxies[a := timelock]);
        reports, sent := reports[op := a], sent + [op];
      }
      out := out + [NewRef(input, CallProxy, a)];
    }

    method GrantRole(timelock: Address, role: Role, account: Address)
      modifies this`chain, this`reports, this`sent
      ensures State() == Grant(old(State()), input.deployer, timelock, role, account)
    {
      var op := GrantOp(timelock, role, account);
      if op !in reports && timelock in chain.timelocks {
        if input.deployer in chain.timelocks[timelock].admins {
          chain := chain.(timelocks := chain.timelocks[timelock := chain.timelocks[timelock].Grant(role, account)]);
          sent := sent + [op];
        }
        reports := reports[op := 0];
      }
    }

    method GrantRolesTimelock(timelock: Address, grants: Grants)
      modifies this`chain, this`reports, this`sent
      ensures State() == GrantRoles(old(State()), input.deployer, timelock, grants)
    {
      var op := GrantRolesSeq(timelock, grants);
      if op in reports {
        return;
      }
      ghost var start := State();
      for i := 0 to |grants|
        invariant State() == GrantAll(start, input.deployer, timelock, grants[..i])
      {
        assert grants[..i + 1][..i] == grants[..i] && grants[..i + 1][i] == grants[i];
        var existing, accounts := Inspect(chain, timelock, grants[i].0), grants[i].1;
        ghost var before := State();
        for j := 0 to |accounts|
          invariant State() == GrantEach(before, input.deployer, timelock, grants[i].0, existing, accounts[..j])
        {
          assert accounts[..j + 1][..j] == accounts[..j] && accounts[..j + 1][j] == accounts[j];
          if accounts[j] !in existing {
            GrantRole(timelock, grants[i].0, accounts[j]);
          }
        }
        assert accounts[..|accounts|] == accounts;
      }
      assert grants[..|grants|] == grants;
      reports := reports[op := 0];
    }

    method GrantRolesIfAdmin(addrs: Addresses) returns (ok: bool)
      requires forall k: Kind :: k in addrs
      modifies this`chain, this`reports, this`sent
      ensures (if ok then Some(State()) else None) == GrantTimelockRoles(old(State()), input, addrs)
      ensures !ok ==> State() == old(State())
    {
      var tl := addrs[Timelock];
      if tl !in chain.timelocks {
        return false;
      }
      var admins := chain.timelocks[tl].admins;
      if input.deployer !in admins {
        return true;
      }
      GrantRolesTimelock(tl, RoleGrants(addrs, tl in admins));
      return true;
    }

    /** The three multisigs, those missing deployed in order, up to a rejected one. */
    method DeployMissingMcms(existing: Addresses, ghost ds: DataStore) returns (addrs: Addresses, ok: bool)
      requires existing == Existing(ds, input) && out == []
      modifies this
      ensures Progress(State(), addrs, out, !ok) == DeployMissing(old(State()), ds, input, 3)
    {
      hide DeployMcmWithConfig, DeployTimelock, DeployCallProxy, Known, NewRef, Existing;
      addrs := existing;
      ghost var start := State();
      assert DeployMissing(start, ds, input, 0) == Progress(State(), addrs, out, false);
      var b := DeployMCMIfNeeded(BypasserMcm, input.bypasser, addrs[BypasserMcm]);
      if b.None? {
        RejectedOn(start, ds, input, 1, 3);
        return addrs, false;
      }
      assert addrs[BypasserMcm] != 0 ==> addrs[BypasserMcm := b.value] == addrs;
      addrs := addrs[BypasserMcm := b.value];
      assert DeployMissing(start, ds, input, 1) == Progress(State(), addrs, out, false);
      var c := DeployMCMIfNeeded(CancellerMcm, input.canceller, addrs[CancellerMcm]);
      if c.None? {
        RejectedOn(start, ds, input, 2, 3);
        return addrs, false;
      }
      assert addrs[CancellerMcm] != 0 ==> addrs[CancellerMcm := c.value] == addrs;
      addrs := addrs[CancellerMcm := c.value];
      assert DeployMissing(start, ds, input, 2) == Progress(State(), addrs, out, false);
      var p := DeployMCMIfNeeded(ProposerMcm, input.proposer, addrs[ProposerMcm]);
      if p.None? {
        return addrs, false;
      }
      assert addrs[ProposerMcm] != 0 ==> addrs[ProposerMcm := p.value] == addrs;
      addrs := addrs[ProposerMcm := p.value];
      assert DeployMissing(start, ds, input, 3) == Progress(State(), addrs, out, false);
      return addrs, true;
    }

    /** The five contracts, those missing deployed in order. */
    method DeployMissingContracts(existing: Addresses, ghost ds: DataStore) returns (addrs: Addresses, ok: bool)
      requires existing == Existing(ds, input) && out == []
      modifies this
      ensures Progress(State(), addrs, out, !ok) == DeployMissing(old(State()), ds, input, |KINDS|)
    {
      hide DeployMcmWithConfig, DeployTimelock, DeployCallProxy, Known, NewRef, Existing;
      ghost var start := State();
      addrs, ok := DeployMissingMcms(existing, ds);
      if !ok {
        RejectedOn(start, ds, input, 3, 5);
        return;
      }
      if addrs[Timelock] == 0 {
        var t := DeployNewTimelock(addrs);
        addrs := addrs[Timelock := t];
      }
      assert DeployMissing(start, ds, input, 4) == Progress(State(), addrs, out, false);
      if addrs[CallProxy] == 0 {
        var x := DeployNewCallProxy(addrs[Timelock]);
        addrs := addrs[CallProxy := x];
      }
      assert DeployMissing(start, ds, input, 5) == Progress(State(), addrs, out, false);
    }

    method DeployMCMSWithTimelock(ds: DataStore) returns (r: Result<(), Error>)
      requires out == []
      modifies this
      ensures
        var (w, o) := Run(old(State()), ds, input);
        State() == w
        && (if o.Success? then r.Success? && out == o.value else r == Failure(o.error))
    {
      var loaded := LoadDeployedAddresses(ds, input);
      if loaded.Failure? {
        return Failure(loaded.error);
      }
      var addrs, deployed := DeployMissingContracts(loaded.value, ds);
      if !deployed {
        return Failure(SetConfigRejected);
      }
      var granted := GrantRolesIfAdmin(addrs);
      return if granted then Success(()) else Failure(UnreadableTimelock);
    }
  }
}
