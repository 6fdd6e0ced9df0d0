/** EVM grant-role: granting timelock roles now, or proposing the grants and
    executing them later. */
module EvmGrantRole {
  import opened Wrappers
  import opened Evm
  import opened RoleTables
  import opened Sequences

  // ----- address text

  predicate IsHexDigit(c: char) {
    '0' <= c <= '9' || 'a' <= c <= 'f' || 'A' <= c <= 'F'
  }

  function HexDigit(c: char): nat
    requires IsHexDigit(c)
  {
    if c <= '9' then (c - '0') as nat else if c <= 'F' then 10 + (c - 'A') as nat else 10 + (c - 'a') as nat
  }

  function HexValue(s: string): nat
    requires forall i :: 0 <= i < |s| ==> IsHexDigit(s[i])
  {
    if s == [] then 0 else 16 * HexValue(s[..|s| - 1]) + HexDigit(s[|s| - 1])
  }

  /** The text without an optional 0x. */
  function Digits(raw: string): string {
    if |raw| >= 2 && raw[0] == '0' && raw[1] in {'x', 'X'} then raw[2..] else raw
  }

  predicate IsHexAddress(raw: string) {
    |Digits(raw)| == 40 && forall i :: 0 <= i < 40 ==> IsHexDigit(Digits(raw)[i])
  }

  /** parseEVMAddress: the zero address is refused. */
  function ParseEVMAddress(raw: string): (r: Option<Address>)
    ensures r.Some? ==> r.value != 0
  {
    if !IsHexAddress(raw) || HexValue(Digits(raw)) == 0 then None else Some(HexValue(Digits(raw)))
  }

  function Upper(c: char): char {
    if 'a' <= c <= 'z' then 'A' + (c - 'a') else c
  }

  predicate SameUpToCase(s: string, t: string) {
    |s| == |t| && forall i :: 0 <= i < |s| ==> Upper(s[i]) == Upper(t[i])
  }

  lemma {:induction false} HexValueIgnoresCase(s: string, t: string)
    requires SameUpToCase(s, t)
    requires forall i :: 0 <= i < |s| ==> IsHexDigit(s[i])
    requires forall i :: 0 <= i < |t| ==> IsHexDigit(t[i])
    ensures HexValue(s) == HexValue(t)
  {
    if s != [] {
      HexValueIgnoresCase(s[..|s| - 1], t[..|t| - 1]);
      assert Upper(s[|s| - 1]) == Upper(t[|t| - 1]);
    }
  }

  lemma ParseIgnoresCase(raw: string, raw': string)
    requires SameUpToCase(raw, raw')
    ensures ParseEVMAddress(raw) == ParseEVMAddress(raw')
  {
    assert Upper('x') == 'X';
    assert SameUpToCase(Digits(raw), Digits(raw')) by {
      if |raw| >= 2 {
        assert Upper(raw[0]) == Upper(raw'[0]) && Upper(raw[1]) == Upper(raw'[1]);
      }
    }
    var s, t := Digits(raw), Digits(raw');
    assert forall i :: 0 <= i < |s| ==> Upper(s[i]) == Upper(t[i]) && (IsHexDigit(s[i]) <==> IsHexDigit(t[i]));
    if IsHexAddress(raw) {
      HexValueIgnoresCase(s, t);
    }
  }

  // ----- the requests

  datatype Error = UnsupportedRole | InvalidAddress | NotAdmin

  datatype RoleGrant = RoleGrant(role: Role, addresses: seq<string>)

  /** The members the sequence sees: the admin table is never queried. */
  function AddressesForRole(tables: Tables, role: Role): Result<set<Address>, Error> {
    match role
    case Admin => Success({})
    case Unsupported => Failure(UnsupportedRole)
    case _ => Success(tables.Get(role))
  }

  /** lo.Difference, left part: order and repeats are kept. */
  function Difference(list: seq<Address>, existing: set<Address>): seq<Address> {
    if list == [] then []
    else
      var rest, a := list[..|list| - 1], list[|list| - 1];
      Difference(rest, existing) + if a in existing then [] else [a]
  }

  lemma {:induction false} DifferenceMembers(list: seq<Address>, existing: set<Address>)
    ensures forall a :: a in Difference(list, existing) <==> a in list && a !in existing
  {
    if list != [] {
      assert list == list[..|list| - 1] + [list[|list| - 1]];
      DifferenceMembers(list[..|list| - 1], existing);
    }
  }

  predicate Parses(addresses: seq<string>) {
    forall i :: 0 <= i < |addresses| ==> ParseEVMAddress(addresses[i]).Some?
  }

  function Parsed(addresses: seq<string>): seq<Address>
    requires Parses(addresses)
  {
    seq(|addresses|, i requires 0 <= i < |addresses| => ParseEVMAddress(addresses[i]).value)
  }

  /** The grantees that do not hold the role, in request order. */
  function Needed(tables: Tables, grant: RoleGrant): Result<seq<Address>, Error> {
    var existing := AddressesForRole(tables, grant.role);
    if existing.Failure? then Failure(existing.error)
    else if !Parses(grant.addresses) then Failure(InvalidAddress)
    else Success(Difference(Parsed(grant.addresses), existing.value))
  }

  method AddressesNeedingGrant(tables: Tables, grant: RoleGrant) returns (r: Result<seq<Address>, Error>)
    ensures r == Needed(tables, grant)
  {
    var existing := AddressesForRole(tables, grant.role);
    if existing.Failure? {
      return Failure(existing.error);
    }
    var grantees: seq<Address> := [];
    for i := 0 to |grant.addresses|
      invariant |grantees| == i
      invariant forall j :: 0 <= j < i ==> ParseEVMAddress(grant.addresses[j]) == Some(grantees[j])
    {
      var grantee := ParseEVMAddress(grant.addresses[i]);
      if grantee.None? {
        return Failure(InvalidAddress);
      }
      grantees := grantees + [grantee.value];
    }
    assert grantees == Parsed(grant.addresses);
    return Success(Difference(grantees, existing.value));
  }

  // ----- the sequence

  /** A grantRole call on the timelock of this run. */
  datatype Call = GrantCall(role: Role, account: Address)

  /** Reports are keyed by chain, timelock, role and grantee, and by the mode. */
  datatype OpInput = OpInput(call: Call, noSend: bool)

  /** `sent` lists the transactions the deployer has sent. */
  datatype World = World(tables: Tables, reports: set<OpInput>, sent: seq<Call>)

  function GrantOne(w: World, deployer: Address, useMCMS: bool, call: Call): (World, Result<seq<Call>, Error>) {
    var op := OpInput(call, useMCMS);
    if useMCMS then (w.(reports := w.reports + {op}), Success([call]))
    else if op in w.reports then (w, Success([]))
    else if deployer !in w.tables.admins then (w, Failure(NotAdmin))
    else (World(w.tables.Grant(call.role, call.account), w.reports + {op}, w.sent + [call]), Success([]))
  }

  function GrantEach(w: World, deployer: Address, useMCMS: bool, role: Role, grantees: seq<Address>)
    : (World, Result<seq<Call>, Error>)
  {
    if grantees == [] then (w, Success([])) else
    match GrantEach(w, deployer, useMCMS, role, grantees[..|grantees| - 1])
    case (w1, Failure(e)) => (w1, Failure(e))
    case (w1, Success(writes)) =>
      match GrantOne(w1, deployer, useMCMS, GrantCall(role, grantees[|grantees| - 1]))
      case (w2, Failure(e)) => (w2, Failure(e))
      case (w2, Success(more)) => (w2, Success(writes + more))
  }

  /** runEVMGrantRole: the batch transactions, empty in direct mode. */
  function Run(w: World, deployer: Address, useMCMS: bool, grants: seq<RoleGrant>): (World, Result<seq<Call>, Error>) {
    if grants == [] then (w, Success([])) else
    match Run(w, deployer, useMCMS, grants[..|grants| - 1])
    case (w1, Failure(e)) => (w1, Failure(e))
    case (w1, Success(writes)) =>
      var grant := grants[|grants| - 1];
      match Needed(w1.tables, grant)
      case Failure(e) => (w1, Failure(e))
      case Success(needed) =>
        match GrantEach(w1, deployer, useMCMS, grant.role, needed)
        case (w2, Failure(e)) => (w2, Failure(e))
        case (w2, Success(more)) => (w2, Success(writes + more))
  }

  /** The timelock executes a batch of grants on itself, all or nothing. */
  function ExecuteGrants(tables: Tables, caller: Address, calls: seq<Call>): Option<Tables> {
    if calls == [] then Some(tables) else
    match ExecuteGrants(tables, caller, calls[..|calls| - 1])
    case None => None
    case Some(t) => if caller in t.admins then Some(t.Grant(calls[|calls| - 1].role, calls[|calls| - 1].account))
      else None
  }

  class Session {
    const deployer: Address
    var tables: Tables
    var reports: set<OpInput>
    var sent: seq<Call>

    constructor (deployer: Address, w: World)
      ensures this.deployer == deployer && State() == w
    {
      this.deployer, this.tables, this.reports, this.sent := deployer, w.tables, w.reports, w.sent;
    }

    function State(): World
      reads this
    {
      World(tables, reports, sent)
    }

    method GrantRole(useMCMS: bool, call: Call) returns (r: Result<seq<Call>, Error>)
      modifies this
      ensures (State(), r) == GrantOne(old(State()), deployer, useMCMS, call)
    {
      if OpInput(call, useMCMS) !in reports {
        if !useMCMS {
          if deployer !in tables.admins {
            return Failure(NotAdmin);
          }
          tables := tables.Grant(call.role, call.account);
          sent := sent + [call];
        }
        reports := reports + {OpInput(call, useMCMS)};
      }
      assert useMCMS && OpInput(call, useMCMS) in old(reports) ==>
        old(reports) + {OpInput(call, useMCMS)} == old(reports);
      return Success(if useMCMS then [call] else []);
    }

    /** The grants of one role, one after the other. */
    method GrantGrantees(useMCMS: bool, role: Role, grantees: seq<Address>) returns (r: Result<seq<Call>, Error>)
      modifies this
      ensures (State(), r) == GrantEach(old(State()), deployer, useMCMS, role, grantees)
    {
      var writes: seq<Call> := [];
      ghost var start := State();
      for i := 0 to |grantees|
        invariant (State(), Success(writes)) == GrantEach(start, deployer, useMCMS, role, grantees[..i])
      {
        assert grantees[..i + 1][..i] == grantees[..i];
        var report := GrantRole(useMCMS, GrantCall(role, grantees[i]));
        if report.Failure? {
          FailureStopsEach(start, deployer, useMCMS, role, grantees, i + 1);
          return Failure(report.error);
        }
        writes := writes + report.value;
      }
      assert grantees[..|grantees|] == grantees;
      return Success(writes);
    }

    method RunEVMGrantRole(useMCMS: bool, grants: seq<RoleGrant>) returns (r: Result<seq<Call>, Error>)
      modifies this
      ensures (State(), r) == Run(old(State()), deployer, useMCMS, grants)
    {
      hide GrantEach, Needed;
      var writes: seq<Call> := [];
      ghost var start := State();
      for i := 0 to |grants|
        invariant (State(), Success(writes)) == Run(start, deployer, useMCMS, grants[..i])
      {
        assert grants[..i + 1][..i] == grants[..i] && grants[..i + 1][i] == grants[i];
        var grantees := AddressesNeedingGrant(tables, grants[i]);
        if grantees.Failure? {
          FailureStops(start, deployer, useMCMS, grants, i + 1);
          return Failure(grantees.error);
        }
        var granted := GrantGrantees(useMCMS, grants[i].role, grantees.value);
        if granted.Failure? {
          FailureStops(start, deployer, useMCMS, grants, i + 1);
          return Failure(granted.error);
        }
        writes := writes + granted.value;
      }
      assert grants[..|grants|] == grants;
      return Success(writes);
    }
  }

  lemma {:induction false} FailureStops(w: World, deployer: Address, useMCMS: bool, grants: seq<RoleGrant>, n: nat)
    requires n <= |grants|
    requires Run(w, deployer, useMCMS, grants[..n]).1.Failure?
    ensures Run(w, deployer, useMCMS, grants) == Run(w, deployer, useMCMS, grants[..n])
    decreases |grants|
  {
    if n < |grants| {
      assert grants[..|grants| - 1][..n] == grants[..n];
      FailureStops(w, deployer, useMCMS, grants[..|grants| - 1], n);
    } else {
      assert grants[..n] == grants;
    }
  }

  lemma {:induction false} FailureStopsEach(w: World, deployer: Address, useMCMS: bool, role: Role,
                                            grantees: seq<Address>, n: nat)
    requires n <= |grantees|
    requires GrantEach(w, deployer, useMCMS, role, grantees[..n]).1.Failure?
    ensures GrantEach(w, deployer, useMCMS, role, grantees) == GrantEach(w, deployer, useMCMS, role, grantees[..n])
    decreases |grantees|
  {
    if n < |grantees| {
      assert grantees[..|grantees| - 1][..n] == grantees[..n];
      FailureStopsEach(w, deployer, useMCMS, role, grantees[..|grantees| - 1], n);
    } else {
      assert grantees[..n] == grantees;
    }
  }

  // ----- what the two modes achieve

  predicate Accepted(grants: seq<RoleGrant>) {
    forall g :: g in grants ==> g.role != Unsupported && Parses(g.addresses)
  }

  /** The accounts requested for a role, over all grants. */
  function Requested(grants: seq<RoleGrant>, role: Role): set<Address>
    requires Accepted(grants)
  {
    if grants == [] then {}
    else
      var rest, g := grants[..|grants| - 1], grants[|grants| - 1];
      assert grants == rest + [g];
      Requested(rest, role) + if g.role == role then (set a | a in Parsed(g.addresses)) else {}
  }

  function With(tables: Tables, grants: seq<RoleGrant>): Tables
    requires Accepted(grants)
  {
    Tables(tables.proposers + Requested(grants, Proposer), tables.cancellers + Requested(grants, Canceller),
           tables.bypassers + Requested(grants, Bypasser), tables.executors + Requested(grants, Executor),
           tables.admins + Requested(grants, Admin))
  }

  predicate Reported(reports: set<OpInput>, role: Role, a: Address) {
    OpInput(GrantCall(role, a), false) in reports
  }

  /** What a direct run of one grant list adds. */
  ghost predicate DirectStep(w: World, w': World, role: Role, grantees: seq<Address>) {
    && (forall r: Role :: w'.tables.Get(r) ==
          if r == role then w.tables.Get(r) + (set a | a in grantees && !Reported(w.reports, role, a))
            else w.tables.Get(r))
    && (forall r: Role, a :: Reported(w'.reports, r, a) <==> Reported(w.reports, r, a) || (r == role && a in grantees))
    && w.sent <= w'.sent
    && (forall call :: call in w'.sent[|w.sent|..] <==>
          call.role == role && call.account in grantees && !Reported(w.reports, role, call.account))
  }

  lemma {:induction false} DirectEach(w: World, deployer: Address, role: Role, grantees: seq<Address>)
    requires deployer in w.tables.admins && role != Unsupported
    ensures
      var (w', r) := GrantEach(w, deployer, false, role, grantees);
      r == Success([]) && DirectStep(w, w', role, grantees)
  {
    if grantees == [] {
      assert w.sent[|w.sent|..] == [];
    } else {
      var rest, a := grantees[..|grantees| - 1], grantees[|grantees| - 1];
      assert grantees == rest + [a];
      DirectEach(w, deployer, role, rest);
      var w1 := GrantEach(w, deployer, false, role, rest).0;
      assert deployer in w1.tables.Get(Admin);
      DirectOne(w, w1, deployer, role, rest, a);
      var none: seq<Call> := [];
      assert none + none == none;
    }
  }

  lemma DirectOne(w: World, w1: World, deployer: Address, role: Role, rest: seq<Address>, a: Address)
    requires deployer in w1.tables.admins && role != Unsupported
    requires DirectStep(w, w1, role, rest)
    ensures
      var (w2, r2) := GrantOne(w1, deployer, false, GrantCall(role, a));
      r2 == Success([]) && DirectStep(w, w2, role, rest + [a])
  {
    var w2 := GrantOne(w1, deployer, false, GrantCall(role, a)).0;
    if Reported(w1.reports, role, a) {
      assert w2 == w1;
    } else {
      assert w2.sent[|w.sent|..] == w1.sent[|w.sent|..] + [GrantCall(role, a)];
    }
    forall r: Role, b
      ensures Reported(w2.reports, r, b) <==> Reported(w1.reports, r, b) || (r == role && b == a)
    {}
    forall r: Role
      ensures w2.tables.Get(r) ==
        if r == role then w.tables.Get(r) + (set b | b in rest + [a] && !Reported(w.reports, role, b))
          else w.tables.Get(r)
    {}
  }

  /** A direct run adds exactly the requested accounts without an old report, and
      sends a call only for a requested account that is an admin or not yet a member. */
  ghost predicate DirectOutcome(w: World, w': World, grants: seq<RoleGrant>)
    requires Accepted(grants)
  {
    && (forall r: Role ::
          w'.tables.Get(r) == w.tables.Get(r) + (set a | a in Requested(grants, r) && !Reported(w.reports, r, a)))
    && (forall r: Role, a :: Reported(w'.reports, r, a) ==> Reported(w.reports, r, a) || a in w'.tables.Get(r))
    && (forall r: Role, a :: Reported(w.reports, r, a) ==> Reported(w'.reports, r, a))
    && w.sent <= w'.sent
    && (forall call :: call in w'.sent[|w.sent|..] ==>
          call.account in Requested(grants, call.role)
            && (call.role == Admin || call.account !in w.tables.Get(call.role)))
  }

  lemma NothingGranted(w: World, deployer: Address)
    ensures Run(w, deployer, false, []) == (w, Success([])) && DirectOutcome(w, w, [])
  {
    assert w.sent[|w.sent|..] == [];
  }

  lemma StaysAdmin(w: World, w1: World, deployer: Address, grants: seq<RoleGrant>)
    requires Accepted(grants) && DirectOutcome(w, w1, grants) && deployer in w.tables.admins
    ensures deployer in w1.tables.admins
  {
    assert deployer in w1.tables.Get(Admin);
  }

  lemma {:induction false} DirectRun(w: World, deployer: Address, grants: seq<RoleGrant>)
    requires Accepted(grants) && deployer in w.tables.admins
    ensures
      var (w', r) := Run(w, deployer, false, grants);
      r == Success([]) && DirectOutcome(w, w', grants)
  {
    hide GrantEach, Difference, DirectOutcome;
    if grants == [] {
      NothingGranted(w, deployer);
    } else {
      var rest, g := grants[..|grants| - 1], grants[|grants| - 1];
      assert grants == rest + [g];
      DirectRun(w, deployer, rest);
      var w1 := Run(w, deployer, false, rest).0;
      StaysAdmin(w, w1, deployer, rest);
      var existing := AddressesForRole(w1.tables, g.role).value;
      var needed := Difference(Parsed(g.addresses), existing);
      DifferenceMembers(Parsed(g.addresses), existing);
      DirectEach(w1, deployer, g.role, needed);
      var w2 := GrantEach(w1, deployer, false, g.role, needed).0;
      DirectSteps(w, w1, w2, rest, g, needed);
      var none: seq<Call> := [];
      assert none + none == none;
    }
  }

  lemma DirectSteps(w: World, w1: World, w2: World, rest: seq<RoleGrant>, g: RoleGrant, needed: seq<Address>)
    requires Accepted(rest) && Accepted(rest + [g])
    requires DirectOutcome(w, w1, rest) && DirectStep(w1, w2, g.role, needed)
    requires forall a :: a in needed <==> a in Parsed(g.addresses) && a !in AddressesForRole(w1.tables, g.role).value
    ensures DirectOutcome(w, w2, rest + [g])
  {
    var grants := rest + [g];
    assert grants[..|grants| - 1] == rest;
    forall r: Role
      ensures w2.tables.Get(r) == w.tables.Get(r) + (set a | a in Requested(grants, r) && !Reported(w.reports, r, a))
    {
      if r == g.role {
        forall a
          ensures a in w2.tables.Get(r) <==>
            a in w.tables.Get(r) || (a in Requested(grants, r) && !Reported(w.reports, r, a))
        {}
      }
    }
    forall call | call in w2.sent[|w.sent|..]
      ensures call.account in Requested(grants, call.role)
        && (call.role == Admin || call.account !in w.tables.Get(call.role))
    {
      assert w2.sent[|w.sent|..] == w1.sent[|w.sent|..] + w2.sent[|w1.sent|..];
    }
  }

  /** From a ledger the deployer administers, a direct run leaves every requested
      account in its role exactly when no stale report stands in the way: a report
      of an earlier grant to an account that is no longer a member. */
  lemma DirectGrantsAllIff(w: World, deployer: Address, grants: seq<RoleGrant>)
    requires Accepted(grants) && deployer in w.tables.admins
    ensures
      var (w', r) := Run(w, deployer, false, grants);
      && r == Success([])
      && (w'.tables == With(w.tables, grants) <==>
            forall role: Role, a :: a in Requested(grants, role) && Reported(w.reports, role, a) ==>
              a in w.tables.Get(role))
  {
    DirectRun(w, deployer, grants);
    NothingUnsupported(grants);
    var w' := Run(w, deployer, false, grants).0;
    var all := With(w.tables, grants);
    assert forall role: Role :: role != Unsupported ==> all.Get(role) == w.tables.Get(role) + Requested(grants, role);
    if forall role: Role, a :: a in Requested(grants, role) && Reported(w.reports, role, a) ==>
      a in w.tables.Get(role) {
      forall role: Role
        ensures w'.tables.Get(role) == all.Get(role)
      {}
      TablesExtensional(w'.tables, all);
    }
    if w'.tables == all {
      forall role: Role, a | a in Requested(grants, role) && Reported(w.reports, role, a)
        ensures a in w.tables.Get(role)
      {
        assert a in all.Get(role);
      }
    }
  }

  lemma {:induction false} NothingUnsupported(grants: seq<RoleGrant>)
    requires Accepted(grants)
    ensures Requested(grants, Unsupported) == {}
  {
    if grants != [] {
      var rest, g := grants[..|grants| - 1], grants[|grants| - 1];
      assert grants == rest + [g];
      NothingUnsupported(rest);
    }
  }

  // ----- proposing

  function CallsFor(role: Role, grantees: seq<Address>): seq<Call> {
    seq(|grantees|, i requires 0 <= i < |grantees| => GrantCall(role, grantees[i]))
  }

  lemma {:induction false} ProposedEach(w: World, deployer: Address, role: Role, grantees: seq<Address>)
    ensures
      var (w', r) := GrantEach(w, deployer, true, role, grantees);
      r == Success(CallsFor(role, grantees)) && w'.tables == w.tables && w'.sent == w.sent
  {
    if grantees == [] {
      assert CallsFor(role, grantees) == [];
    } else {
      var rest, a := grantees[..|grantees| - 1], grantees[|grantees| - 1];
      ProposedEach(w, deployer, role, rest);
      assert CallsFor(role, grantees) == CallsFor(role, rest) + [GrantCall(role, a)];
    }
  }

  /** The calls of a proposal: one for every request whose account is an admin
      request or not a member on `tables`. */
  ghost predicate Covers(calls: seq<Call>, tables: Tables, grants: seq<RoleGrant>)
    requires Accepted(grants)
  {
    forall call :: call in calls <==>
      && call.role != Unsupported
      && call.account in Requested(grants, call.role)
      && (call.role == Admin || call.account !in tables.Get(call.role))
  }

  /** Proposing reads the ledger once and ignores what is in the report store. */
  lemma {:induction false} ProposedRun(w: World, deployer: Address, grants: seq<RoleGrant>)
    requires Accepted(grants)
    ensures
      var (w', r) := Run(w, deployer, true, grants);
      && w'.tables == w.tables && w'.sent == w.sent
      && r.Success?
      && Covers(r.value, w.tables, grants)
  {
    if grants != [] {
      var rest, g := grants[..|grants| - 1], grants[|grants| - 1];
      assert grants == rest + [g];
      ProposedRun(w, deployer, rest);
      var (w1, r1) := Run(w, deployer, true, rest);
      var existing := AddressesForRole(w1.tables, g.role).value;
      var needed := Difference(Parsed(g.addresses), existing);
      DifferenceMembers(Parsed(g.addresses), existing);
      ProposedEach(w1, deployer, g.role, needed);
      var more := CallsFor(g.role, needed);
      forall call
        ensures call in more <==> call.role == g.role && call.account in needed
      {
        if call.role == g.role && call.account in needed {
          var i :| 0 <= i < |needed| && needed[i] == call.account;
          assert more[i] == call;
        }
      }
    }
  }

  lemma {:induction false} ExecutedGrants(tables: Tables, caller: Address, calls: seq<Call>)
    requires caller in tables.admins && forall call :: call in calls ==> call.role != Unsupported
    ensures
      var after := ExecuteGrants(tables, caller, calls);
      && after.Some?
      && forall r: Role, a :: a in after.value.Get(r) <==> a in tables.Get(r) || GrantCall(r, a) in calls
  {
    if calls != [] {
      var rest, call := calls[..|calls| - 1], calls[|calls| - 1];
      assert calls == rest + [call];
      ExecutedGrants(tables, caller, rest);
      assert caller in ExecuteGrants(tables, caller, rest).value.Get(Admin);
    }
  }

  /** Both modes end with each table equal to its old members plus the requested
      ones, for any list of grants, repeats and letter case included, when the
      sequence itself is not answered from a report: proposing over any reports of
      grants, sending over none. */
  lemma ModesAgree(w: World, deployer: Address, timelock: Address, grants: seq<RoleGrant>)
    requires Accepted(grants) && deployer in w.tables.admins && timelock in w.tables.admins
    ensures
      var (proposed, calls) := Run(w, deployer, true, grants);
      var (direct, r) := Run(w.(reports := {}), deployer, false, grants);
      && r == Success([])
      && direct.tables == With(w.tables, grants)
      && proposed.tables == w.tables
      && calls.Success?
      && ExecuteGrants(w.tables, timelock, calls.value) == Some(direct.tables)
  {
    DirectGrantsAllIff(w.(reports := {}), deployer, grants);
    ProposedRun(w, deployer, grants);
    NothingUnsupported(grants);
    var calls := Run(w, deployer, true, grants).1.value;
    ExecutedGrants(w.tables, timelock, calls);
    var after, all := ExecuteGrants(w.tables, timelock, calls).value, With(w.tables, grants);
    forall role: Role
      ensures after.Get(role) == all.Get(role)
    {
      forall a
        ensures a in after.Get(role) <==> a in all.Get(role)
      {
        assert GrantCall(role, a).account == a;
      }
    }
    TablesExtensional(after, all);
  }

  /** Once everything requested is there, a further direct run, with any report
      store, leaves the tables alone and sends nothing but admin grants. */
  lemma SecondDirectRun(w: World, deployer: Address, grants: seq<RoleGrant>, reports: set<OpInput>)
    requires Accepted(grants) && deployer in w.tables.admins
    requires w.tables == With(w.tables, grants)
    ensures
      var (w', r) := Run(w.(reports := reports), deployer, false, grants);
      && r == Success([])
      && w'.tables == w.tables
      && w.sent <= w'.sent
      && (forall call :: call in w'.sent[|w.sent|..] ==> call.role == Admin && call.account in Requested(grants, Admin))
      && (Requested(grants, Admin) == {} ==> w'.sent == w.sent)
  {
    var again := w.(reports := reports);
    DirectGrantsAllIff(again, deployer, grants);
    DirectRun(again, deployer, grants);
    NothingUnsupported(grants);
    RequestedAreMembers(w.tables, grants);
    OnlyAdminsSent(again, Run(again, deployer, false, grants).0, grants);
  }

  lemma RequestedAreMembers(tables: Tables, grants: seq<RoleGrant>)
    requires Accepted(grants) && tables == With(tables, grants)
    ensures forall role: Role, a :: a in Requested(grants, role) ==> a in tables.Get(role)
  {
    NothingUnsupported(grants);
    forall role: Role, a | a in Requested(grants, role)
      ensures a in tables.Get(role)
    {
      assert a in With(tables, grants).Get(role);
    }
  }

  lemma OnlyAdminsSent(w: World, w': World, grants: seq<RoleGrant>)
    requires Accepted(grants) && DirectOutcome(w, w', grants)
    requires forall role: Role, a :: a in Requested(grants, role) ==> a in w.tables.Get(role)
    ensures forall call :: call in w'.sent[|w.sent|..] ==>
      call.role == Admin && call.account in Requested(grants, Admin)
    ensures Requested(grants, Admin) == {} ==> w'.sent == w.sent
  {
    var suffix := w'.sent[|w.sent|..];
    assert forall call :: call in suffix ==> call.role == Admin && call.account in Requested(grants, Admin);
    var admins := Requested(grants, Admin);
    if admins == {} {
      assert |suffix| == 0 || suffix[0].account in admins;
      assert |suffix| == 0;
      assert w'.sent == w.sent + suffix;
    }
  }

  // ----- old reports

  /** An accepted grant that is lost: the account was granted the role before, has been
      revoked since, and the report is still there. */
  lemma StaleGrantLost(raw: string, deployer: Address)
    requires ParseEVMAddress(raw).Some?
    ensures
      var a, grants := ParseEVMAddress(raw).value, [RoleGrant(Proposer, [raw])];
      var w := World(Tables({}, {}, {}, {}, {deployer}), {OpInput(GrantCall(Proposer, a), false)}, []);
      && Accepted(grants) && a in Requested(grants, Proposer)
      && Run(w, deployer, false, grants) == (w, Success([])) && a !in w.tables.proposers
  {
    var a, g := ParseEVMAddress(raw).value, RoleGrant(Proposer, [raw]);
    var w := World(Tables({}, {}, {}, {}, {deployer}), {OpInput(GrantCall(Proposer, a), false)}, []);
    assert Parsed(g.addresses) == [a];
    hide ParseEVMAddress, HexValue;
    assert [g][..0] == [] && a in [a];
    assert Difference([a], {}) == [a] by {
      assert Difference([a][..0], {}) == [];
    }
    assert Needed(w.tables, g) == Success([a]);
    assert GrantEach(w, deployer, false, Proposer, [a][..0]) == (w, Success([]));
    var none: seq<Call> := [];
    assert none + none == none;
    assert GrantEach(w, deployer, false, Proposer, [a]) == (w, Success(none));
    assert Run(w, deployer, false, [g][..0]) == (w, Success(none));
  }

  /** The returned calls are all on one timelock. */
  datatype Batch = Batch(timelock: Address, calls: seq<Call>)

  /** The sequence is memoised by the mode and the grants; the timelock is looked up
      when its body runs. */
  type GrantRuns = Store<World, (bool, seq<RoleGrant>), Batch>

  /** The world is that of the timelock the lookup finds now. */
  function RunSequence(s: GrantRuns, deployer: Address, timelock: Address, useMCMS: bool, grants: seq<RoleGrant>)
    : (GrantRuns, Result<Batch, Error>)
  {
    var (w, r) := Run(s.world, deployer, useMCMS, grants);
    ExecuteSequence(s, (useMCMS, grants),
      (w, if r.Success? then Success(Batch(timelock, r.value)) else Failure(r.error)))
  }

  /** What is left of this timelock's tables, None when its batch cannot be executed. A
      batch for another timelock leaves them alone. */
  function ExecuteOn(tables: Tables, timelock: Address, batch: Batch): Option<Tables> {
    if batch.timelock == timelock then ExecuteGrants(tables, timelock, batch.calls) else Some(tables)
  }

  /** With the sequence's own reports: a direct run leaves every requested membership
      exactly when each is held already, or the sequence was not reported and neither
      was the grant. */
  lemma SequenceGrantsAllIff(s: GrantRuns, deployer: Address, timelock: Address, grants: seq<RoleGrant>)
    requires Accepted(grants) && deployer in s.world.tables.admins
    ensures
      var s' := RunSequence(s, deployer, timelock, false, grants).0;
      s'.world.tables == With(s.world.tables, grants) <==>
        forall role: Role, a :: a in Requested(grants, role) ==>
          || a in s.world.tables.Get(role)
          || ((false, grants) !in s.outputs && !Reported(s.world.reports, role, a))
  {
    DirectGrantsAllIff(s.world, deployer, grants);
    HeldIff(s.world.tables, grants);
    hide Run, Reported, With, Requested, Accepted;
  }

  /** A report of a proposed run: only requested grants were returned. */
  predicate TrueOutput(calls: seq<Call>, grants: seq<RoleGrant>)
    requires Accepted(grants)
  {
    forall call :: call in calls ==> call.role != Unsupported && call.account in Requested(grants, call.role)
  }

  /** Proposing with the sequence's own reports: executing what is returned leaves every
      requested membership exactly when the sequence was not reported, or each is held
      already or was returned then for this timelock. */
  lemma SequenceProposesAllIff(s: GrantRuns, deployer: Address, timelock: Address, grants: seq<RoleGrant>)
    requires Accepted(grants) && timelock in s.world.tables.admins
    requires (true, grants) in s.outputs ==> TrueOutput(s.outputs[(true, grants)].calls, grants)
    ensures
      var (s', r) := RunSequence(s, deployer, timelock, true, grants);
      && r.Success? && s'.world.tables == s.world.tables && s'.world.sent == s.world.sent
      && TrueOutput(r.value.calls, grants)
      && var after := ExecuteOn(s.world.tables, timelock, r.value);
      && after.Some?
      && (after == Some(With(s.world.tables, grants)) <==>
            || (true, grants) !in s.outputs
            || forall role: Role, a :: a in Requested(grants, role) ==>
                 || a in s.world.tables.Get(role)
                 || (s.outputs[(true, grants)].timelock == timelock
                       && GrantCall(role, a) in s.outputs[(true, grants)].calls))
  {
    var tables := s.world.tables;
    ProposedRun(s.world, deployer, grants);
    var batch := RunSequence(s, deployer, timelock, true, grants).1.value;
    hide Run, Requested, With;
    HeldIff(tables, grants);
    ExecutedGrants(tables, timelock, batch.calls);
    ExecutedAllIff(tables, ExecuteGrants(tables, timelock, batch.calls).value, grants, batch.calls);
    hide TrueOutput;
    if (true, grants) !in s.outputs {
      forall role: Role, a | a in Requested(grants, role)
        ensures a in tables.Get(role) || GrantCall(role, a) in batch.calls
      {
        NothingUnsupported(grants);
        assert GrantCall(role, a).account == a;
      }
    }
  }

  /** Executed calls give every requested membership exactly when each was held or called for. */
  lemma ExecutedAllIff(tables: Tables, after: Tables, grants: seq<RoleGrant>, calls: seq<Call>)
    requires Accepted(grants) && TrueOutput(calls, grants)
    requires forall r: Role, a :: a in after.Get(r) <==> a in tables.Get(r) || GrantCall(r, a) in calls
    ensures after == With(tables, grants) <==>
      forall role: Role, a :: a in Requested(grants, role) ==> a in tables.Get(role) || GrantCall(role, a) in calls
  {
    NothingUnsupported(grants);
    hide Requested;
    var all := With(tables, grants);
    assert forall role: Role :: role != Unsupported ==> all.Get(role) == tables.Get(role) + Requested(grants, role);
    if forall role: Role, a :: a in Requested(grants, role) ==> a in tables.Get(role) || GrantCall(role, a) in calls {
      forall role: Role
        ensures after.Get(role) == all.Get(role)
      {
        forall a
          ensures a in after.Get(role) <==> a in all.Get(role)
        {
          assert GrantCall(role, a).account == a && GrantCall(role, a).role == role;
        }
      }
      TablesExtensional(after, all);
    }
    if after == all {
      forall role: Role, a | a in Requested(grants, role)
        ensures a in tables.Get(role) || GrantCall(role, a) in calls
      {
        assert a in all.Get(role);
      }
    }
  }

  /** A proposed grant that is lost: the account held the role when the grant was first
      proposed and has been revoked since; proposed again, nothing is returned. */
  lemma StaleProposalLost(raw: string, deployer: Address, timelock: Address)
    requires ParseEVMAddress(raw).Some?
    ensures
      var a, grants := ParseEVMAddress(raw).value, [RoleGrant(Proposer, [raw])];
      var held, revoked := Tables({a}, {}, {}, {}, {timelock}), Tables({}, {}, {}, {}, {timelock});
      && Accepted(grants) && a in Requested(grants, Proposer)
      && var (s, r) := RunSequence(Store(World(held, {}, []), map[]), deployer, timelock, true, grants);
      && r == Success(Batch(timelock, []))
      && RunSequence(s.(world := s.world.(tables := revoked)), deployer, timelock, true, grants).1 == r
      && ExecuteOn(revoked, timelock, r.value) == Some(revoked) && a !in revoked.proposers
  {
    var a, g := ParseEVMAddress(raw).value, RoleGrant(Proposer, [raw]);
    var held := Tables({a}, {}, {}, {}, {timelock});
    assert Parsed(g.addresses) == [a];
    assert [g][..0] == [] && a in [a];
    assert Difference([a], {a}) == [] by {
      var none: seq<Address> := [];
      assert Difference([a][..0], {a}) == [] && none + none == none;
    }
    assert Needed(held, g) == Success([]);
    var none: seq<Call> := [];
    assert none + none == none;
    assert Run(World(held, {}, []), deployer, true, [g][..0]) == (World(held, {}, []), Success(none));
    assert Run(World(held, {}, []), deployer, true, [g]) == (World(held, {}, []), Success(none));
  }

  lemma HeldIff(tables: Tables, grants: seq<RoleGrant>)
    requires Accepted(grants)
    ensures tables == With(tables, grants) <==> forall role: Role, a :: a in Requested(grants, role) ==>
      a in tables.Get(role)
  {
    NothingUnsupported(grants);
    hide Requested;
    var all := With(tables, grants);
    assert forall role: Role :: role != Unsupported ==> all.Get(role) == tables.Get(role) + Requested(grants, role);
    if forall role: Role, a :: a in Requested(grants, role) ==> a in tables.Get(role) {
      forall role: Role
        ensures tables.Get(role) == all.Get(role)
      {}
      TablesExtensional(tables, all);
    }
  }
}
