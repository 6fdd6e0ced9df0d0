/** Running the fixed-topology deployment again: fixed points, kept reports, and
    configs that revert. */
module EvmDeployAgain {
  import opened Wrappers
  import opened Evm
  import opened RoleTables
  import opened EvmDeploy
  import opened EvmDeployOutcome
  import opened Sequences

  // ----- the second run

  predicate SameKey(r: AddressRef, q: AddressRef) {
    r.selector == q.selector && r.kind == q.kind && r.version == q.version && r.qualifier == q.qualifier
  }

  function Without(ds: DataStore, ref: AddressRef): DataStore {
    if ds == [] then []
    else Without(ds[..|ds| - 1], ref) + if SameKey(ds[|ds| - 1], ref) then [] else [ds[|ds| - 1]]
  }

  /** Writing refs into a datastore keyed by (selector, type, version, qualifier). */
  function Merge(ds: DataStore, refs: seq<AddressRef>): DataStore {
    if refs == [] then ds
    else Without(Merge(ds, refs[..|refs| - 1]), refs[|refs| - 1]) + [refs[|refs| - 1]]
  }

  lemma {:induction false} FilterWithout(ds: DataStore, ref: AddressRef, selector: nat, kind: Kind, qualifier: string)
    ensures Filter(Without(ds, ref), selector, kind, qualifier) ==
      if Matches(ref, selector, kind, qualifier) then [] else Filter(ds, selector, kind, qualifier)
  {
    NoneToFilter(ref, selector, kind, qualifier);
    hide Filter;
    if ds != [] {
      var rest, last := ds[..|ds| - 1], ds[|ds| - 1];
      FilterWithout(rest, ref, selector, kind, qualifier);
      assert ds == rest + [last];
      FilterPlus(rest, last, selector, kind, qualifier);
      FilterPlus(Without(rest, ref), last, selector, kind, qualifier);
      if SameKey(last, ref) {
        assert Without(ds, ref) == Without(rest, ref);
        assert Matches(last, selector, kind, qualifier) <==> Matches(ref, selector, kind, qualifier);
        var none: seq<AddressRef> := [];
        assert Filter(rest, selector, kind, qualifier) + none == Filter(rest, selector, kind, qualifier);
      } else {
        assert Without(ds, ref) == Without(rest, ref) + [last];
        var none: seq<AddressRef> := [];
        assert none + none == none;
      }
    }
  }

  lemma NoneToFilter(ref: AddressRef, selector: nat, kind: Kind, qualifier: string)
    ensures Filter([], selector, kind, qualifier) == [] && Without([], ref) == []
  {}

  lemma FilterPlus(ds: DataStore, ref: AddressRef, selector: nat, kind: Kind, qualifier: string)
    ensures Filter(ds + [ref], selector, kind, qualifier) ==
      Filter(ds, selector, kind, qualifier) + if Matches(ref, selector, kind, qualifier) then [ref] else []
  {
    assert (ds + [ref])[..|ds|] == ds;
  }

  /** Merging the new refs of a run makes every kind known at its address. */
  lemma {:induction false} MergedKnown(ds: DataStore, input: Input, addrs: Addresses, n: nat)
    requires n <= |KINDS| && (forall k: Kind :: k in addrs) && Unambiguous(ds, input)
    requires forall k: Kind :: Known(ds, input, k) != 0 ==> addrs[k] == Known(ds, input, k)
    ensures
      var ds' := Merge(ds, NewRefs(ds, input, addrs, n));
      && Unambiguous(ds', input)
      && (forall i :: 0 <= i < n ==> Known(ds', input, KINDS[i]) == addrs[KINDS[i]])
      && (forall i :: n <= i < |KINDS| ==> Known(ds', input, KINDS[i]) == Known(ds, input, KINDS[i]))
  {
    NoNewRefs(ds, input, addrs);
    hide NewRefs, Known, NewRef, Unambiguous, Merge, Without;
    if n > 0 {
      MergedKnown(ds, input, addrs, n - 1);
      NewRefsOneMore(ds, input, addrs, n - 1);
      var refs, kind := NewRefs(ds, input, addrs, n - 1), KINDS[n - 1];
      if Known(ds, input, kind) == 0 {
        MergedNext(Merge(ds, refs), ds, input, addrs, n - 1);
        MergeOneMore(ds, refs, NewRef(input, kind, addrs[kind]));
      }
    }
  }

  lemma MergedNext(merged: DataStore, ds: DataStore, input: Input, addrs: Addresses, n: nat)
    requires n < |KINDS| && (forall k: Kind :: k in addrs) && Unambiguous(merged, input)
    requires forall i :: 0 <= i < n ==> Known(merged, input, KINDS[i]) == addrs[KINDS[i]]
    requires forall i :: n <= i < |KINDS| ==> Known(merged, input, KINDS[i]) == Known(ds, input, KINDS[i])
    ensures
      var ref := NewRef(input, KINDS[n], addrs[KINDS[n]]);
      var ds' := Without(merged, ref) + [ref];
      && Unambiguous(ds', input)
      && (forall i :: 0 <= i <= n ==> Known(ds', input, KINDS[i]) == addrs[KINDS[i]])
      && (forall i :: n < i < |KINDS| ==> Known(ds', input, KINDS[i]) == Known(ds, input, KINDS[i]))
  {
    KindsApart(n);
    var kind := KINDS[n];
    MergedOne(merged, input, kind, addrs[kind]);
    hide Known, NewRef, Unambiguous, Without;
    var ds' := Without(merged, NewRef(input, kind, addrs[kind])) + [NewRef(input, kind, addrs[kind])];
    forall i | 0 <= i < |KINDS|
      ensures Known(ds', input, KINDS[i]) == if i == n then addrs[kind] else Known(merged, input, KINDS[i])
    {}
  }

  lemma NoNewRefs(ds: DataStore, input: Input, addrs: Addresses)
    requires forall k: Kind :: k in addrs
    ensures Merge(ds, NewRefs(ds, input, addrs, 0)) == ds
  {}

  lemma MergeOneMore(ds: DataStore, refs: seq<AddressRef>, ref: AddressRef)
    ensures Merge(ds, refs + [ref]) == Without(Merge(ds, refs), ref) + [ref]
  {
    assert (refs + [ref])[..|refs|] == refs;
  }

  lemma MergedOne(ds: DataStore, input: Input, kind: Kind, a: Address)
    requires Unambiguous(ds, input)
    ensures
      var ds' := Without(ds, NewRef(input, kind, a)) + [NewRef(input, kind, a)];
      && Unambiguous(ds', input)
      && forall k: Kind :: Known(ds', input, k) == if k == kind then a else Known(ds, input, k)
  {
    var ref := NewRef(input, kind, a);
    var ds' := Without(ds, ref) + [ref];
    forall k: Kind
      ensures Filter(ds', input.selector, k, input.qualifier) == if k == kind then [ref]
        else Filter(ds, input.selector, k, input.qualifier)
    {
      FilterWithout(ds, ref, input.selector, k, input.qualifier);
      FilterPlus(Without(ds, ref), ref, input.selector, k, input.qualifier);
    }
  }

  /** With all five known nothing is deployed. */
  lemma {:induction false} NothingMissing(w: World, ds: DataStore, input: Input, n: nat)
    requires n <= |KINDS| && forall k: Kind :: Known(ds, input, k) != 0
    ensures DeployMissing(w, ds, input, n) == Progress(w, Existing(ds, input), [], false)
  {
    if n > 0 {
      NothingMissing(w, ds, input, n - 1);
    }
  }

  /** Granting changes nothing and sends nothing exactly when nothing is missing. */
  lemma QuietGrants(w: World, input: Input, addrs: Addresses)
    requires Sound(w) && (forall k: Kind :: k in addrs) && addrs[Timelock] in w.chain.timelocks
    ensures
      var o := GrantTimelockRoles(w, input, addrs);
      && o.Some?
      && ((o.value.chain == w.chain && o.value.sent == w.sent) <==> forall m :: !Missing(w, input, addrs, m))
  {
    hide Required, Sound, RoleGrants;
    GrantsOutcome(w, input, addrs);
    var w' := GrantTimelockRoles(w, input, addrs).value;
    var tl, suffix := addrs[Timelock], w'.sent[|w.sent|..];
    hide GrantTimelockRoles, Missing;
    assert suffix != [] ==> suffix[0] in suffix;
    if forall m :: !Missing(w, input, addrs, m) {
      forall r: Role
        ensures w'.chain.timelocks[tl].Get(r) == w.chain.timelocks[tl].Get(r)
      {
        assert forall a :: a in w'.chain.timelocks[tl].Get(r) <==> Held(w'.chain.timelocks[tl], (r, a));
        assert forall a :: a in w.chain.timelocks[tl].Get(r) <==> Held(w.chain.timelocks[tl], (r, a));
      }
      TablesExtensional(w'.chain.timelocks[tl], w.chain.timelocks[tl]);
      assert w.chain.timelocks[tl := w.chain.timelocks[tl]] == w.chain.timelocks;
      assert w'.sent == w.sent + suffix;
      assert forall op :: op !in suffix;
    } else {
      var m :| Missing(w, input, addrs, m);
      assert GrantOp(tl, m.0, m.1) in suffix by {
        assert (m.0, m.1) == m;
      }
    }
  }

  /** With all five known, a run only grants what is missing. */
  lemma KnownRun(w: World, ds: DataStore, input: Input, addrs: Addresses)
    requires Sound(w) && Unambiguous(ds, input) && (forall k: Kind :: k in addrs)
      && addrs[Timelock] in w.chain.timelocks
    requires Existing(ds, input) == addrs && forall k: Kind :: addrs[k] != 0
    ensures
      var (w', r) := Run(w, ds, input);
      var tl := addrs[Timelock];
      && r == Success([])
      && GrantTimelockRoles(w, input, addrs) == Some(w')
      && ((w'.chain == w.chain && w'.sent == w.sent) <==> forall m :: !Missing(w, input, addrs, m))
  {
    assert forall k: Kind :: Known(ds, input, k) == addrs[k];
    hide Unambiguous, Known, Required, Sound, RoleGrants, Filter, Missing, GrantTimelockRoles;
    NothingMissing(w, ds, input, |KINDS|);
    QuietGrants(w, input, addrs);
  }

  /** After a successful run, with every grant report of it kept, nothing is missing. */
  lemma NothingLeft(w: World, input: Input, addrs: Addresses)
    requires Sound(w) && (forall k: Kind :: k in addrs) && addrs[Timelock] in w.chain.timelocks
    ensures
      var w' := GrantTimelockRoles(w, input, addrs).value;
      forall m :: !Missing(w', input, addrs, m)
  {
    var tl := addrs[Timelock];
    var isAdmin := tl in w.chain.timelocks[tl].admins;
    var grants := RoleGrants(addrs, isAdmin);
    if input.deployer in w.chain.timelocks[tl].admins && GrantRolesSeq(tl, grants) !in w.reports {
      RoleGrantsAre(addrs, isAdmin);
      GrantAllOutcome(w, input.deployer, tl, grants);
      GrantedLeavesNothing(w, GrantAll(w, input.deployer, tl, grants), addrs);
      hide RoleGrants, Sound, Required, Asked, GrantAll, Granted, Held;
    }
  }

  lemma GrantedLeavesNothing(w: World, w1: World, addrs: Addresses)
    requires (forall k: Kind :: k in addrs) && addrs[Timelock] in w.chain.timelocks
      && addrs[Timelock] in w1.chain.timelocks
    ensures
      var tl := addrs[Timelock];
      Granted(w, w1, tl, Required(addrs) - if tl in w.chain.timelocks[tl].admins then {(Admin, tl)} else {}) ==>
        forall m :: m in Required(addrs) ==> Held(w1.chain.timelocks[tl], m) || GrantOp(tl, m.0, m.1) in w1.reports
  {
    hide Required, Sound;
    var tl := addrs[Timelock];
    if Granted(w, w1, tl, Required(addrs) - if tl in w.chain.timelocks[tl].admins then {(Admin, tl)} else {}) {
      forall m | m in Required(addrs) && !Held(w1.chain.timelocks[tl], m)
        ensures GrantOp(tl, m.0, m.1) in w.reports
      {
        assert (m.0, m.1) == m;
        assert m == (Admin, tl) ==> (Held(w.chain.timelocks[tl], m) <==> tl in w.chain.timelocks[tl].admins);
      }
    }
  }

  /** Once the refs of a successful run are merged, a second run, over any store of
      true records, has no new ref. It deploys nothing, sends nothing and changes
      nothing exactly when no required membership is missing; and that is so whenever
      the first run left the timelock wired, or all its reports are still there, or
      the deployer is no admin. */
  lemma SecondRunIsFixedPoint(w: World, ds: DataStore, input: Input, reports: map<OpInput, Address>)
    requires Sound(w) && Run(w, ds, input).1.Success?
    requires Sound(Run(w, ds, input).0.(reports := reports))
    ensures
      var addrs := DeployMissing(w, ds, input, |KINDS|).addrs;
      var (w', r) := Run(w, ds, input);
      var again := w'.(reports := reports);
      var (w'', r') := Run(again, Merge(ds, r.value), input);
      && r' == Success([])
      && ((w''.chain == w'.chain && w''.sent == w'.sent) <==> forall m :: !Missing(again, input, addrs, m))
      && addrs[Timelock] in w'.chain.timelocks
      && (Wired(w'.chain.timelocks[addrs[Timelock]], addrs) || reports == w'.reports
            || input.deployer !in w'.chain.timelocks[addrs[Timelock]].admins ==>
            w''.chain == w'.chain && w''.sent == w'.sent)
  {
    RunOutcome(w, ds, input);
    DeployMissingOutcome(w, ds, input, |KINDS|);
    var (w', r) := Run(w, ds, input);
    var p := DeployMissing(w, ds, input, |KINDS|);
    MergedKnown(ds, input, p.addrs, |KINDS|);
    var ds', again := Merge(ds, r.value), w'.(reports := reports);
    KnownAll(ds', input, p.addrs);
    NothingLeft(p.world, input, p.addrs);
    hide DeployMissing, Known, Merge, NewRefs, Sound, Unambiguous, Reached, StaleConfig, Placed, Required, HoldsConfig,
      GrantTimelockRoles;
    KnownRun(again, ds', input, p.addrs);
  }

  lemma KnownAll(ds: DataStore, input: Input, addrs: Addresses)
    requires forall k: Kind :: k in addrs
    requires forall i :: 0 <= i < |KINDS| ==> Known(ds, input, KINDS[i]) == addrs[KINDS[i]]
    ensures Existing(ds, input) == addrs
  {
    AllKinds();
    hide Known;
    forall k: Kind
      ensures Known(ds, input, k) == addrs[k]
    {
      assert k in KINDS;
      var i :| 0 <= i < |KINDS| && KINDS[i] == k;
    }
  }

  // ----- with the sequence's own report

  type Deployments = Store<World, Input, seq<AddressRef>>

  /** The sequence's input on one chain; the deployer is not part of it. */
  function SequenceInput(input: Input): Input {
    input.(deployer := ZERO)
  }

  /** The deploy changeset on one chain: the sequence is itself memoised. */
  function Deploy(s: Deployments, ds: DataStore, input: Input): (Deployments, Result<seq<AddressRef>, Error>) {
    ExecuteSequence(s, SequenceInput(input), Run(s.world, ds, input))
  }

  /** Writing the same refs again changes no lookup. */
  lemma {:induction false} MergedAgain(ds: DataStore, input: Input, addrs: Addresses, before: DataStore, n: nat)
    requires n <= |KINDS| && (forall k: Kind :: k in addrs) && Unambiguous(before, input)
    requires forall k: Kind :: Known(before, input, k) == addrs[k]
    ensures
      var after := Merge(before, NewRefs(ds, input, addrs, n));
      Unambiguous(after, input) && forall k: Kind :: Known(after, input, k) == addrs[k]
  {
    NoRefsYet(ds, input, addrs, before);
    hide NewRefs, Known, NewRef, Unambiguous, Merge, Without;
    if n > 0 {
      MergedAgain(ds, input, addrs, before, n - 1);
      NewRefsOneMore(ds, input, addrs, n - 1);
      var refs, kind := NewRefs(ds, input, addrs, n - 1), KINDS[n - 1];
      if Known(ds, input, kind) == 0 {
        MergeOneMore(before, refs, NewRef(input, kind, addrs[kind]));
        KnownAlready(Merge(before, refs), input, addrs, kind);
      }
    }
  }

  lemma KnownAlready(ds: DataStore, input: Input, addrs: Addresses, kind: Kind)
    requires (forall k: Kind :: k in addrs && Known(ds, input, k) == addrs[k]) && Unambiguous(ds, input)
    ensures
      var ref := NewRef(input, kind, addrs[kind]);
      var after := Without(ds, ref) + [ref];
      Unambiguous(after, input) && forall k: Kind :: Known(after, input, k) == addrs[k]
  {
    MergedOne(ds, input, kind, addrs[kind]);
    hide Known, NewRef, Unambiguous, Without;
  }

  lemma NoRefsYet(ds: DataStore, input: Input, addrs: Addresses, before: DataStore)
    requires forall k: Kind :: k in addrs
    ensures Merge(before, NewRefs(ds, input, addrs, 0)) == before
  {}

  /** The second changeset after a successful one, with any store of true records: if
      the sequence's report is still there it touches nothing and returns the old refs
      again, otherwise it returns none and sends exactly the missing grants. Either
      way merging what it returns leaves every lookup as it was. */
  lemma SecondChangeset(w: World, ds: DataStore, input: Input, reports: map<OpInput, Address>, kept: bool)
    requires Sound(w) && Run(w, ds, input).1.Success?
    requires Sound(Run(w, ds, input).0.(reports := reports))
    ensures
      var addrs := DeployMissing(w, ds, input, |KINDS|).addrs;
      var (w', r) := Run(w, ds, input);
      var ds', again := Merge(ds, r.value), w'.(reports := reports);
      var (s, r') := Deploy(Store(again, if kept then map[SequenceInput(input) := r.value] else map[]), ds', input);
      && r' == Success(if kept then r.value else [])
      && ((s.world.chain == w'.chain && s.world.sent == w'.sent) <==>
            kept || forall m :: !Missing(again, input, addrs, m))
      && Existing(ds', input) == addrs
      && Unambiguous(Merge(ds', r'.value), input) && Existing(Merge(ds', r'.value), input) == addrs
  {
    hide DeployMissing, Run, Existing, Known, NewRefs, Merge, Sound, Unambiguous, StaleConfig, Required, HoldsConfig,
      Missing, Held, Wired, Filter;
    SecondRunIsFixedPoint(w, ds, input, reports);
    FirstMerged(w, ds, input);
    MergingAgain(w, ds, input);
  }

  /** The datastore after a successful run knows every contract of it. */
  lemma FirstMerged(w: World, ds: DataStore, input: Input)
    requires Sound(w) && Run(w, ds, input).1.Success?
    ensures
      var addrs := DeployMissing(w, ds, input, |KINDS|).addrs;
      var ds' := Merge(ds, Run(w, ds, input).1.value);
      && Unambiguous(ds', input) && Existing(ds', input) == addrs
      && Merge(ds', []) == ds'
  {
    RunOutcome(w, ds, input);
    var addrs := DeployMissing(w, ds, input, |KINDS|).addrs;
    MergedKnown(ds, input, addrs, |KINDS|);
    KnownAll(Merge(ds, NewRefs(ds, input, addrs, |KINDS|)), input, addrs);
    hide DeployMissing, Known, NewRefs, Sound, Unambiguous, StaleConfig, Required, HoldsConfig, Existing;
  }

  lemma MergingAgain(w: World, ds: DataStore, input: Input)
    requires Sound(w) && Run(w, ds, input).1.Success?
    ensures
      var addrs := DeployMissing(w, ds, input, |KINDS|).addrs;
      var refs := Run(w, ds, input).1.value;
      var after := Merge(Merge(ds, refs), refs);
      Unambiguous(after, input) && Existing(after, input) == addrs
  {
    FirstMerged(w, ds, input);
    RunOutcome(w, ds, input);
    var addrs := DeployMissing(w, ds, input, |KINDS|).addrs;
    var refs := NewRefs(ds, input, addrs, |KINDS|);
    assert forall k: Kind :: Known(Merge(ds, refs), input, k) == Existing(Merge(ds, refs), input)[k];
    MergedAgain(ds, input, addrs, Merge(ds, refs), |KINDS|);
    KnownAll(Merge(Merge(ds, refs), refs), input, addrs);
    hide DeployMissing, Known, NewRefs, Merge, Sound, Unambiguous, StaleConfig, Required, HoldsConfig, Existing;
  }

  // ----- kept reports: configs revert, revoked roles stay revoked

  /** All five contracts of the topology are on record at these addresses. */
  predicate OnRecord(w: World, input: Input, addrs: Addresses)
    requires forall k: Kind :: k in addrs
  {
    && (forall k: Kind :: IsMcm(k) ==> Reports(w, McmWithConfigSeq(k, ConfigFor(input, k), input.qualifier), addrs[k]))
    && Reports(w, TimelockOp(input, addrs[ProposerMcm], addrs[CancellerMcm], addrs[BypasserMcm]), addrs[Timelock])
    && Reports(w, DeployProxyOp(input.qualifier, addrs[Timelock]), addrs[CallProxy])
  }

  /** Without a datastore, a run leaves all five on record. */
  lemma LeavesRecord(w: World, input: Input)
    requires Sound(w) && Run(w, [], input).1.Success?
    ensures OnRecord(Run(w, [], input).0, input, DeployMissing(w, [], input, |KINDS|).addrs)
  {
    RunPlaces(w, [], input);
    var p, w' := DeployMissing(w, [], input, |KINDS|), Run(w, [], input).0;
    var t := TimelockOp(input, p.addrs[ProposerMcm], p.addrs[CancellerMcm], p.addrs[BypasserMcm]);
    assert SameReport(p.world, w', t);
    assert SameReport(p.world, w', DeployProxyOp(input.qualifier, p.addrs[Timelock]));
    NothingKnown(input);
    hide DeployMissing, Run, Known, Sound, StaleConfig;
    assert Placed(w, p.world, input, p.addrs, Timelock) && Placed(w, p.world, input, p.addrs, CallProxy);
  }

  lemma NothingKnown(input: Input)
    ensures Unambiguous([], input) && forall k: Kind :: Known([], input, k) == 0 && Existing([], input)[k] == 0
  {}

  /** With all five on record, deploying deploys nothing. */
  lemma {:induction false} DeploysFromRecord(w: World, input: Input, addrs: Addresses, n: nat)
    requires n <= |KINDS| && (forall k: Kind :: k in addrs) && OnRecord(w, input, addrs)
    ensures
      var p := DeployMissing(w, [], input, n);
      && p.world == w && !p.rejected
      && (forall i :: 0 <= i < n ==> p.addrs[KINDS[i]] == addrs[KINDS[i]])
      && (forall i :: n <= i < |KINDS| ==> p.addrs[KINDS[i]] == 0)
  {
    NothingKnown(input);
    hide Known, NewRef, Existing;
    assert KINDS == [BypasserMcm, CancellerMcm, ProposerMcm, Timelock, CallProxy];
    if n > 0 {
      DeploysFromRecord(w, input, addrs, n - 1);
      KindsApart(n - 1);
      var p, kind := DeployMissing(w, [], input, n - 1), KINDS[n - 1];
      assert DeployKind(w, input, p.addrs, kind) == (w, Some(addrs[kind])) by {
        if IsMcm(kind) {
          assert Reports(w, McmWithConfigSeq(kind, ConfigFor(input, kind), input.qualifier), addrs[kind]);
        } else {
          assert kind == Timelock ==> p.addrs[KINDS[0]] == addrs[KINDS[0]] && p.addrs[KINDS[1]] == addrs[KINDS[1]];
          assert kind == Timelock ==> p.addrs[KINDS[2]] == addrs[KINDS[2]];
          assert kind == CallProxy ==> p.addrs[KINDS[3]] == addrs[KINDS[3]];
        }
      }
    }
  }

  function WithConfig(input: Input, kind: Kind, config: Config): Input {
    match kind
    case BypasserMcm => input.(bypasser := config)
    case CancellerMcm => input.(canceller := config)
    case ProposerMcm => input.(proposer := config)
    case _ => input
  }

  /** A multisig first reported by a run: it is the deployer's, and no other config
      is on record for it. */
  ghost predicate OnlyConfigured(w: World, input: Input, kind: Kind, a: Address, other: Config) {
    && Reports(w, DeployMcmOp(kind, input.qualifier), a) && OwnedBy(w.chain, a, input.deployer)
    && McmWithConfigSeq(kind, other, input.qualifier) !in w.reports && SetConfigOp(a, other) !in w.reports
  }

  lemma FirstConfig(w: World, w1: World, input: Input, kind: Kind, a: Address, other: Config)
    requires Sound(w) && ConfigFor(input, kind) != other
    requires forall op :: op in w.reports && McmReport(op) ==> op.kind != kind
    requires McmPlaced(w, w1, input.deployer, kind, a, ConfigFor(input, kind), input.qualifier)
    ensures OnlyConfigured(w1, input, kind, a, other) && HoldsConfig(w1.chain, a, ConfigFor(input, kind))
  {
    var q, config := input.qualifier, ConfigFor(input, kind);
    assert McmWithConfigSeq(kind, config, q) !in w.reports && DeployMcmOp(kind, q) !in w.reports;
    assert SameReport(w, w1, McmWithConfigSeq(kind, other, q));
    var set' := SetConfigOp(a, other);
    assert set' in w.reports ==> TrueReport(w.chain, set', w.reports[set']);
  }

  lemma NotRejected(w: World, input: Input, kind: Kind, other: Config, addrs: Addresses)
    requires IsMcm(kind) && (forall k: Kind :: k in addrs)
    requires OnRecord(w, input, addrs) && OnlyConfigured(w, input, kind, addrs[kind], other)
    ensures forall k: Kind :: !Rejected(w, WithConfig(input, kind, other), k)
    ensures !StaleConfig(w, kind, other, input.qualifier)
  {
    forall k: Kind
      ensures !Rejected(w, WithConfig(input, kind, other), k)
    {
      if IsMcm(k) && k != kind {
        assert Reports(w, McmWithConfigSeq(k, ConfigFor(input, k), input.qualifier), addrs[k]);
      }
    }
  }

  /** Over the record of a run, one for another config places everything where it was. */
  lemma SameRecord(w1: World, w2: World, input: Input, kind: Kind, other: Config, addrs: Addresses, addrs': Addresses)
    requires IsMcm(kind) && (forall k: Kind :: k in addrs && k in addrs')
    requires OnRecord(w1, input, addrs) && OnlyConfigured(w1, input, kind, addrs[kind], other)
    requires ReportsKept(w1, w2)
    requires
      var second := WithConfig(input, kind, other);
      && OnRecord(w2, second, addrs')
      && forall k: Kind :: IsMcm(k) ==>
           McmPlaced(w1, w2, input.deployer, k, addrs'[k], ConfigFor(second, k), input.qualifier)
    ensures addrs' == addrs
  {
    var second := WithConfig(input, kind, other);
    hide StaleConfig;
    forall k: Kind | IsMcm(k)
      ensures addrs'[k] == addrs[k]
    {
      assert McmPlaced(w1, w2, input.deployer, k, addrs'[k], ConfigFor(second, k), input.qualifier);
      if k != kind {
        assert Reports(w1, McmWithConfigSeq(k, ConfigFor(input, k), input.qualifier), addrs[k]);
      }
    }
    hide McmPlaced;
    SameAddresses(addrs', addrs);
  }

  lemma SameAddresses(addrs: Addresses, addrs': Addresses)
    requires forall k: Kind :: k in addrs && k in addrs'
    ensures (forall i :: 0 <= i < |KINDS| ==> addrs[KINDS[i]] == addrs'[KINDS[i]]) ==> addrs == addrs'
  {
    AllKinds();
    if forall i :: 0 <= i < |KINDS| ==> addrs[KINDS[i]] == addrs'[KINDS[i]] {
      forall k: Kind
        ensures addrs[k] == addrs'[k]
      {
        assert k in KINDS;
        var i :| 0 <= i < |KINDS| && KINDS[i] == k;
      }
    }
  }

  /** Asking for another config over the record of a run: it succeeds, with the same
      addresses, and the multisig holds the new config. */
  lemma Reconfigured(w: World, input: Input, kind: Kind, other: Config)
    requires Sound(w) && Run(w, [], input).1.Success?
    requires IsMcm(kind) && ConfigFor(input, kind) != other
    requires forall op :: op in w.reports && McmReport(op) ==> op.kind != kind
    ensures
      var second := WithConfig(input, kind, other);
      var addrs := DeployMissing(w, [], input, |KINDS|).addrs;
      var w1 := Run(w, [], input).0;
      var (w2, r2) := Run(w1, [], second);
      && Sound(w1) && r2.Success? && DeployMissing(w1, [], second, |KINDS|).addrs == addrs
      && OnRecord(w2, input, addrs)
      && HoldsConfig(w1.chain, addrs[kind], ConfigFor(input, kind)) && HoldsConfig(w2.chain, addrs[kind], other)
  {
    var second := WithConfig(input, kind, other);
    var addrs, w1 := DeployMissing(w, [], input, |KINDS|).addrs, Run(w, [], input).0;
    RunPlaces(w, [], input);
    LeavesRecord(w, input);
    NothingKnown(input);
    NothingKnown(second);
    SoundAfter(w, input);
    hide Run, DeployMissing, Known, Sound, Required, Filter, Unambiguous, StaleConfig, Rejected, OnRecord,
      OnlyConfigured;
    hide HoldsConfig, McmPlaced, ReportsKept, Placed;
    FirstConfig(w, w1, input, kind, addrs[kind], other);
    NotRejected(w1, input, kind, other, addrs);
    Succeeds(w1, second);
    RunPlaces(w1, [], second);
    LeavesRecord(w1, second);
    var w2, addrs' := Run(w1, [], second).0, DeployMissing(w1, [], second, |KINDS|).addrs;
    SameRecord(w1, w2, input, kind, other, addrs, addrs');
    StaysOnRecord(w1, w2, input, addrs);
    Holds(w1, w2, second, kind, addrs[kind]);
  }

  lemma SoundAfter(w: World, input: Input)
    requires Sound(w)
    ensures Sound(Run(w, [], input).0)
  {
    RunOutcome(w, [], input);
  }

  lemma Succeeds(w: World, input: Input)
    requires Sound(w) && forall k: Kind :: !Rejected(w, input, k)
    ensures Run(w, [], input).1.Success?
  {
    RunOutcome(w, [], input);
    NothingKnown(input);
    hide Run, DeployMissing, Known, Sound, Required, Rejected, Unambiguous;
  }

  lemma Holds(w: World, w': World, input: Input, kind: Kind, a: Address)
    requires McmPlaced(w, w', input.deployer, kind, a, ConfigFor(input, kind), input.qualifier)
    ensures HoldsConfig(w'.chain, a, ConfigFor(input, kind)) <==>
      !StaleConfig(w, kind, ConfigFor(input, kind), input.qualifier)
  {}

  lemma StaysOnRecord(w: World, w': World, input: Input, addrs: Addresses)
    requires (forall k: Kind :: k in addrs) && OnRecord(w, input, addrs) && ReportsKept(w, w')
    ensures OnRecord(w', input, addrs)
  {}

  /** After a successful run no membership is left to grant. */
  lemma NothingMissingAfter(w: World, ds: DataStore, input: Input)
    requires Sound(w) && Run(w, ds, input).1.Success?
    ensures
      var addrs := DeployMissing(w, ds, input, |KINDS|).addrs;
      forall m :: !Missing(Run(w, ds, input).0, input, addrs, m)
  {
    RunPlaces(w, ds, input);
    var p := DeployMissing(w, ds, input, |KINDS|);
    NothingLeft(p.world, input, p.addrs);
    hide Run, DeployMissing, Missing, Sound, Placed, McmPlaced;
  }

  /** Everything on record and nothing missing: a run returns all five and does nothing. */
  lemma RecordRun(w: World, input: Input, addrs: Addresses)
    requires Sound(w) && (forall k: Kind :: k in addrs) && OnRecord(w, input, addrs)
    requires forall m :: !Missing(w, input, addrs, m)
    ensures
      var (w', r) := Run(w, [], input);
      r == Success(NewRefs([], input, addrs, |KINDS|)) && w'.chain == w.chain && w'.sent == w.sent
  {
    DeploysFromRecord(w, input, addrs, |KINDS|);
    NothingKnown(input);
    var p := DeployMissing(w, [], input, |KINDS|);
    SameAddresses(p.addrs, addrs);
    var op := TimelockOp(input, addrs[ProposerMcm], addrs[CancellerMcm], addrs[BypasserMcm]);
    assert TrueReport(w.chain, op, w.reports[op]);
    hide Missing, Sound, OnRecord;
    QuietGrants(w, input, addrs);
    hide DeployMissing, GrantTimelockRoles, NewRefs, Unambiguous;
    ReturnsRefs(w, input);
  }

  lemma ReturnsRefs(w: World, input: Input)
    requires Sound(w) && Run(w, [], input).1.Success?
    ensures Run(w, [], input).1.value == NewRefs([], input, DeployMissing(w, [], input, |KINDS|).addrs, |KINDS|)
  {
    RunOutcome(w, [], input);
    hide Run, DeployMissing, NewRefs, Sound;
  }

  lemma {:induction false} RefIn(input: Input, addrs: Addresses, n: nat, i: nat)
    requires (forall k: Kind :: k in addrs) && i < n <= |KINDS|
    ensures NewRef(input, KINDS[i], addrs[KINDS[i]]) in NewRefs([], input, addrs, n)
  {
    NothingKnown(input);
    hide NewRef, Known;
    if i < n - 1 {
      RefIn(input, addrs, n - 1, i);
    }
  }

  /** Over kept reports with the datastore lost each time, a run asking for one config
      of a multisig, a run asking for another and a run asking for the first again all
      succeed, at the same addresses; the last one does nothing, and leaves the second
      config. */
  lemma ConfigReverts(w: World, input: Input, kind: Kind, other: Config)
    requires Sound(w) && Run(w, [], input).1.Success?
    requires IsMcm(kind) && ConfigFor(input, kind) != other
    requires forall op :: op in w.reports && McmReport(op) ==> op.kind != kind
    ensures
      var (w1, r1) := Run(w, [], input);
      var (w2, r2) := Run(w1, [], WithConfig(input, kind, other));
      var (w3, r3) := Run(w2, [], input);
      var a := DeployMissing(w, [], input, |KINDS|).addrs[kind];
      && r2.Success? && r3 == r1
      && NewRef(input, kind, a) in r3.value
      && HoldsConfig(w1.chain, a, ConfigFor(input, kind))
      && HoldsConfig(w2.chain, a, other)
      && w3.chain == w2.chain && w3.sent == w2.sent
  {
    hide Run, DeployMissing, HoldsConfig, NewRefs, NewRef, Missing, OnRecord, Sound, Known;
    var second := WithConfig(input, kind, other);
    var w1 := Run(w, [], input).0;
    var w2 := Run(w1, [], second).0;
    var addrs := DeployMissing(w, [], input, |KINDS|).addrs;
    Reconfigured(w, input, kind, other);
    NothingMissingAfter(w1, [], second);
    SoundAfter(w1, second);
    SameMissing(w2, input, second, addrs);
    RecordRun(w2, input, addrs);
    ReturnsRefs(w, input);
    AllKinds();
    assert kind in KINDS;
    var i :| 0 <= i < |KINDS| && KINDS[i] == kind;
    RefIn(input, addrs, |KINDS|, i);
  }

  lemma SameMissing(w: World, input: Input, second: Input, addrs: Addresses)
    requires (forall k: Kind :: k in addrs) && second.deployer == input.deployer
    ensures forall m :: Missing(w, input, addrs, m) <==> Missing(w, second, addrs, m)
  {}

  /** A multisig handed to another owner, every report kept. */
  function HandedOver(w: World, a: Address, owner: Address): World
    requires a in w.chain.mcms
  {
    w.(chain := w.chain.(mcms := w.chain.mcms[a := w.chain.mcms[a].(owner := owner)]))
  }

  /** Once a multisig is handed over, a run over kept reports that asks for another
      config of it fails when the datastore is lost. */
  lemma HandedOverRejects(w: World, input: Input, kind: Kind, other: Config, owner: Address)
    requires Sound(w) && Run(w, [], input).1.Success?
    requires IsMcm(kind) && ConfigFor(input, kind) != other && owner != input.deployer
    requires forall op :: op in w.reports && McmReport(op) ==> op.kind != kind
    ensures
      var w1, a := Run(w, [], input).0, DeployMissing(w, [], input, |KINDS|).addrs[kind];
      && a in w1.chain.mcms && Sound(HandedOver(w1, a, owner))
      && Run(HandedOver(w1, a, owner), [], WithConfig(input, kind, other)).1 == Failure(SetConfigRejected)
  {
    var w1, a := Run(w, [], input).0, DeployMissing(w, [], input, |KINDS|).addrs[kind];
    RunPlaces(w, [], input);
    NothingKnown(input);
    SoundAfter(w, input);
    hide Run, DeployMissing, Known, StaleConfig, Placed, ReportsKept, Existing, Unambiguous;
    FirstConfig(w, w1, input, kind, a, other);
    hide Sound, McmPlaced;
    HandOverKeeps(w1, input, kind, a, other, owner);
    RejectedRun(HandedOver(w1, a, owner), WithConfig(input, kind, other), kind);
  }

  lemma HandOverKeeps(w: World, input: Input, kind: Kind, a: Address, other: Config, owner: Address)
    requires Sound(w) && a in w.chain.mcms && IsMcm(kind) && owner != input.deployer
    requires OnlyConfigured(w, input, kind, a, other)
    ensures Sound(HandedOver(w, a, owner)) && Rejected(HandedOver(w, a, owner), WithConfig(input, kind, other), kind)
  {
    var handed := HandedOver(w, a, owner);
    SoundStays(w, handed.chain, handed.sent);
    hide Sound;
  }

  lemma RejectedRun(w: World, input: Input, kind: Kind)
    requires Sound(w) && Rejected(w, input, kind)
    ensures Run(w, [], input).1 == Failure(SetConfigRejected)
  {
    DeployMissingOutcome(w, [], input, |KINDS|);
    Rejections(w, [], input, DeployMissing(w, [], input, |KINDS|));
    NothingKnown(input);
    hide DeployMissing, Known, Rejected, Sound, Unambiguous;
  }

  /** An executor membership that the first run granted and that was revoked since stays
      revoked while the grant's report is kept: the second run succeeds, returns
      nothing, changes nothing, and leaves the timelock without it. */
  lemma RevokedStaysRevoked(w: World, ds: DataStore, input: Input)
    requires Sound(w) && Run(w, ds, input).1.Success?
    requires DeployMissing(w, ds, input, |KINDS|).addrs[Timelock] !in w.chain.timelocks
    requires Known(ds, input, Timelock) == 0
    ensures
      var addrs := DeployMissing(w, ds, input, |KINDS|).addrs;
      var (w', r) := Run(w, ds, input);
      && addrs[Timelock] in w'.chain.timelocks && Wired(w'.chain.timelocks[addrs[Timelock]], addrs)
      && var revoked := Revoked(w', addrs[Timelock], addrs[CallProxy]);
      var (w'', r') := Run(revoked, Merge(ds, r.value), input);
      && Sound(revoked) && r' == Success([]) && w''.chain == revoked.chain && w''.sent == revoked.sent
      && !Wired(w''.chain.timelocks[addrs[Timelock]], addrs)
  {
    var p := DeployMissing(w, ds, input, |KINDS|);
    var tl, proxy := p.addrs[Timelock], p.addrs[CallProxy];
    RunOutcome(w, ds, input);
    RunPlaces(w, ds, input);
    FirstMerged(w, ds, input);
    var (w', r) := Run(w, ds, input);
    assert Placed(w, p.world, input, p.addrs, Timelock);
    hide DeployMissing, Run, Sound, Known, Filter, Unambiguous, McmPlaced, Merge, NewRefs, Required, RoleGrants;
    GrantsReported(w, p.world, w', input, p.addrs);
    var revoked := Revoked(w', tl, proxy);
    RevokedIsSound(w', tl, proxy);
    hide Placed, ReportsKept;
    OnlyExecutorMissing(w', input, p.addrs);
    KnownRun(revoked, Merge(ds, r.value), input, p.addrs);
  }

  lemma RevokedIsSound(w: World, tl: Address, proxy: Address)
    requires Sound(w) && tl in w.chain.timelocks
    ensures Sound(Revoked(w, tl, proxy))
  {
    SoundStays(w, Revoked(w, tl, proxy).chain, w.sent);
  }

  /** The run granted the executor role of a new timelock, and reported it. */
  lemma GrantsReported(w: World, before: World, w': World, input: Input, addrs: Addresses)
    requires Sound(w) && Sound(before) && (forall k: Kind :: k in addrs)
    requires addrs[Timelock] !in w.chain.timelocks && addrs[Timelock] in before.chain.timelocks
    requires GrantTimelockRoles(before, input, addrs) == Some(w')
    requires before.chain.timelocks[addrs[Timelock]].executors == {}
    requires addrs[Timelock] in w'.chain.timelocks && Wired(w'.chain.timelocks[addrs[Timelock]], addrs)
    ensures GrantOp(addrs[Timelock], Executor, addrs[CallProxy]) in w'.reports
  {
    var tl, m := addrs[Timelock], (Executor, addrs[CallProxy]);
    GrantsOutcome(before, input, addrs);
    GrantsRecorded(before, input, addrs);
    assert m in Required(addrs);
    hide GrantTimelockRoles, Sound, RoleGrants;
    assert Held(w'.chain.timelocks[tl], m) && !Held(before.chain.timelocks[tl], m);
    assert Missing(before, input, addrs, m);
    assert GrantOp(tl, m.0, m.1) in w'.sent[|before.sent|..];
  }

  lemma OnlyExecutorMissing(w: World, input: Input, addrs: Addresses)
    requires (forall k: Kind :: k in addrs) && addrs[Timelock] in w.chain.timelocks
    requires Wired(w.chain.timelocks[addrs[Timelock]], addrs)
    requires GrantOp(addrs[Timelock], Executor, addrs[CallProxy]) in w.reports
    ensures
      var revoked := Revoked(w, addrs[Timelock], addrs[CallProxy]);
      && (forall m :: !Missing(revoked, input, addrs, m))
      && !Wired(revoked.chain.timelocks[addrs[Timelock]], addrs)
  {
    hide RoleGrants;
    var tl := addrs[Timelock];
    var revoked := Revoked(w, tl, addrs[CallProxy]);
    assert (Executor, addrs[CallProxy]) in Required(addrs);
    assert !Held(revoked.chain.timelocks[tl], (Executor, addrs[CallProxy]));
    forall m
      ensures !Missing(revoked, input, addrs, m)
    {
      if m in Required(addrs) && m != (Executor, addrs[CallProxy]) {
        assert Held(w.chain.timelocks[tl], m);
        hide Required;
        assert Held(revoked.chain.timelocks[tl], m) by {
          assert m.0 == Executor ==> m.1 != addrs[CallProxy] by {
            assert m == (m.0, m.1);
          }
        }
      }
    }
  }

  /** On a chain without timelocks or reports the first run succeeds with a new one. */
  lemma FirstRunSucceeds(w: World, input: Input)
    requires Sound(w) && w.reports == map[] && w.chain.timelocks == map[]
    ensures Run(w, [], input).1.Success? && Known([], input, Timelock) == 0
    ensures DeployMissing(w, [], input, |KINDS|).addrs[Timelock] !in w.chain.timelocks
  {
    Succeeds(w, input);
    NothingKnown(input);
  }

  /** The executor role revoked, every report kept. */
  function Revoked(w: World, tl: Address, executor: Address): World
    requires tl in w.chain.timelocks
  {
    var tables := w.chain.timelocks[tl];
    w.(chain := w.chain.(timelocks := w.chain.timelocks[tl := tables.(executors := tables.executors - {executor})]))
  }
}
