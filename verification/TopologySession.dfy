/** The custom topology sequence as the code performs it: loops over MCMs,
    timelocks, roles and targets that send transactions and fill shared maps.
    Every method is proved to do what its part of the command list says. */
module TopologySession {
  import opened Wrappers
  import opened Evm
  import opened RoleTables
  import opened Topology
  import opened TopologyRun

  /** Reported timelocks are on the chain; no contract has the zero address. */
  predicate TrueReports(s: St, env: Env) {
    && s.chain.next > ZERO
    && forall k :: k in s.reports && k.selector == env.selector ==>
         (k.TimelockKey? ==> s.reports[k] in s.chain.tables) && (k.ProxyKey? ==> s.reports[k] != ZERO)
  }

  /** Both done, or both stopped for the same reason. */
  predicate SameEnd<A, B>(o: Outcome<A>, r: Outcome<B>) {
    match o
    case Done(_) => r.Done?
    case Failed(e) => r == Failed(e)
    case Killed => r.Killed?
  }

  /** What outlives a timelock's scratch variables. */
  function Lasting(l: Local): Local {
    l.(proxy := ZERO, seen := {}, txs := [])
  }

  /** Whoever has the role now was there when the role was read, or has been reported since. */
  predicate ReadOrReported(s: St, env: Env, t: Address, role: Role, existing: set<Address>) {
    && t in s.chain.tables
    && (role == Admin ==> existing == {})
    && (role != Admin ==> existing <= s.chain.tables[t].Get(role))
    && (role != Admin ==> forall a :: a in s.chain.tables[t].Get(role) && a !in existing ==>
          GrantKey(env.selector, t, role, a) in s.reports)
  }

  /** Deciding on the set read at the start of a role, as the code does, comes to the
      same as deciding on the current one. */
  lemma GrantOnStaleRead(s: St, env: Env, l: Local, tl: TimelockSpec, role: Role, who: Grantee, existing: set<Address>)
    requires tl.ref in l.refToAddr && GranteeAddress(l, tl, who).Some? && (who.TheProxy? ==> l.proxy != ZERO)
      && role != Unsupported
    requires ReadOrReported(s, env, l.refToAddr[tl.ref], role, existing)
    ensures
      var t, a := l.refToAddr[tl.ref], GranteeAddress(l, tl, who).value;
      var (s', o) := Step(s, env, l, GrantCmd(tl, role, who));
      if a in existing then (s', o) == (s, Done(l))
      else
        var (s2, o2) := Execute(s, env.deployer, GrantKey(env.selector, t, role, a));
        s' == s2 && SameEnd(o2, o) && (o.Done? ==> o.value == l && ReadOrReported(s', env, t, role, existing))
  {}

  /** All the grants of a timelock, role by role. */
  function GrantsCmds(tl: TimelockSpec, roles: seq<Role>, whos: seq<seq<Grantee>>): seq<Cmd>
    requires |roles| == |whos|
  {
    if roles == [] then []
    else GrantsCmds(tl, roles[..|roles| - 1], whos[..|whos| - 1]) + GrantCmds(tl, roles[|roles| - 1], whos[|whos| - 1])
  }

  lemma RoleCmdsAsGrants(env: Env, tl: TimelockSpec, proxy: seq<Grantee>)
    requires proxy == if ShouldDeployCallProxy(env.callProxies, tl.ref) then [TheProxy] else []
    ensures
      var r := tl.roles;
      RoleCmds(env, tl) == GrantsCmds(tl, [Proposer, Canceller, Bypasser, Executor, Admin],
                                      [Holders(r.proposers), Holders(r.cancellers), Holders(r.bypassers),
                                        Holders(r.executors) + proxy, Holders(r.admins) + [Itself]])
  {
    hide GrantCmds, GrantsCmds, Holders;
    var r := tl.roles;
    GrantsFive(tl, Holders(r.proposers), Holders(r.cancellers), Holders(r.bypassers), Holders(r.executors) + proxy,
      Holders(r.admins) + [Itself]);
  }

  lemma GrantsThree(tl: TimelockSpec, p: seq<Grantee>, c: seq<Grantee>, b: seq<Grantee>)
    ensures GrantsCmds(tl, [Proposer, Canceller, Bypasser], [p, c, b]) == GrantCmds(tl, Proposer, p)
      + GrantCmds(tl, Canceller, c) + GrantCmds(tl, Bypasser, b)
  {
    hide GrantCmds, GrantsCmds;
    GrantsOneMore(tl, [], [], Proposer, p);
    assert [] + [Proposer] == [Proposer] && [] + [p] == [p];
    assert [] + GrantCmds(tl, Proposer, p) == GrantCmds(tl, Proposer, p);
    GrantsOneMore(tl, [Proposer], [p], Canceller, c);
    assert [Proposer] + [Canceller] == [Proposer, Canceller] && [p] + [c] == [p, c];
    GrantsOneMore(tl, [Proposer, Canceller], [p, c], Bypasser, b);
    assert [Proposer, Canceller] + [Bypasser] == [Proposer, Canceller, Bypasser] && [p, c] + [b] == [p, c, b];
  }

  lemma GrantsFive(tl: TimelockSpec, p: seq<Grantee>, c: seq<Grantee>, b: seq<Grantee>, e: seq<Grantee>,
                   a: seq<Grantee>)
    ensures GrantsCmds(tl, [Proposer, Canceller, Bypasser, Executor, Admin], [p, c, b, e, a])
         == GrantCmds(tl, Proposer, p) + GrantCmds(tl, Canceller, c) + GrantCmds(tl, Bypasser, b)
           + GrantCmds(tl, Executor, e) + GrantCmds(tl, Admin, a)
  {
    hide GrantCmds, GrantsCmds;
    GrantsThree(tl, p, c, b);
    GrantsOneMore(tl, [Proposer, Canceller, Bypasser], [p, c, b], Executor, e);
    assert [Proposer, Canceller, Bypasser] + [Executor] == [Proposer, Canceller, Bypasser, Executor]
      && [p, c, b] + [e] == [p, c, b, e];
    GrantsOneMore(tl, [Proposer, Canceller, Bypasser, Executor], [p, c, b, e], Admin, a);
    assert [Proposer, Canceller, Bypasser, Executor] + [Admin] == [Proposer, Canceller, Bypasser, Executor, Admin]
      && [p, c, b, e] + [a] == [p, c, b, e, a];
  }

  /** Without executors the role is left out. */
  lemma GrantsFour(tl: TimelockSpec, p: seq<Grantee>, c: seq<Grantee>, b: seq<Grantee>, a: seq<Grantee>)
    ensures GrantsCmds(tl, [Proposer, Canceller, Bypasser, Admin], [p, c, b, a])
         == GrantsCmds(tl, [Proposer, Canceller, Bypasser, Executor, Admin], [p, c, b, [], a])
  {
    assert GrantCmds(tl, Executor, []) == [];
    hide GrantCmds, GrantsCmds;
    GrantsFive(tl, p, c, b, [], a);
    GrantsThree(tl, p, c, b);
    GrantsOneMore(tl, [Proposer, Canceller, Bypasser], [p, c, b], Admin, a);
    assert [Proposer, Canceller, Bypasser] + [Admin] == [Proposer, Canceller, Bypasser, Admin]
      && [p, c, b] + [a] == [p, c, b, a];
    var x := GrantsCmds(tl, [Proposer, Canceller, Bypasser], [p, c, b]);
    assert x + [] == x;
  }

  lemma {:induction false} GrantsPrefix(tl: TimelockSpec, roles: seq<Role>, whos: seq<seq<Grantee>>, n: nat)
    requires |roles| == |whos| && n <= |roles|
    ensures GrantsCmds(tl, roles[..n], whos[..n]) <= GrantsCmds(tl, roles, whos)
  {
    if n == |roles| {
      assert roles[..n] == roles && whos[..n] == whos;
    } else {
      var m := |roles| - 1;
      assert roles[..m][..n] == roles[..n] && whos[..m][..n] == whos[..n];
      GrantsPrefix(tl, roles[..m], whos[..m], n);
    }
  }

  /** What stops a prefix of the grants stops them all. */
  lemma GrantsStop(s: St, env: Env, l: Local, tl: TimelockSpec, roles: seq<Role>, whos: seq<seq<Grantee>>, n: nat)
    requires |roles| == |whos| && n <= |roles|
    requires !Fold(s, env, l, GrantsCmds(tl, roles[..n], whos[..n])).1.Done?
    ensures Fold(s, env, l, GrantsCmds(tl, roles, whos)) == Fold(s, env, l, GrantsCmds(tl, roles[..n], whos[..n]))
  {
    hide Fold;
    GrantsPrefix(tl, roles, whos, n);
    var p, all := GrantsCmds(tl, roles[..n], whos[..n]), GrantsCmds(tl, roles, whos);
    assert all == p + all[|p|..];
    FoldStops(s, env, l, p, all[|p|..]);
  }

  /** `members` are the addresses of the grantees. */
  predicate Naming(l: Local, tl: TimelockSpec, whos: seq<Grantee>, members: seq<Address>) {
    && |whos| == |members|
    && forall i :: 0 <= i < |whos| ==>
         GranteeAddress(l, tl, whos[i]) == Some(members[i]) && (whos[i].TheProxy? ==> l.proxy != ZERO)
  }

  lemma HoldersNamed(l: Local, tl: TimelockSpec, holders: seq<RoleHolder>)
    requires Resolvable(holders, l.refToAddr)
    ensures Naming(l, tl, Holders(holders), Resolved(holders, l.refToAddr))
  {
    assert forall i :: 0 <= i < |holders| ==> holders[i] in holders;
  }

  /** The grants of a timelock, as the code lists them. */
  datatype RoleGrant = RoleGrant(role: Role, members: seq<Address>)

  predicate Lists(l: Local, tl: TimelockSpec, grants: seq<RoleGrant>, roles: seq<Role>, whos: seq<seq<Grantee>>) {
    && |grants| == |roles| == |whos|
    && forall i :: 0 <= i < |grants| ==>
         grants[i].role == roles[i] && roles[i] != Unsupported && Naming(l, tl, whos[i], grants[i].members)
  }

  lemma GrantsOneMore(tl: TimelockSpec, roles: seq<Role>, whos: seq<seq<Grantee>>, role: Role, who: seq<Grantee>)
    requires |roles| == |whos|
    ensures GrantsCmds(tl, roles + [role], whos + [who]) == GrantsCmds(tl, roles, whos) + GrantCmds(tl, role, who)
    ensures GrantsCmds(tl, [], []) == []
  {
    assert (roles + [role])[..|roles|] == roles && (whos + [who])[..|whos|] == whos;
  }

  /** The pair of commands for one target, by cases. */
  lemma PairSteps(s: St, env: Env, l: Local, tl: TimelockSpec, h: RoleHolder)
    requires tl.ref in l.refToAddr && ResolveHolder(h, l.refToAddr).Some?
    ensures
      var c, t := ResolveHolder(h, l.refToAddr).value, l.refToAddr[tl.ref];
      var pair := Fold(s, env, l, [TransferCmd(tl, h), AcceptCmd(tl, h)]);
      if c in l.seen then pair == (s, Done(l))
      else if c !in s.chain.ownables then pair == (s, Failed(Unreadable))
      else if s.chain.ownables[c].owner == t then pair == (s, Done(l.(seen := l.seen + {c})))
      else
        var (s1, o1) := Execute(s, env.deployer, TransferKey(env.selector, c, t));
        if !o1.Done? then pair.0 == s1 && SameEnd(o1, pair.1)
        else if c !in s1.chain.ownables then pair == (s1, Failed(Unreadable))
        else if s1.chain.ownables[c].owner == t then pair == (s1, Done(l.(seen := l.seen + {c})))
        else
          var (s2, o2) := Execute(s1, env.deployer, AcceptKey(env.selector, c));
          pair.0 == s2 && SameEnd(o2, pair.1)
            && (o2.Done? ==> pair.1.value == l.(seen := l.seen + {c}, txs := l.txs + [c]))
  {
    var x, y := TransferCmd(tl, h), AcceptCmd(tl, h);
    assert [x] + [y] == [x, y];
    FoldJoin(s, env, l, [x], [y]);
    FoldOne(s, env, l, x);
    var (s1, o1) := Step(s, env, l, x);
    if o1.Done? {
      FoldOne(s1, env, o1.value, y);
    }
  }

  class Session {
    const env: Env
    var chain: Chain
    var reports: map<Key, Address>
    var budget: nat
    var refToAddr: map<string, Address>
    var addresses: seq<AddressRef>
    var batchOps: seq<BatchOp>

    function State(): St
      reads this
    {
      St(chain, reports, budget)
    }

    function Memory(): Local
      reads this
    {
      Local(refToAddr, ZERO, {}, [], addresses, batchOps)
    }

    predicate Valid()
      reads this
    {
      TrueReports(State(), env)
    }

    constructor (env: Env, s: St)
      requires TrueReports(s, env)
      ensures Valid() && this.env == env && State() == s && Memory() == START
    {
      this.env, chain, reports, budget := env, s.chain, s.reports, s.budget;
      refToAddr, addresses, batchOps := map[], [], [];
    }

    method ExecuteOperation(k: Key) returns (o: Outcome<Address>)
      requires Valid()
      modifies this`chain, this`reports, this`budget
      ensures Valid()
      ensures (State(), o) == Execute(old(State()), env.deployer, k)
      ensures o.Done? && k.TimelockKey? && k.selector == env.selector ==> o.value in chain.tables
      ensures o.Done? && k.ProxyKey? && k.selector == env.selector ==> o.value != ZERO
      ensures old(chain.tables).Keys <= chain.tables.Keys
    {
      if k in reports {
        return Done(reports[k]);
      }
      var effect := Perform(chain, env.deployer, k);
      if effect.None? {
        return Failed(Rejected);
      }
      if budget == 0 {
        return Killed;
      }
      var (after, out) := effect.value;
      chain, reports, budget := after, reports[k := out], budget - 1;
      o := Done(out);
    }

    method DeployMCMWithConfig(m: MCMSpec) returns (o: Outcome<Address>)
      requires Valid()
      modifies this`chain, this`reports, this`budget
      ensures Valid()
      ensures
        var l := old(Memory());
        var (s', r) := Fold(old(State()), env, l, [DeployMcmCmd(m), SetConfigCmd(m)]);
        && State() == s' && SameEnd(o, r)
        && (o.Done? ==> r.value == l.(refToAddr := l.refToAddr[m.ref := o.value],
                                      addresses :=
                                        l.addresses + [NewAddressRef(env.selector, o.value, m.contractType, m.qualifier,
                                          m.lbl)]))
    {
      ghost var l, x, y := Memory(), DeployMcmCmd(m), SetConfigCmd(m);
      assert [x] + [y] == [x, y];
      FoldJoin(State(), env, l, [x], [y]);
      FoldOne(State(), env, l, x);
      if !SupportedType(m.contractType) {
        return Failed(UnsupportedContractType);
      }
      o := ExecuteOperation(McmKey(env.selector, m.ref, m.contractType, m.qualifier));
      if !o.Done? {
        return;
      }
      FoldOne(State(), env, l.(refToAddr := l.refToAddr[m.ref := o.value]), y);
      var configured := ExecuteOperation(ConfigKey(env.selector, o.value, m.config, m.contractType));
      match configured {
        case Done(_) =>
        case Failed(e) => o := Failed(e);
        case Killed => o := Killed;
      }
    }

    /** The members of one role: those read at the start are skipped. */
    method GrantMembers(timelock: Address, role: Role, members: seq<Address>, ghost l: Local, ghost tl: TimelockSpec,
                        ghost whos: seq<Grantee>)
        returns (o: Outcome<()>)
      requires Valid() && timelock in chain.tables && role != Unsupported
      requires tl.ref in l.refToAddr && l.refToAddr[tl.ref] == timelock
      requires Naming(l, tl, whos, members)
      modifies this`chain, this`reports, this`budget
      ensures Valid() && timelock in chain.tables
      ensures
        var (s', r) := Fold(old(State()), env, l, GrantCmds(tl, role, whos));
        State() == s' && SameEnd(o, r) && (o.Done? ==> r.value == l)
    {
      hide Fold, TrueReports, Step, Execute;
      var existing := if role == Admin then {} else chain.tables[timelock].Get(role);
      FoldNone(State(), env, l);
      assert GrantCmds(tl, role, whos)[..0] == [];
      for i := 0 to |members|
        invariant Valid() && ReadOrReported(State(), env, timelock, role, existing)
        invariant Fold(old(State()), env, l, GrantCmds(tl, role, whos)[..i]) == (State(), Done(l))
      {
        ghost var cmds := GrantCmds(tl, role, whos);
        ghost var s := State();
        assert cmds[..i + 1] == cmds[..i] + [GrantCmd(tl, role, whos[i])];
        FoldSnoc(old(State()), env, l, cmds[..i], GrantCmd(tl, role, whos[i]));
        GrantOnStaleRead(s, env, l, tl, role, whos[i], existing);
        if members[i] !in existing {
          var granted := ExecuteOperation(GrantKey(env.selector, timelock, role, members[i]));
          if !granted.Done? {
            assert cmds == cmds[..i + 1] + cmds[i + 1..];
            FoldStops(old(State()), env, l, cmds[..i + 1], cmds[i + 1..]);
            return if granted.Killed? then Killed else Failed(granted.error);
          }
        }
      }
      assert GrantCmds(tl, role, whos)[..|members|] == GrantCmds(tl, role, whos);
      o := Done(());
    }

    /** All roles of a timelock, from the resolved members. */
    method GrantRoles(timelock: Address, callProxy: Address, proposers: seq<Address>, cancellers: seq<Address>,
                      bypassers: seq<Address>,
                      executors: seq<Address>, admins: seq<Address>, ghost l: Local, ghost tl: TimelockSpec)
        returns (o: Outcome<()>)
      requires Valid() && timelock in chain.tables
      requires tl.ref in l.refToAddr && l.refToAddr[tl.ref] == timelock && l.proxy == callProxy
      requires callProxy != ZERO <==> ShouldDeployCallProxy(env.callProxies, tl.ref)
      requires RolesResolvable(tl.roles, l.refToAddr)
      requires proposers == Resolved(tl.roles.proposers, l.refToAddr)
        && cancellers == Resolved(tl.roles.cancellers, l.refToAddr)
      requires bypassers == Resolved(tl.roles.bypassers, l.refToAddr)
        && executors == Resolved(tl.roles.executors, l.refToAddr)
      requires admins == Resolved(tl.roles.admins, l.refToAddr)
      modifies this`chain, this`reports, this`budget
      ensures Valid()
      ensures
        var (s', r) := Fold(old(State()), env, l, RoleCmds(env, tl));
        State() == s' && SameEnd(o, r) && (o.Done? ==> r.value == l)
    {
      var grants := [RoleGrant(Proposer, proposers), RoleGrant(Canceller, cancellers), RoleGrant(Bypasser, bypassers)];
      var executorAddrs := executors;
      if callProxy != ZERO {
        executorAddrs := executorAddrs + [callProxy];
      }
      if |executorAddrs| > 0 {
        grants := grants + [RoleGrant(Executor, executorAddrs)];
      }
      var adminAddrs := admins + [timelock];
      grants := grants + [RoleGrant(Admin, adminAddrs)];
      ghost var roles, whos := ListGrants(env, l, tl, executorAddrs, grants);
      o := GrantAll(timelock, grants, l, tl, roles, whos);
    }

    /** Transfer and, if that leaves the contract pending, accept: the returned
        transactions are the accept calls to propose. */
    method TransferContractToTimelock(timelock: Address, contract: Address, ghost l: Local, ghost tl: TimelockSpec,
                                      ghost h: RoleHolder)
        returns (o: Outcome<seq<Address>>)
      requires Valid()
      requires tl.ref in l.refToAddr && l.refToAddr[tl.ref] == timelock
        && ResolveHolder(h, l.refToAddr) == Some(contract) && contract !in l.seen
      modifies this`chain, this`reports, this`budget
      ensures Valid()
      ensures
        var (s', r) := Fold(old(State()), env, l, [TransferCmd(tl, h), AcceptCmd(tl, h)]);
        State() == s' && SameEnd(o, r)
          && (o.Done? ==> r.value == l.(seen := l.seen + {contract}, txs := l.txs + o.value))
    {
      PairSteps(State(), env, l, tl, h);
      hide Fold;
      assert l.txs + [] == l.txs;
      if contract !in chain.ownables {
        return Failed(Unreadable);
      }
      var owner := chain.ownables[contract].owner;
      if owner == timelock {
        return Done([]);
      }
      var transferred := ExecuteOperation(TransferKey(env.selector, contract, timelock));
      if !transferred.Done? {
        return if transferred.Killed? then Killed else Failed(transferred.error);
      }
      if contract !in chain.ownables {
        return Failed(Unreadable);
      }
      owner := chain.ownables[contract].owner;
      if owner == timelock {
        return Done([]);
      }
      var accepted := ExecuteOperation(AcceptKey(env.selector, contract));
      match accepted {
        case Done(_) => o := Done([contract]);
        case Failed(e) => o := Failed(e);
        case Killed => o := Killed;
      }
    }

    method TransferContractsToTimelock(timelock: Address, contracts: seq<Address>, ghost l: Local,
                                       ghost tl: TimelockSpec)
        returns (o: Outcome<seq<Address>>)
      requires Valid() && l.seen == {} && l.txs == []
      requires tl.ref in l.refToAddr && l.refToAddr[tl.ref] == timelock
      requires Resolvable(tl.transferOwnership, l.refToAddr) && contracts == Resolved(tl.transferOwnership, l.refToAddr)
      modifies this`chain, this`reports, this`budget
      ensures Valid()
      ensures
        var (s', r) := Fold(old(State()), env, l, TransferPairs(tl, tl.transferOwnership));
        State() == s' && SameEnd(o, r)
          && (o.Done? ==> Lasting(r.value) == Lasting(l) && r.value.proxy == l.proxy && r.value.txs == o.value)
    {
      hide Fold, Valid;
      var transactions: seq<Address> := [];
      var seen: set<Address> := {};
      ghost var holders := tl.transferOwnership;
      FoldNone(State(), env, l);
      assert holders[..0] == [];
      assert l == l.(seen := {}, txs := []);
      for i := 0 to |contracts|
        invariant Valid()
        invariant Fold(old(State()), env, l, TransferPairs(tl, holders[..i])) ==
          (State(), Done(l.(seen := seen, txs := transactions)))
      {
        ghost var h, l1, before := holders[i], l.(seen := seen, txs := transactions), State();
        assert h in holders;
        assert holders[..i + 1] == holders[..i] + [h];
        PairsOneMore(tl, holders[..i], h);
        FoldJoin(old(State()), env, l, TransferPairs(tl, holders[..i]), [TransferCmd(tl, h), AcceptCmd(tl, h)]);
        if contracts[i] in seen {
          PairSteps(before, env, l1, tl, h);
          continue;
        }
        var txs := TransferContractToTimelock(timelock, contracts[i], l1, tl, h);
        if !txs.Done? {
          PairsStop(old(State()), env, l, tl, holders, i + 1);
          return txs;
        }
        seen := seen + {contracts[i]};
        transactions := transactions + txs.value;
      }
      assert holders[..|contracts|] == holders;
      o := Done(transactions);
    }

    method DeployCallProxy(target: Address, tl: TimelockSpec) returns (o: Outcome<Address>)
      requires Valid()
      modifies this`chain, this`reports, this`budget
      ensures Valid()
      ensures (State(), o) == Execute(old(State()), env.deployer, ProxyKey(env.selector, tl.ref, tl.qualifier, target))
      ensures o.Done? ==> o.value != ZERO
      ensures old(chain.tables).Keys <= chain.tables.Keys
    {
      o := ExecuteOperation(ProxyKey(env.selector, tl.ref, tl.qualifier, target));
    }

    /** Deploys the timelock and, if asked for, its call proxy. */
    method CreateTimelock(tl: TimelockSpec, proposers: seq<Address>, cancellers: seq<Address>, bypassers: seq<Address>,
                          ghost l: Local)
        returns (o: Outcome<(Address, Address)>)
      requires Valid() && Lasting(l) == Memory() && RolesResolvable(tl.roles, refToAddr)
      requires proposers == Resolved(tl.roles.proposers, refToAddr)
        && cancellers == Resolved(tl.roles.cancellers, refToAddr)
      requires bypassers == Resolved(tl.roles.bypassers, refToAddr)
      modifies this
      ensures Valid()
      ensures
        var (s', r) := Fold(old(State()), env, l, CreateCmds(env, tl));
        && State() == s' && SameEnd(o, r)
        && (o.Done? ==>
              && r.value == Memory().(proxy := o.value.1) && o.value.0 in chain.tables
                 && refToAddr == old(refToAddr)[tl.ref := o.value.0]
              && (o.value.1 != ZERO <==> ShouldDeployCallProxy(env.callProxies, tl.ref)))
    {
      ghost var x, y, s0 := DeployTimelockCmd(tl), DeployProxyCmd(tl), State();
      var deployed :=
        ExecuteOperation(TimelockKey(env.selector, tl.ref, tl.qualifier, tl.minDelay, env.deployer, proposers,
          cancellers, bypassers));
      FoldOne(s0, env, l, x);
      if !deployed.Done? {
        if ShouldDeployCallProxy(env.callProxies, tl.ref) {
          assert [x] + [y] == CreateCmds(env, tl);
          FoldStops(s0, env, l, [x], [y]);
        }
        return if deployed.Killed? then Killed else Failed(deployed.error);
      }
      var timelock := deployed.value;
      refToAddr := refToAddr[tl.ref := timelock];
      addresses := addresses + [NewAddressRef(env.selector, timelock, TIMELOCK, tl.qualifier, tl.lbl)];
      var callProxy := ZERO;
      if ShouldDeployCallProxy(env.callProxies, tl.ref) {
        assert [x] + [y] == CreateCmds(env, tl);
        FoldJoin(s0, env, l, [x], [y]);
        FoldOne(State(), env, Memory(), y);
        var proxied := DeployCallProxy(timelock, tl);
        if !proxied.Done? {
          return if proxied.Killed? then Killed else Failed(proxied.error);
        }
        callProxy := proxied.value;
        addresses := addresses + [NewAddressRef(env.selector, callProxy, CALL_PROXY, tl.qualifier, tl.lbl)];
      }
      o := Done((timelock, callProxy));
    }

    method GrantAll(timelock: Address, grants: seq<RoleGrant>, ghost l: Local, ghost tl: TimelockSpec,
                    ghost roles: seq<Role>, ghost whos: seq<seq<Grantee>>)
        returns (o: Outcome<()>)
      requires Valid() && timelock in chain.tables
      requires tl.ref in l.refToAddr && l.refToAddr[tl.ref] == timelock && Lists(l, tl, grants, roles, whos)
      modifies this`chain, this`reports, this`budget
      ensures Valid()
      ensures
        var (s', r) := Fold(old(State()), env, l, GrantsCmds(tl, roles, whos));
        State() == s' && SameEnd(o, r) && (o.Done? ==> r.value == l)
    {
      hide Fold, GrantCmds, Valid;
      FoldNone(State(), env, l);
      assert roles[..0] == [] && whos[..0] == [];
      for i := 0 to |grants|
        invariant Valid() && timelock in chain.tables
        invariant Fold(old(State()), env, l, GrantsCmds(tl, roles[..i], whos[..i])) == (State(), Done(l))
      {
        ghost var done, next := GrantsCmds(tl, roles[..i], whos[..i]), GrantCmds(tl, roles[i], whos[i]);
        assert roles[..i + 1] == roles[..i] + [roles[i]] && whos[..i + 1] == whos[..i] + [whos[i]];
        GrantsOneMore(tl, roles[..i], whos[..i], roles[i], whos[i]);
        FoldJoin(old(State()), env, l, done, next);
        o := GrantMembers(timelock, grants[i].role, grants[i].members, l, tl, whos[i]);
        if !o.Done? {
          GrantsStop(old(State()), env, l, tl, roles, whos, i + 1);
          return;
        }
      }
      assert roles[..|grants|] == roles && whos[..|grants|] == whos;
      o := Done(());
    }

    /** One timelock: created, wired, given its contracts. */
    method DeployTimelockAndSetRoles(tl: TimelockSpec, ghost l: Local) returns (o: Outcome<()>)
      requires Valid() && Lasting(l) == Memory() && NamesOthers(tl)
      modifies this
      ensures Valid()
      ensures
        var (s', r) := Fold(old(State()), env, l, TimelockCmds(env, tl));
        State() == s' && SameEnd(o, r) && (o.Done? ==> Lasting(r.value) == Memory())
    {
      hide Fold, TrueReports, RoleCmds, TimelockCmds, CreateCmds, TransferCmds, Resolved, Resolvable;
      ghost var s0, create, roles, transfers := State(), CreateCmds(env, tl), RoleCmds(env, tl), TransferCmds(tl);
      TimelockParts(s0, env, l, tl);
      var proposers := ResolveHolders(tl.roles.proposers, refToAddr);
      var cancellers := ResolveHolders(tl.roles.cancellers, refToAddr);
      var bypassers := ResolveHolders(tl.roles.bypassers, refToAddr);
      var executors := ResolveHolders(tl.roles.executors, refToAddr);
      var admins := ResolveHolders(tl.roles.admins, refToAddr);
      if proposers.None? || cancellers.None? || bypassers.None? || executors.None? || admins.None? {
        UnresolvedCreate(s0, env, l, tl);
        return Failed(UnresolvedHolder);
      }
      ghost var before := refToAddr;
      var created := CreateTimelock(tl, proposers.value, cancellers.value, bypassers.value, l);
      if !created.Done? {
        return if created.Killed? then Killed else Failed(created.error);
      }
      var (timelock, callProxy) := created.value;
      RolesStill(tl, before, timelock);
      ghost var l1 := Memory().(proxy := callProxy);
      o := GrantRoles(timelock, callProxy, proposers.value, cancellers.value, bypassers.value, executors.value,
        admins.value, l1, tl);
      if !o.Done? {
        return;
      }
      o := TransferAll(tl, timelock, l1);
    }

    /** The transfers a timelock asks for, and the batch of accepts they leave. */
    method TransferAll(tl: TimelockSpec, timelock: Address, ghost l: Local) returns (o: Outcome<()>)
      requires Valid() && l.seen == {} && l.txs == [] && Lasting(l) == Memory()
      requires tl.ref in refToAddr && refToAddr[tl.ref] == timelock
      modifies this
      ensures Valid()
      ensures
        var (s', r) := Fold(old(State()), env, l, TransferCmds(tl));
        State() == s' && SameEnd(o, r) && (o.Done? ==> Lasting(r.value) == Memory())
    {
      ghost var s0 := State();
      TransferParts(s0, env, l, tl);
      hide Fold, TrueReports, TransferCmds, Resolved, Resolvable, TransferPairs;
      if |tl.transferOwnership| > 0 {
        var contracts := ResolveHolders(tl.transferOwnership, refToAddr);
        if contracts.None? {
          return Failed(UnresolvedHolder);
        }
        var ops := TransferContractsToTimelock(timelock, contracts.value, l, tl);
        if !ops.Done? {
          return if ops.Killed? then Killed else Failed(ops.error);
        }
        if |ops.value| > 0 {
          batchOps := batchOps + [BatchOp(env.selector, ops.value)];
        }
        assert batchOps == old(batchOps) + if ops.value == [] then [] else [BatchOp(env.selector, ops.value)];
      }
      o := Done(());
    }

    /** The sequence: every MCM, then every timelock. It ends as the list of commands
        says, with its addresses and batches. */
    method RunEVMDeployTopology(cfg: ChainConfig, ghost hasMCMS: bool) returns (o: Outcome<()>)
      requires Valid() && ValidChainConfig(cfg, hasMCMS)
      modifies this
      ensures Valid()
      ensures
        var (s', r) := Run(old(State()), env, cfg);
        State() == s' && SameEnd(o, r) && (o.Done? ==> Lasting(r.value) == Memory())
    {
      hide Fold, TrueReports, ValidChainConfig, TimelockCmds;
      refToAddr, addresses, batchOps := map[], [], [];
      ghost var s0 := State();
      FoldNone(s0, env, START);
      assert cfg.mcms[..0] == [];
      for i := 0 to |cfg.mcms|
        invariant Valid()
        invariant Fold(s0, env, START, McmCmds(cfg.mcms[..i])) == (State(), Done(Memory()))
      {
        var m := cfg.mcms[i];
        NextMcm(s0, env, cfg, i);
        var addr := DeployMCMWithConfig(m);
        if !addr.Done? {
          return if addr.Killed? then Killed else Failed(addr.error);
        }
        refToAddr := refToAddr[m.ref := addr.value];
        addresses := addresses + [NewAddressRef(env.selector, addr.value, m.contractType, m.qualifier, m.lbl)];
      }
      NoTimelockYet(env, cfg);
      for i := 0 to |cfg.timelocks|
        invariant Valid()
        invariant
          var (s, r) := Fold(s0, env, START, UpTo(env, cfg, i));
          s == State() && r.Done? && Lasting(r.value) == Memory()
      {
        NextTimelock(s0, env, cfg, i);
        TimelockNamesOthers(cfg, hasMCMS, i);
        o := DeployTimelockAndSetRoles(cfg.timelocks[i], Fold(s0, env, START, UpTo(env, cfg, i)).1.value);
        if !o.Done? {
          return;
        }
      }
      AllDone(env, cfg);
      o := Done(());
    }
  }

  /** The program up to timelock `i`. */
  function UpTo(env: Env, cfg: ChainConfig, i: nat): seq<Cmd>
    requires i <= |cfg.timelocks|
  {
    McmCmds(cfg.mcms) + AllTimelockCmds(env, cfg.timelocks[..i])
  }

  lemma NoTimelockYet(env: Env, cfg: ChainConfig)
    ensures UpTo(env, cfg, 0) == McmCmds(cfg.mcms) && cfg.mcms[..|cfg.mcms|] == cfg.mcms
  {
    assert AllTimelockCmds(env, cfg.timelocks[..0]) == [];
  }

  lemma AllDone(env: Env, cfg: ChainConfig)
    ensures UpTo(env, cfg, |cfg.timelocks|) == Program(env, cfg)
  {
    assert cfg.timelocks[..|cfg.timelocks|] == cfg.timelocks;
  }

  lemma {:induction false} McmPrefix(mcms: seq<MCMSpec>, n: nat)
    requires n <= |mcms|
    ensures McmCmds(mcms[..n]) <= McmCmds(mcms)
  {
    if n == |mcms| {
      assert mcms[..n] == mcms;
    } else {
      assert mcms[..|mcms| - 1][..n] == mcms[..n];
      McmPrefix(mcms[..|mcms| - 1], n);
    }
  }

  lemma {:induction false} TimelocksPrefix(env: Env, timelocks: seq<TimelockSpec>, n: nat)
    requires n <= |timelocks|
    ensures AllTimelockCmds(env, timelocks[..n]) <= AllTimelockCmds(env, timelocks)
  {
    hide TimelockCmds;
    if n == |timelocks| {
      assert timelocks[..n] == timelocks;
    } else {
      assert timelocks[..|timelocks| - 1][..n] == timelocks[..n];
      TimelocksPrefix(env, timelocks[..|timelocks| - 1], n);
    }
  }

  lemma PrefixStops(s: St, env: Env, l: Local, p: seq<Cmd>, all: seq<Cmd>)
    requires p <= all
    ensures !Fold(s, env, l, p).1.Done? ==> Fold(s, env, l, all) == Fold(s, env, l, p)
  {
    if !Fold(s, env, l, p).1.Done? {
      assert all == p + all[|p|..];
      FoldStops(s, env, l, p, all[|p|..]);
    }
  }

  lemma NextMcm(s: St, env: Env, cfg: ChainConfig, i: nat)
    requires i < |cfg.mcms|
    ensures
      var m, p := cfg.mcms[i], McmCmds(cfg.mcms[..i + 1]);
      && Fold(s, env, START, p) ==
           Then(Fold(s, env, START, McmCmds(cfg.mcms[..i])), env, [DeployMcmCmd(m), SetConfigCmd(m)])
      && (!Fold(s, env, START, p).1.Done? ==> Run(s, env, cfg) == Fold(s, env, START, p))
  {
    hide Fold;
    var m, p := cfg.mcms[i], McmCmds(cfg.mcms[..i + 1]);
    assert cfg.mcms[..i + 1][..i] == cfg.mcms[..i];
    FoldJoin(s, env, START, McmCmds(cfg.mcms[..i]), [DeployMcmCmd(m), SetConfigCmd(m)]);
    McmPrefix(cfg.mcms, i + 1);
    PrefixStops(s, env, START, p, Program(env, cfg));
  }

  lemma NextTimelock(s: St, env: Env, cfg: ChainConfig, i: nat)
    requires i < |cfg.timelocks|
    ensures
      var p := UpTo(env, cfg, i + 1);
      && Fold(s, env, START, p) ==
           Then(Fold(s, env, START, UpTo(env, cfg, i)), env, TimelockCmds(env, cfg.timelocks[i]))
      && (!Fold(s, env, START, p).1.Done? ==> Run(s, env, cfg) == Fold(s, env, START, p))
  {
    hide Fold, TimelockCmds, McmCmds;
    assert cfg.timelocks[..i + 1][..i] == cfg.timelocks[..i];
    FoldJoin(s, env, START, UpTo(env, cfg, i), TimelockCmds(env, cfg.timelocks[i]));
    var q := AllTimelockCmds(env, cfg.timelocks[..i]);
    assert UpTo(env, cfg, i + 1) == UpTo(env, cfg, i) + TimelockCmds(env, cfg.timelocks[i]);
    TimelocksPrefix(env, cfg.timelocks, i + 1);
    PrefixStops(s, env, START, UpTo(env, cfg, i + 1), Program(env, cfg));
  }

  lemma TimelockNamesOthers(cfg: ChainConfig, hasMCMS: bool, i: nat)
    requires ValidChainConfig(cfg, hasMCMS) && i < |cfg.timelocks|
    ensures NamesOthers(cfg.timelocks[i])
  {
    ValidNamesOthers(cfg.timelocks[i], McmRefs(cfg.mcms), hasMCMS);
  }

  lemma PairsOneMore(tl: TimelockSpec, holders: seq<RoleHolder>, h: RoleHolder)
    ensures TransferPairs(tl, holders + [h]) == TransferPairs(tl, holders) + [TransferCmd(tl, h), AcceptCmd(tl, h)]
  {
    assert (holders + [h])[..|holders|] == holders;
  }

  lemma {:induction false} PairsPrefix(tl: TimelockSpec, holders: seq<RoleHolder>, n: nat)
    requires n <= |holders|
    ensures TransferPairs(tl, holders[..n]) <= TransferPairs(tl, holders)
  {
    if n == |holders| {
      assert holders[..n] == holders;
    } else {
      var m := |holders| - 1;
      assert holders[..m][..n] == holders[..n];
      PairsPrefix(tl, holders[..m], n);
    }
  }

  lemma PairsStop(s: St, env: Env, l: Local, tl: TimelockSpec, holders: seq<RoleHolder>, n: nat)
    requires n <= |holders| && !Fold(s, env, l, TransferPairs(tl, holders[..n])).1.Done?
    ensures Fold(s, env, l, TransferPairs(tl, holders)) == Fold(s, env, l, TransferPairs(tl, holders[..n]))
  {
    hide Fold;
    PairsPrefix(tl, holders, n);
    var p, all := TransferPairs(tl, holders[..n]), TransferPairs(tl, holders);
    assert all == p + all[|p|..];
    FoldStops(s, env, l, p, all[|p|..]);
  }

  lemma TransferParts(s: St, env: Env, l: Local, tl: TimelockSpec)
    ensures tl.transferOwnership == [] ==> Fold(s, env, l, TransferCmds(tl)) == (s, Done(l))
    ensures tl.transferOwnership != [] && !Resolvable(tl.transferOwnership, l.refToAddr) ==>
      Fold(s, env, l, TransferCmds(tl)) == (s, Failed(UnresolvedHolder))
    ensures tl.transferOwnership != [] && Resolvable(tl.transferOwnership, l.refToAddr) ==>
      var (s1, o1) := Fold(s, env, l, TransferPairs(tl, tl.transferOwnership));
      && (!o1.Done? ==> Fold(s, env, l, TransferCmds(tl)) == (s1, o1))
      && (o1.Done? ==>
            var batch := if o1.value.txs == [] then [] else [BatchOp(env.selector, o1.value.txs)];
            Fold(s, env, l, TransferCmds(tl)) ==
              (s1, Done(o1.value.(txs := [], batchOps := o1.value.batchOps + batch))))
  {
    if tl.transferOwnership == [] {
      FoldNone(s, env, l);
    } else {
      var check, pairs, close := CheckTransfersCmd(tl), TransferPairs(tl, tl.transferOwnership), CloseCmd(tl);
      assert TransferCmds(tl) == [check] + (pairs + [close]);
      FoldJoin(s, env, l, [check], pairs + [close]);
      FoldOne(s, env, l, check);
      FoldSnoc(s, env, l, pairs, close);
    }
  }

  /** No role of the timelock names the timelock's own ref. */
  predicate NamesOthers(tl: TimelockSpec) {
    var r := tl.roles;
    forall h :: h in r.proposers + r.cancellers + r.bypassers + r.executors + r.admins ==>
      h.mcmRef == "" || h.mcmRef != tl.ref
  }

  lemma ValidNamesOthers(tl: TimelockSpec, declared: set<string>, hasMCMS: bool)
    requires ValidTimelock(tl, declared, hasMCMS)
    ensures NamesOthers(tl)
  {}

  lemma StillResolves(holders: seq<RoleHolder>, ref: string, refs: map<string, Address>, t: Address)
    requires forall h :: h in holders ==> h.mcmRef == "" || h.mcmRef != ref
    requires Resolvable(holders, refs)
    ensures Resolvable(holders, refs[ref := t]) && Resolved(holders, refs[ref := t]) == Resolved(holders, refs)
  {
    assert forall h :: h in holders ==> ResolveHolder(h, refs[ref := t]) == ResolveHolder(h, refs);
  }

  lemma RolesStill(tl: TimelockSpec, refs: map<string, Address>, t: Address)
    requires NamesOthers(tl) && RolesResolvable(tl.roles, refs)
    ensures
      var refs', r := refs[tl.ref := t], tl.roles;
      && RolesResolvable(tl.roles, refs')
      && Resolved(r.proposers, refs') == Resolved(r.proposers, refs)
         && Resolved(r.cancellers, refs') == Resolved(r.cancellers, refs)
      && Resolved(r.bypassers, refs') == Resolved(r.bypassers, refs)
         && Resolved(r.executors, refs') == Resolved(r.executors, refs)
      && Resolved(r.admins, refs') == Resolved(r.admins, refs)
  {
    hide Resolvable, Resolved;
    StillResolves(tl.roles.proposers, tl.ref, refs, t);
    StillResolves(tl.roles.cancellers, tl.ref, refs, t);
    StillResolves(tl.roles.bypassers, tl.ref, refs, t);
    StillResolves(tl.roles.executors, tl.ref, refs, t);
    StillResolves(tl.roles.admins, tl.ref, refs, t);
  }

  lemma TimelockParts(s: St, env: Env, l: Local, tl: TimelockSpec)
    ensures Fold(s, env, l, TimelockCmds(env, tl)) ==
      Then(Then(Fold(s, env, l, CreateCmds(env, tl)), env, RoleCmds(env, tl)), env, TransferCmds(tl))
  {
    hide Fold;
    FoldJoin(s, env, l, CreateCmds(env, tl) + RoleCmds(env, tl), TransferCmds(tl));
    FoldJoin(s, env, l, CreateCmds(env, tl), RoleCmds(env, tl));
  }

  lemma UnresolvedCreate(s: St, env: Env, l: Local, tl: TimelockSpec)
    requires !RolesResolvable(tl.roles, l.refToAddr)
    ensures Fold(s, env, l, CreateCmds(env, tl)) == (s, Failed(UnresolvedHolder))
  {
    var x := DeployTimelockCmd(tl);
    FoldOne(s, env, l, x);
    if ShouldDeployCallProxy(env.callProxies, tl.ref) {
      assert [x] + [DeployProxyCmd(tl)] == CreateCmds(env, tl);
      FoldStops(s, env, l, [x], [DeployProxyCmd(tl)]);
    }
  }

  lemma ListGrants(env: Env, l: Local, tl: TimelockSpec, executorAddrs: seq<Address>, grants: seq<RoleGrant>)
    returns (roles: seq<Role>, whos: seq<seq<Grantee>>)
    requires tl.ref in l.refToAddr && RolesResolvable(tl.roles, l.refToAddr)
    requires l.proxy != ZERO <==> ShouldDeployCallProxy(env.callProxies, tl.ref)
    requires executorAddrs == Resolved(tl.roles.executors, l.refToAddr) + if l.proxy != ZERO then [l.proxy] else []
    requires
      var admin := RoleGrant(Admin, Resolved(tl.roles.admins, l.refToAddr) + [l.refToAddr[tl.ref]]);
      var first :=
        [RoleGrant(Proposer, Resolved(tl.roles.proposers, l.refToAddr)),
          RoleGrant(Canceller, Resolved(tl.roles.cancellers, l.refToAddr)),
                    RoleGrant(Bypasser, Resolved(tl.roles.bypassers, l.refToAddr))];
      grants == first + (if executorAddrs == [] then [] else [RoleGrant(Executor, executorAddrs)]) + [admin]
    ensures Lists(l, tl, grants, roles, whos)
    ensures GrantsCmds(tl, roles, whos) == RoleCmds(env, tl)
  {
    var r := tl.roles;
    var proxy := if ShouldDeployCallProxy(env.callProxies, tl.ref) then [TheProxy] else [];
    var p, c, b, e, a :=
      Holders(r.proposers), Holders(r.cancellers), Holders(r.bypassers), Holders(r.executors) + proxy, Holders(r.admins)
        + [Itself];
    HoldersNamed(l, tl, r.proposers);
    HoldersNamed(l, tl, r.cancellers);
    HoldersNamed(l, tl, r.bypassers);
    HoldersNamed(l, tl, r.executors);
    HoldersNamed(l, tl, r.admins);
    RoleCmdsAsGrants(env, tl, proxy);
    if executorAddrs == [] {
      roles, whos := [Proposer, Canceller, Bypasser, Admin], [p, c, b, a];
      assert e == [];
      GrantsFour(tl, p, c, b, a);
    } else {
      roles, whos := [Proposer, Canceller, Bypasser, Executor, Admin], [p, c, b, e, a];
    }
    hide GrantCmds, GrantsCmds, RoleCmds, RolesResolvable;
  }
}
