/** What a completed custom topology run, interrupted any number of times, has
    done: addresses, configs, the exact role matrices, ownership, batches. */
module TopologyResult {
  import opened Wrappers
  import opened Evm
  import opened Ownership
  import opened Topology
  import opened TopologyRun
  import opened TopologyResume
  import opened TopologyOutcome
  import opened TopologyProgram
  import opened TopologyEffect

  // ----- the effect of several timelocks, one by one

  function Targets(tl: TimelockSpec, refs: map<string, Address>): set<Address> {
    set h | h in tl.transferOwnership && ResolveHolder(h, refs).Some? :: ResolveHolder(h, refs).value
  }

  lemma TargetsAre(tl: TimelockSpec, refs: map<string, Address>)
    requires Resolvable(tl.transferOwnership, refs)
    ensures Targets(tl, refs) == AsSet(Resolved(tl.transferOwnership, refs))
  {
    var addrs := Resolved(tl.transferOwnership, refs);
    forall a
      ensures a in Targets(tl, refs) <==> a in addrs
    {
      if a in addrs {
        var i :| 0 <= i < |addrs| && addrs[i] == a;
        assert tl.transferOwnership[i] in tl.transferOwnership;
      }
      if a in Targets(tl, refs) {
        var h :| h in tl.transferOwnership && ResolveHolder(h, refs) == Some(a);
        var i :| 0 <= i < |addrs| && tl.transferOwnership[i] == h;
        assert addrs[i] == a;
      }
    }
  }

  /** The address of the timelock at index `i` when the first takes `first`. */
  function TimelockAddress(env: Env, first: Address, timelocks: seq<TimelockSpec>, i: nat): Address
    requires i <= |timelocks|
  {
    first + Widths(env, timelocks[..i])
  }

  predicate Disjoint(timelocks: seq<TimelockSpec>, refs: map<string, Address>) {
    forall i, j :: 0 <= i < j < |timelocks| ==> Targets(timelocks[i], refs) !! Targets(timelocks[j], refs)
  }

  /** Contracts are neither created nor destroyed by a transfer, nor change kind. */
  predicate SameKinds(own: Ownables, own': Ownables) {
    own'.Keys == own.Keys && forall c :: c in own ==> own'[c].twoStep == own[c].twoStep
  }

  lemma {:induction false} ToAcceptSameKinds(own: Ownables, own': Ownables, targets: seq<Address>)
    requires SameKinds(own, own')
    ensures ToAccept(own', targets) == ToAccept(own, targets)
  {
    if targets != [] {
      ToAcceptSameKinds(own, own', targets[..|targets| - 1]);
    }
  }

  lemma {:induction false} WidthsGrow(env: Env, timelocks: seq<TimelockSpec>, i: nat, j: nat)
    requires i <= j <= |timelocks|
    ensures Widths(env, timelocks[..i]) + (j - i) <= Widths(env, timelocks[..j])
  {
    if i < j {
      WidthsGrow(env, timelocks, i, j - 1);
      assert timelocks[..j][..j - 1] == timelocks[..j - 1];
    }
  }

  lemma {:induction false} SameOutside(c: Chain, env: Env, refs: map<string, Address>, timelocks: seq<TimelockSpec>)
    requires AllResolvable(timelocks, refs)
    ensures
      var c' := AfterTimelocks(c, env, refs, timelocks);
      && SameKinds(c.ownables, c'.ownables)
      && (forall a :: a in c.ownables && (forall tl :: tl in timelocks ==> a !in Targets(tl, refs)) ==>
            c'.ownables[a] == c.ownables[a])
      && c'.configs == c.configs
      && c'.next == c.next + Widths(env, timelocks)
  {
    if timelocks != [] {
      var rest, tl := timelocks[..|timelocks| - 1], timelocks[|timelocks| - 1];
      assert timelocks == rest + [tl];
      hide AfterTimelock, Targets;
      SameOutside(c, env, refs, rest);
      OneTimelockOutside(AfterTimelocks(c, env, refs, rest), env, refs, tl);
    }
  }

  lemma OneTimelockOutside(c: Chain, env: Env, refs: map<string, Address>, tl: TimelockSpec)
    requires TimelockResolvable(tl, refs)
    ensures
      var c' := AfterTimelock(c, env, refs, tl);
      && SameKinds(c.ownables, c'.ownables)
      && (forall a :: a in c.ownables && a !in Targets(tl, refs) ==> c'.ownables[a] == c.ownables[a])
      && c'.configs == c.configs
      && c'.next == c.next + Width(env, tl)
  {
    hide RoleMatrix;
    TargetsAre(tl, refs);
  }

  lemma OneTimelockInside(c: Chain, env: Env, refs: map<string, Address>, tl: TimelockSpec, a: Address)
    requires TimelockResolvable(tl, refs) && a in c.ownables && a in Targets(tl, refs)
    ensures
      var own' := AfterTimelock(c, env, refs, tl).ownables;
      a in own' && own'[a] == Transfer(c.ownables[a], env.deployer, c.next)
  {
    hide RoleMatrix;
    TargetsAre(tl, refs);
  }

  /** The last timelock comes after the others, at an address of its own. */
  lemma OneTimelockMore(c: Chain, env: Env, refs: map<string, Address>, timelocks: seq<TimelockSpec>)
    requires timelocks != [] && AllResolvable(timelocks, refs)
    ensures
      var n := |timelocks| - 1;
      && AllResolvable(timelocks[..n], refs)
      && AfterTimelocks(c, env, refs, timelocks[..n]).next == TimelockAddress(env, c.next, timelocks, n)
      && AfterTimelocks(c, env, refs, timelocks) ==
           AfterTimelock(AfterTimelocks(c, env, refs, timelocks[..n]), env, refs, timelocks[n])
      && (forall i :: 0 <= i < n ==>
            TimelockAddress(env, c.next, timelocks[..n], i) == TimelockAddress(env, c.next, timelocks, i))
      && (forall i :: 0 <= i < n ==>
            TimelockAddress(env, c.next, timelocks, i)
              + Width(env, timelocks[i]) <= TimelockAddress(env, c.next, timelocks, n))
  {
    hide AfterTimelock, Targets, Widths;
    var n := |timelocks| - 1;
    SameOutside(c, env, refs, timelocks[..n]);
    WidthsBelow(env, c.next, timelocks);
  }

  lemma WidthsBelow(env: Env, first: Address, timelocks: seq<TimelockSpec>)
    requires timelocks != []
    ensures
      var n := |timelocks| - 1;
      && (forall i :: 0 <= i < n ==>
            TimelockAddress(env, first, timelocks[..n], i) == TimelockAddress(env, first, timelocks, i))
      && (forall i :: 0 <= i < n ==>
            TimelockAddress(env, first, timelocks, i)
              + Width(env, timelocks[i]) <= TimelockAddress(env, first, timelocks, n))
  {
    var n := |timelocks| - 1;
    forall i | 0 <= i < n
      ensures TimelockAddress(env, first, timelocks[..n], i) == TimelockAddress(env, first, timelocks, i)
      ensures TimelockAddress(env, first, timelocks, i)
        + Width(env, timelocks[i]) <= TimelockAddress(env, first, timelocks, n)
    {
      assert timelocks[..n][..i] == timelocks[..i];
      assert timelocks[..i + 1][..i] == timelocks[..i];
      WidthsGrow(env, timelocks, i + 1, n);
    }
  }

  /** Each target is transferred by the timelock that names it and by no other. */
  lemma {:induction false} OwnershipMoves(c: Chain, env: Env, refs: map<string, Address>, timelocks: seq<TimelockSpec>,
                                          i: nat, a: Address)
    requires AllResolvable(timelocks, refs) && Disjoint(timelocks, refs) && i < |timelocks|
    requires a in c.ownables && a in Targets(timelocks[i], refs)
    ensures
      var own' := AfterTimelocks(c, env, refs, timelocks).ownables;
      a in own' && own'[a] == Transfer(c.ownables[a], env.deployer, TimelockAddress(env, c.next, timelocks, i))
  {
    hide AfterTimelocks, AfterTimelock, TimelockAddress, Transfer, Targets, Widths;
    var n := |timelocks| - 1;
    var rest, tl := timelocks[..n], timelocks[n];
    OneTimelockMore(c, env, refs, timelocks);
    SameOutside(c, env, refs, rest);
    var before := AfterTimelocks(c, env, refs, rest);
    if i < n {
      OwnershipMoves(c, env, refs, rest, i, a);
      assert Targets(timelocks[i], refs) !! Targets(timelocks[n], refs);
      OneTimelockOutside(before, env, refs, tl);
    } else {
      forall other | other in rest
        ensures a !in Targets(other, refs)
      {
        var j :| 0 <= j < n && rest[j] == other;
        assert Targets(timelocks[j], refs) !! Targets(timelocks[n], refs);
      }
      OneTimelockInside(before, env, refs, tl, a);
    }
  }

  /** Each timelock has exactly its role matrix, whatever comes after it, and no
      table of any other contract changes. */
  lemma {:induction false} TablesOf(c: Chain, env: Env, refs: map<string, Address>, timelocks: seq<TimelockSpec>,
                                    t: Address)
    requires AllResolvable(timelocks, refs)
    ensures
      var tables := AfterTimelocks(c, env, refs, timelocks).tables;
      && (forall i :: 0 <= i < |timelocks| && t == TimelockAddress(env, c.next, timelocks, i) ==>
            t in tables && tables[t] == RoleMatrix(env, refs, timelocks[i], t))
      && ((forall i :: 0 <= i < |timelocks| ==> t != TimelockAddress(env, c.next, timelocks, i)) ==>
            (t in tables <==> t in c.tables) && (t in tables ==> tables[t] == c.tables[t]))
  {
    hide RoleMatrix, AfterTimelocks, TimelockAddress;
    if timelocks != [] {
      OneTimelockMore(c, env, refs, timelocks);
      TablesOf(c, env, refs, timelocks[..|timelocks| - 1], t);
    } else {
      NoTimelock(c, env, refs);
    }
  }

  lemma NoTimelock(c: Chain, env: Env, refs: map<string, Address>)
    ensures AfterTimelocks(c, env, refs, []) == c
  {}

  /** Likewise each call proxy is created, aimed at its timelock. */
  lemma {:induction false} ProxiesOf(c: Chain, env: Env, refs: map<string, Address>, timelocks: seq<TimelockSpec>,
                                     i: nat)
    requires AllResolvable(timelocks, refs) && i < |timelocks|
      && !SwitchedOff(env, timelocks[i])
    ensures
      var t, proxies := TimelockAddress(env, c.next, timelocks, i), AfterTimelocks(c, env, refs, timelocks).proxies;
      t + 1 in proxies && proxies[t + 1] == t
  {
    hide RoleMatrix, AfterTimelocks, TimelockAddress;
    var n := |timelocks| - 1;
    OneTimelockMore(c, env, refs, timelocks);
    if i < n {
      ProxiesOf(c, env, refs, timelocks[..n], i);
    }
  }

  lemma {:induction false} McmsOf(c: Chain, deployer: Address, mcms: seq<MCMSpec>, i: nat)
    requires i < |mcms|
    ensures
      var c' := AfterMcms(c, deployer, mcms);
      && c'.next == c.next + |mcms|
      && c.next + i in c'.ownables && c'.ownables[c.next + i] == Ownable(deployer, None, true)
      && c.next + i in c'.configs && c'.configs[c.next + i] == Some(mcms[i].config)
  {
    if i < |mcms| - 1 {
      McmsOf(c, deployer, mcms[..|mcms| - 1], i);
    } else {
      McmsKeep(c, deployer, mcms[..|mcms| - 1]);
    }
  }

  lemma {:induction false} McmsKeep(c: Chain, deployer: Address, mcms: seq<MCMSpec>)
    ensures
      var c' := AfterMcms(c, deployer, mcms);
      && c'.next == c.next + |mcms| && c'.tables == c.tables && c'.proxies == c.proxies
      && (forall a :: a < c.next ==>
            (a in c'.ownables <==> a in c.ownables) && (a in c.ownables ==> c'.ownables[a] == c.ownables[a]))
      && (forall a :: a < c.next ==>
            (a in c'.configs <==> a in c.configs) && (a in c.configs ==> c'.configs[a] == c.configs[a]))
  {
    if mcms != [] {
      McmsKeep(c, deployer, mcms[..|mcms| - 1]);
    }
  }

  // ----- folding over the timelocks

  lemma ChainSame(c: Chain, env: Env, tl: TimelockSpec, refs: map<string, Address>, refs': map<string, Address>,
                  declared: set<string>, hasMCMS: bool)
    requires ValidTimelock(tl, declared, hasMCMS) && declared <= refs.Keys && Sub(refs, refs')
    ensures TimelockResolvable(tl, refs) && TimelockResolvable(tl, refs')
    ensures AfterTimelock(c, env, refs', tl) == AfterTimelock(c, env, refs, tl)
    ensures Resolved(tl.transferOwnership, refs') == Resolved(tl.transferOwnership, refs)
  {
    ResolutionStable(tl.transferOwnership, declared, refs, refs');
    ResolutionStable(tl.roles.proposers, declared, refs, refs');
    ResolutionStable(tl.roles.cancellers, declared, refs, refs');
    ResolutionStable(tl.roles.bypassers, declared, refs, refs');
    ResolutionStable(tl.roles.executors, declared, refs, refs');
    ResolutionStable(tl.roles.admins, declared, refs, refs');
  }

  lemma AllResolve(timelocks: seq<TimelockSpec>, refs: map<string, Address>, declared: set<string>, hasMCMS: bool)
    requires forall tl :: tl in timelocks ==> ValidTimelock(tl, declared, hasMCMS)
    requires declared <= refs.Keys
    ensures AllResolvable(timelocks, refs)
  {
    forall i | 0 <= i < |timelocks|
      ensures TimelockResolvable(timelocks[i], refs)
    {
      TimelockResolves(timelocks[i], refs, declared, hasMCMS, ZERO);
    }
  }

  predicate AllOwned(own: Ownables, env: Env, refs: map<string, Address>, timelocks: seq<TimelockSpec>) {
    forall tl, a :: tl in timelocks && a in Targets(tl, refs) && a in own ==> own[a].owner == env.deployer
  }

  /** The refs known before the timelocks, where the MCMs are. */
  predicate McmsPlaced(p: seq<Cmd>, l: Local, declared: set<string>) {
    FreshRefs(p) && TimelockRefsIn(p) == {} && ProxyRefsIn(p) == {} && McmRefsIn(p) == declared
      && declared <= l.refToAddr.Keys
  }

  predicate GoodTimelocks(timelocks: seq<TimelockSpec>, declared: set<string>, hasMCMS: bool) {
    && (forall i, j :: 0 <= i < j < |timelocks| ==> timelocks[i].ref != timelocks[j].ref)
    && (forall tl :: tl in timelocks ==> ValidTimelock(tl, declared, hasMCMS))
  }

  lemma {:induction false} TimelocksPhase(first: Address, env: Env, p: seq<Cmd>, s: St, l: Local,
                                          timelocks: seq<TimelockSpec>, declared: set<string>, hasMCMS: bool)
    requires Inv(first, env, p, s, l) && McmsPlaced(p, l, declared) && GoodTimelocks(timelocks, declared, hasMCMS)
    requires AllResolvable(timelocks, l.refToAddr)
    requires Disjoint(timelocks, l.refToAddr) && AllOwned(s.chain.ownables, env, l.refToAddr, timelocks)
    requires Fold(s, env, l, AllTimelockCmds(env, timelocks)).1.Done?
    ensures
      var q := AllTimelockCmds(env, timelocks);
      var (s', o) := Fold(s, env, l, q);
      && Inv(first, env, p + q, s', o.value) && FreshRefs(p + q)
      && s'.chain == AfterTimelocks(s.chain, env, l.refToAddr, timelocks)
      && o.value.addresses == l.addresses + AllTimelockAddresses(env, s.chain.next, timelocks)
      && o.value.batchOps == l.batchOps + Batches(s.chain.ownables, env, l.refToAddr, timelocks)
      && (forall tl :: tl in timelocks ==> Targets(tl, l.refToAddr) <= s.chain.ownables.Keys)
  {
    hide Fold, Inv, FreshRefs, AfterTimelock, AfterTimelocks, ValidTimelock, Disjoint, AllOwned, McmsPlaced,
      GoodTimelocks, Batches, BatchOf,
      AllTimelockAddresses, TimelockAddresses, AllTimelockCmds, FreshAfter, TimelockResolvable;
    var refs := l.refToAddr;
    AllTimelockCmdsShape(env, timelocks);
    if timelocks == [] {
      FoldNone(s, env, l);
      NothingPlaced(p, l, declared);
      NoTimelock(s.chain, env, refs);
      NoOutputs(s.chain, env, refs);
      assert p + [] == p && l.addresses + [] == l.addresses && l.batchOps + [] == l.batchOps;
    } else {
      var n := |timelocks| - 1;
      var rest, tl := timelocks[..n], timelocks[n];
      RestGood(s.chain.ownables, env, refs, timelocks, declared, hasMCMS);
      var q, last := AllTimelockCmds(env, rest), TimelockCmds(env, tl);
      FoldJoin(s, env, l, q, last);
      TimelocksPhase(first, env, p, s, l, rest, declared, hasMCMS);
      var (s1, o1) := Fold(s, env, l, q);
      NextReady(first, env, p, s, l, s1, o1.value, timelocks, declared, hasMCMS);
      TimelockPhase(first, env, p + q, s1, o1.value, tl, declared, hasMCMS);
      ChainSame(s1.chain, env, tl, refs, o1.value.refToAddr, declared, hasMCMS);
      OneTimelockMore(s.chain, env, refs, timelocks);
      OutputsOneMore(s.chain, env, refs, timelocks, l.addresses, l.batchOps, s1.chain);
      assert p + q + last == p + (q + last);
      LastTargets(s.chain, env, refs, timelocks);
    }
  }

  lemma NoOutputs(c: Chain, env: Env, refs: map<string, Address>)
    ensures AllTimelockAddresses(env, c.next, []) == [] && Batches(c.ownables, env, refs, []) == []
  {}

  lemma OutputsOneMore(c: Chain, env: Env, refs: map<string, Address>, timelocks: seq<TimelockSpec>,
                       addresses: seq<AddressRef>, batchOps: seq<BatchOp>, c1: Chain)
    requires timelocks != [] && AllResolvable(timelocks, refs)
    requires AllResolvable(timelocks[..|timelocks| - 1], refs)
      && c1 == AfterTimelocks(c, env, refs, timelocks[..|timelocks| - 1])
    ensures
      var rest, tl := timelocks[..|timelocks| - 1], timelocks[|timelocks| - 1];
      && addresses + AllTimelockAddresses(env, c.next, timelocks) == addresses + AllTimelockAddresses(env, c.next, rest)
           + TimelockAddresses(env, c1.next, tl)
      && batchOps + Batches(c.ownables, env, refs, timelocks) == batchOps + Batches(c.ownables, env, refs, rest)
           + BatchOf(env, c1.ownables, Resolved(tl.transferOwnership, refs))
      && c1.ownables.Keys == c.ownables.Keys
  {
    var rest, tl := timelocks[..|timelocks| - 1], timelocks[|timelocks| - 1];
    SameOutside(c, env, refs, rest);
    hide AfterTimelocks;
    ToAcceptSameKinds(c.ownables, c1.ownables, Resolved(tl.transferOwnership, refs));
    AllTimelockAddressesOneMore(env, c.next, timelocks);
    BatchesOneMore(c.ownables, env, refs, timelocks);
    hide TimelockAddresses, AllTimelockAddresses, Batches, ToAccept, Targets, Resolved, Widths, TimelockResolvable;
    Reassociate(addresses, AllTimelockAddresses(env, c.next, rest), TimelockAddresses(env, c1.next, tl));
    Reassociate(batchOps, Batches(c.ownables, env, refs, rest),
      BatchOf(env, c1.ownables, Resolved(tl.transferOwnership, refs)));
  }

  lemma Reassociate<T>(x: seq<T>, y: seq<T>, z: seq<T>)
    ensures x + (y + z) == x + y + z
  {}

  lemma AllTimelockAddressesOneMore(env: Env, first: Address, timelocks: seq<TimelockSpec>)
    requires timelocks != []
    ensures
      var rest, tl := timelocks[..|timelocks| - 1], timelocks[|timelocks| - 1];
      AllTimelockAddresses(env, first, timelocks) ==
        AllTimelockAddresses(env, first, rest) + TimelockAddresses(env, first + Widths(env, rest), tl)
  {}

  lemma BatchesOneMore(own: Ownables, env: Env, refs: map<string, Address>, timelocks: seq<TimelockSpec>)
    requires timelocks != [] && AllResolvable(timelocks, refs) && AllResolvable(timelocks[..|timelocks| - 1], refs)
    ensures
      var rest, tl := timelocks[..|timelocks| - 1], timelocks[|timelocks| - 1];
      Batches(own, env, refs, timelocks) ==
        Batches(own, env, refs, rest) + BatchOf(env, own, Resolved(tl.transferOwnership, refs))
  {}

  lemma LastTargets(c: Chain, env: Env, refs: map<string, Address>, timelocks: seq<TimelockSpec>)
    requires timelocks != [] && AllResolvable(timelocks, refs)
    requires
      var rest, tl := timelocks[..|timelocks| - 1], timelocks[|timelocks| - 1];
      && (forall tl :: tl in rest ==> Targets(tl, refs) <= c.ownables.Keys)
      && (forall a :: a in Resolved(tl.transferOwnership, refs) ==> a in c.ownables)
    ensures forall tl :: tl in timelocks ==> Targets(tl, refs) <= c.ownables.Keys
  {
    var rest, tl := timelocks[..|timelocks| - 1], timelocks[|timelocks| - 1];
    assert timelocks == rest + [tl];
    TargetsAre(tl, refs);
  }

  lemma AllTimelockCmdsShape(env: Env, timelocks: seq<TimelockSpec>)
    ensures timelocks == [] ==> AllTimelockCmds(env, timelocks) == []
    ensures timelocks != [] ==>
      AllTimelockCmds(env, timelocks) == AllTimelockCmds(env, timelocks[..|timelocks| - 1])
        + TimelockCmds(env, timelocks[|timelocks| - 1])
  {}

  lemma NothingPlaced(p: seq<Cmd>, l: Local, declared: set<string>)
    requires McmsPlaced(p, l, declared)
    ensures FreshRefs(p)
  {}

  lemma RestGood(own: Ownables, env: Env, refs: map<string, Address>, timelocks: seq<TimelockSpec>,
                 declared: set<string>, hasMCMS: bool)
    requires timelocks != [] && AllResolvable(timelocks, refs)
    requires GoodTimelocks(timelocks, declared, hasMCMS) && Disjoint(timelocks, refs)
      && AllOwned(own, env, refs, timelocks)
    ensures
      var rest := timelocks[..|timelocks| - 1];
      AllResolvable(rest, refs) && GoodTimelocks(rest, declared, hasMCMS) && Disjoint(rest, refs)
        && AllOwned(own, env, refs, rest)
  {
    var rest := timelocks[..|timelocks| - 1];
    assert forall tl :: tl in rest ==> tl in timelocks;
  }

  /** What the phase of the last timelock asks for. */
  lemma NextReady(first: Address, env: Env, p: seq<Cmd>, s: St, l: Local, s1: St, l1: Local,
                  timelocks: seq<TimelockSpec>, declared: set<string>, hasMCMS: bool)
    requires timelocks != [] && Inv(first, env, p, s, l) && McmsPlaced(p, l, declared)
      && GoodTimelocks(timelocks, declared, hasMCMS)
    requires AllResolvable(timelocks, l.refToAddr) && AllResolvable(timelocks[..|timelocks| - 1], l.refToAddr)
    requires Disjoint(timelocks, l.refToAddr) && AllOwned(s.chain.ownables, env, l.refToAddr, timelocks)
    requires
      var q := AllTimelockCmds(env, timelocks[..|timelocks| - 1]);
      Inv(first, env, p + q, s1, l1) && FreshRefs(p + q)
    requires s1.chain == AfterTimelocks(s.chain, env, l.refToAddr, timelocks[..|timelocks| - 1])
    ensures
      var q, tl := AllTimelockCmds(env, timelocks[..|timelocks| - 1]), timelocks[|timelocks| - 1];
      && FreshAfter(p + q, TimelockCmds(env, tl))
      && ValidTimelock(tl, declared, hasMCMS) && Sub(l.refToAddr, l1.refToAddr)
      && declared <= l.refToAddr.Keys && declared <= l1.refToAddr.Keys
      && (Resolvable(tl.transferOwnership, l1.refToAddr) ==>
            DeployerOwns(s1.chain.ownables, env, Resolved(tl.transferOwnership, l1.refToAddr)))
  {
    hide AfterTimelocks, AfterTimelock, FreshAfter, TimelockCmds, AllTimelockCmds, Disjoint, AllOwned, Assign,
      ValidTimelock;
    var rest, tl, refs := timelocks[..|timelocks| - 1], timelocks[|timelocks| - 1], l.refToAddr;
    assert timelocks == rest + [tl];
    var q := AllTimelockCmds(env, rest);
    NextFresh(env, p, l, timelocks, declared, hasMCMS);
    assert (p + q)[..|p|] == p;
    AssignGrows(first, p + q, |p|);
    ChainSame(s1.chain, env, tl, refs, l1.refToAddr, declared, hasMCMS);
    UntouchedYet(s.chain, env, refs, timelocks);
  }

  lemma NextFresh(env: Env, p: seq<Cmd>, l: Local, timelocks: seq<TimelockSpec>, declared: set<string>, hasMCMS: bool)
    requires timelocks != [] && McmsPlaced(p, l, declared) && GoodTimelocks(timelocks, declared, hasMCMS)
    ensures
      var q, tl := AllTimelockCmds(env, timelocks[..|timelocks| - 1]), timelocks[|timelocks| - 1];
      FreshAfter(p + q, TimelockCmds(env, tl)) && ValidTimelock(tl, declared, hasMCMS)
  {
    hide FreshRefs, FreshAfter, TimelockCmds, AllTimelockCmds;
    var rest, tl := timelocks[..|timelocks| - 1], timelocks[|timelocks| - 1];
    assert timelocks == rest + [tl];
    forall t | t in timelocks
      ensures t.ref !in McmRefsIn(p)
    {
      assert ValidTimelock(t, declared, hasMCMS);
    }
    NotAmong(timelocks);
    assert ValidTimelock(tl, declared, hasMCMS);
    hide ValidTimelock, McmRefsIn, TimelockRefsIn, ProxyRefsIn;
    AllTimelockCmdsFresh(env, p, rest);
    RefsJoin(p, AllTimelockCmds(env, rest));
    TimelockCmdsFresh(env, tl, p + AllTimelockCmds(env, rest));
  }

  lemma NotAmong(timelocks: seq<TimelockSpec>)
    requires timelocks != [] && forall i, j :: 0 <= i < j < |timelocks| ==> timelocks[i].ref != timelocks[j].ref
    ensures timelocks[|timelocks| - 1].ref !in TimelockRefs(timelocks[..|timelocks| - 1])
  {}

  lemma UntouchedYet(c: Chain, env: Env, refs: map<string, Address>, timelocks: seq<TimelockSpec>)
    requires timelocks != [] && AllResolvable(timelocks, refs) && AllResolvable(timelocks[..|timelocks| - 1], refs)
    requires Disjoint(timelocks, refs) && AllOwned(c.ownables, env, refs, timelocks)
    ensures
      var tl := timelocks[|timelocks| - 1];
      DeployerOwns(AfterTimelocks(c, env, refs, timelocks[..|timelocks| - 1]).ownables, env,
        Resolved(tl.transferOwnership, refs))
  {
    var rest, tl := timelocks[..|timelocks| - 1], timelocks[|timelocks| - 1];
    SameOutside(c, env, refs, rest);
    TargetsAre(tl, refs);
    assert tl in timelocks;
    forall a, other | a in Targets(tl, refs) && other in rest
      ensures a !in Targets(other, refs)
    {
      var j :| 0 <= j < |rest| && rest[j] == other;
      assert Targets(timelocks[j], refs) !! Targets(timelocks[|rest|], refs);
    }
  }

  // ----- a whole run

  /** The addresses of the MCMs. */
  function McmPlaces(first: Address, mcms: seq<MCMSpec>): map<string, Address> {
    Assign(first, McmCmds(mcms))
  }

  lemma {:induction false} McmPlacesAre(first: Address, mcms: seq<MCMSpec>)
    requires forall i, j :: 0 <= i < j < |mcms| ==> mcms[i].ref != mcms[j].ref
    ensures Created(McmCmds(mcms)) == |mcms|
    ensures McmPlaces(first, mcms).Keys == McmRefs(mcms)
    ensures forall i :: 0 <= i < |mcms| ==> McmPlaces(first, mcms)[mcms[i].ref] == first + i
  {
    if mcms != [] {
      var rest, m := mcms[..|mcms| - 1], mcms[|mcms| - 1];
      assert mcms == rest + [m];
      McmPlacesAre(first, rest);
      var p, x, y := McmCmds(rest), DeployMcmCmd(m), SetConfigCmd(m);
      assert McmCmds(mcms) == p + [x] + [y];
      AssignOneMore(first, p, x);
      AssignOneMore(first, p + [x], y);
      RefsInOneMore(p, x);
      RefsInOneMore(p + [x], y);
      assert McmRefs(mcms) == McmRefs(rest) + {m.ref};
    }
  }

  /** Under `Resumable`, the targets are on the chain once the MCMs are, owned by
      the deployer, and no two timelocks share one. */
  lemma TargetsReady(s: St, env: Env, cfg: ChainConfig, hasMCMS: bool)
    requires Resumable(s, env, cfg, hasMCMS)
    ensures
      var refs, own := McmPlaces(s.chain.next, cfg.mcms), AfterMcms(s.chain, env.deployer, cfg.mcms).ownables;
      && refs.Keys == McmRefs(cfg.mcms)
      && AllResolvable(cfg.timelocks, refs)
      && Disjoint(cfg.timelocks, refs) && AllOwned(own, env, refs, cfg.timelocks)
  {
    var first, mcms := s.chain.next, cfg.mcms;
    McmPlacesAre(first, mcms);
    var refs, own := McmPlaces(first, mcms), AfterMcms(s.chain, env.deployer, mcms).ownables;
    AllResolve(cfg.timelocks, refs, McmRefs(mcms), hasMCMS);
    McmsKeep(s.chain, env.deployer, mcms);
    forall tl, a | tl in cfg.timelocks && a in Targets(tl, refs)
      ensures a in own && own[a].owner == env.deployer
    {
      var h :| h in tl.transferOwnership && ResolveHolder(h, refs) == Some(a);
      TargetOwned(s, env, cfg, hasMCMS, tl, h);
    }
    forall i, j | 0 <= i < j < |cfg.timelocks|
      ensures Targets(cfg.timelocks[i], refs) !! Targets(cfg.timelocks[j], refs)
    {
      TargetsApart(s, env, cfg, hasMCMS, cfg.timelocks[i], cfg.timelocks[j]);
    }
  }

  /** A target is the place of a declared MCM, or an address owned by the deployer. */
  lemma TargetPlace(s: St, env: Env, cfg: ChainConfig, hasMCMS: bool, tl: TimelockSpec, h: RoleHolder)
    requires Resumable(s, env, cfg, hasMCMS) && tl in cfg.timelocks && h in tl.transferOwnership
    ensures
      var refs := McmPlaces(s.chain.next, cfg.mcms);
      if h.mcmRef != "" then h.address.None? && h.mcmRef in refs && refs[h.mcmRef] >= s.chain.next
      else
        && h.address.Some? && h.address.value in s.chain.ownables && h.address.value < s.chain.next
        && s.chain.ownables[h.address.value].owner == env.deployer
  {
    hide OutsideOwned, ClaimedOnce;
    assert ValidTimelock(tl, McmRefs(cfg.mcms), hasMCMS) && ValidHolder(h, McmRefs(cfg.mcms));
    McmPlacesAre(s.chain.next, cfg.mcms);
    AssignKeys(s.chain.next, McmCmds(cfg.mcms));
    OutsideTarget(s, env, cfg, tl, h);
  }

  lemma OutsideTarget(s: St, env: Env, cfg: ChainConfig, tl: TimelockSpec, h: RoleHolder)
    requires OutsideOwned(cfg, env, s.chain.ownables) && tl in cfg.timelocks && h in tl.transferOwnership
    ensures h.mcmRef == "" && h.address.Some? ==>
      h.address.value in s.chain.ownables && s.chain.ownables[h.address.value].owner == env.deployer
  {}

  lemma TargetOwned(s: St, env: Env, cfg: ChainConfig, hasMCMS: bool, tl: TimelockSpec, h: RoleHolder)
    requires Resumable(s, env, cfg, hasMCMS) && tl in cfg.timelocks && h in tl.transferOwnership
    ensures
      var refs, own := McmPlaces(s.chain.next, cfg.mcms), AfterMcms(s.chain, env.deployer, cfg.mcms).ownables;
      var a := ResolveHolder(h, refs);
      a.Some? && a.value in own && own[a.value].owner == env.deployer
  {
    hide McmPlaces, AfterMcms;
    TargetPlace(s, env, cfg, hasMCMS, tl, h);
    McmPlacesAre(s.chain.next, cfg.mcms);
    hide Resumable;
    if h.mcmRef != "" {
      var i :| 0 <= i < |cfg.mcms| && cfg.mcms[i].ref == h.mcmRef;
      McmsOf(s.chain, env.deployer, cfg.mcms, i);
    } else {
      McmsKeep(s.chain, env.deployer, cfg.mcms);
    }
  }

  lemma TargetsApart(s: St, env: Env, cfg: ChainConfig, hasMCMS: bool, tl: TimelockSpec, tl': TimelockSpec)
    requires Resumable(s, env, cfg, hasMCMS) && tl in cfg.timelocks && tl' in cfg.timelocks && tl.ref != tl'.ref
    ensures
      var refs := McmPlaces(s.chain.next, cfg.mcms);
      Targets(tl, refs) !! Targets(tl', refs)
  {
    var refs := McmPlaces(s.chain.next, cfg.mcms);
    forall h, h' | h in tl.transferOwnership && h' in tl'.transferOwnership
      ensures ResolveHolder(h, refs) != ResolveHolder(h', refs)
    {
      HoldersApart(s, env, cfg, hasMCMS, tl, h, tl', h');
    }
    hide Resumable;
  }

  lemma HoldersApart(s: St, env: Env, cfg: ChainConfig, hasMCMS: bool, tl: TimelockSpec, h: RoleHolder,
                     tl': TimelockSpec, h': RoleHolder)
    requires Resumable(s, env, cfg, hasMCMS) && tl in cfg.timelocks && tl' in cfg.timelocks && tl.ref != tl'.ref
    requires h in tl.transferOwnership && h' in tl'.transferOwnership
    ensures
      var refs := McmPlaces(s.chain.next, cfg.mcms);
      ResolveHolder(h, refs) != ResolveHolder(h', refs)
  {
    hide OutsideOwned, CleanStart;
    McmCmdsFresh(cfg.mcms);
    AssignInjective(s.chain.next, McmCmds(cfg.mcms));
    TargetPlace(s, env, cfg, hasMCMS, tl, h);
    TargetPlace(s, env, cfg, hasMCMS, tl', h');
    assert h != h';
    hide ValidChainConfig, ClaimedOnce;
    var refs := McmPlaces(s.chain.next, cfg.mcms);
    assert refs == Assign(s.chain.next, McmCmds(cfg.mcms));
    assert h.mcmRef != "" && h'.mcmRef != "" && refs[h.mcmRef] == refs[h'.mcmRef] ==> h.mcmRef == h'.mcmRef;
    assert h.mcmRef == h'.mcmRef ==> h.address != h'.address;
  }

  // ----- where the timelocks are

  lemma {:induction false} PlainPlaces(first: Address, p: seq<Cmd>, q: seq<Cmd>)
    requires NoDeploy(q)
    ensures Assign(first, p + q) == Assign(first, p) && Created(p + q) == Created(p)
  {
    if q == [] {
      assert p + q == p;
    } else {
      var rest, last := q[..|q| - 1], q[|q| - 1];
      assert q == rest + [last] && p + q == (p + rest) + [last];
      assert last in q && forall c :: c in rest ==> c in q;
      PlainPlaces(first, p, rest);
      AssignOneMore(first, p + rest, last);
      RefsInOneMore(p + rest, last);
    }
  }

  lemma OneTimelockPlaces(first: Address, env: Env, p: seq<Cmd>, tl: TimelockSpec)
    ensures
      var q := p + TimelockCmds(env, tl);
      Assign(first, q) == Assign(first, p)[tl.ref := first + Created(p)] && Created(q) == Created(p) + Width(env, tl)
  {
    hide TimelockCmds, WiringCmds, Assign, Created;
    WiringShape(env, tl);
    var x, y, wiring := DeployTimelockCmd(tl), DeployProxyCmd(tl), WiringCmds(env, tl);
    AssignOneMore(first, p, x);
    RefsInOneMore(p, x);
    AssignOneMore(first, p + [x], y);
    RefsInOneMore(p + [x], y);
    if ShouldDeployCallProxy(env.callProxies, tl.ref) {
      assert p + TimelockCmds(env, tl) == p + [x] + [y] + wiring;
      PlainPlaces(first, p + [x] + [y], wiring);
    } else {
      assert p + TimelockCmds(env, tl) == p + [x] + wiring;
      PlainPlaces(first, p + [x], wiring);
    }
  }

  lemma {:induction false} TimelockPlacesAre(first: Address, env: Env, p: seq<Cmd>, timelocks: seq<TimelockSpec>)
    requires forall i, j :: 0 <= i < j < |timelocks| ==> timelocks[i].ref != timelocks[j].ref
    ensures
      var q := p + AllTimelockCmds(env, timelocks);
      Created(q) == Created(p) + Widths(env, timelocks)
        && Placed(env, timelocks, first + Created(p), Assign(first, p).Keys, Assign(first, q))
  {
    hide TimelockCmds, Assign, Created, AllTimelockCmds, TimelockAddress, Widths, Width, Placed, TimelockRefs;
    AllTimelockCmdsShape(env, timelocks);
    WidthsOneMore(env, timelocks);
    if timelocks == [] {
      assert p + [] == p;
      NonePlaced(env, first + Created(p), Assign(first, p));
    } else {
      var n := |timelocks| - 1;
      var rest, tl := timelocks[..n], timelocks[n];
      TimelockPlacesAre(first, env, p, rest);
      var q := p + AllTimelockCmds(env, rest);
      OneTimelockPlaces(first, env, q, tl);
      assert q + TimelockCmds(env, tl) == p + AllTimelockCmds(env, timelocks);
      PlacesOneMore(env, timelocks, first + Created(p), Assign(first, p).Keys, Assign(first, q));
    }
  }

  lemma NonePlaced(env: Env, first: Address, all: map<string, Address>)
    ensures Placed(env, [], first, all.Keys, all)
  {}

  lemma WidthsOneMore(env: Env, timelocks: seq<TimelockSpec>)
    ensures timelocks == [] ==> Widths(env, timelocks) == 0
    ensures timelocks != [] ==>
      Widths(env, timelocks) == Widths(env, timelocks[..|timelocks| - 1]) + Width(env, timelocks[|timelocks| - 1])
  {}

  predicate Placed(env: Env, timelocks: seq<TimelockSpec>, first: Address, keys: set<string>,
                   all: map<string, Address>) {
    && all.Keys == keys + TimelockRefs(timelocks)
    && forall i :: 0 <= i < |timelocks| ==> all[timelocks[i].ref] == TimelockAddress(env, first, timelocks, i)
  }

  lemma RefsOneMore(timelocks: seq<TimelockSpec>)
    requires timelocks != []
    ensures
      var n := |timelocks| - 1;
      && TimelockRefs(timelocks) == TimelockRefs(timelocks[..n]) + {timelocks[n].ref}
      && forall i :: 0 <= i < n ==> timelocks[..n][i].ref in TimelockRefs(timelocks[..n])
  {
    var n := |timelocks| - 1;
    assert timelocks == timelocks[..n] + [timelocks[n]];
  }

  lemma PlacesOneMore(env: Env, timelocks: seq<TimelockSpec>, first: Address, keys: set<string>,
                      all: map<string, Address>)
    requires timelocks != [] && forall i, j :: 0 <= i < j < |timelocks| ==> timelocks[i].ref != timelocks[j].ref
    requires Placed(env, timelocks[..|timelocks| - 1], first, keys, all)
    ensures
      var n := |timelocks| - 1;
      Placed(env, timelocks, first, keys, all[timelocks[n].ref := first + Widths(env, timelocks[..n])])
  {
    hide TimelockAddress, Widths, TimelockRefs;
    var n := |timelocks| - 1;
    var rest := timelocks[..n];
    RefsOneMore(timelocks);
    AddressesOfRest(env, first, timelocks);
    assert forall i :: 0 <= i < n ==>
      rest[i] == timelocks[i] && all[rest[i].ref] == TimelockAddress(env, first, timelocks, i);
  }

  lemma AddressesOfRest(env: Env, first: Address, timelocks: seq<TimelockSpec>)
    requires timelocks != []
    ensures
      var n := |timelocks| - 1;
      && (forall i :: 0 <= i < n ==>
            TimelockAddress(env, first, timelocks[..n], i) == TimelockAddress(env, first, timelocks, i))
      && TimelockAddress(env, first, timelocks, n) == first + Widths(env, timelocks[..n])
  {
    var n := |timelocks| - 1;
    assert forall i :: 0 <= i < n ==> timelocks[..n][..i] == timelocks[..i];
  }

  // ----- the outcome

  /** The chain, addresses and batches of a completed run, as functions of its start. */
  lemma RunOutcome(s: St, env: Env, cfg: ChainConfig, hasMCMS: bool)
    requires Resumable(s, env, cfg, hasMCMS) && Run(s, env, cfg).1.Done?
    ensures
      var (s', o) := Run(s, env, cfg);
      var first, refs := s.chain.next, McmPlaces(s.chain.next, cfg.mcms);
      var c := AfterMcms(s.chain, env.deployer, cfg.mcms);
      && AllResolvable(cfg.timelocks, refs)
      && s'.chain == AfterTimelocks(c, env, refs, cfg.timelocks)
      && o.value.refToAddr == Assign(first, Program(env, cfg)) && FreshRefs(Program(env, cfg))
      && o.value.addresses == McmAddresses(env, first, cfg.mcms)
           + AllTimelockAddresses(env, first + |cfg.mcms|, cfg.timelocks)
      && o.value.batchOps == Batches(c.ownables, env, refs, cfg.timelocks)
      && (forall tl :: tl in cfg.timelocks ==> Targets(tl, refs) <= c.ownables.Keys)
  {
    hide Run, Program, Fold, FreshRefs, Resumable, Inv, McmsPlaced, GoodTimelocks, Disjoint, AllOwned, AllTimelockCmds,
      McmCmds, AfterMcms, AfterTimelocks,
      Batches, AllResolvable, McmAddresses, AllTimelockAddresses, Assign, AfterMcms, Targets;
    var p := McmCmds(cfg.mcms);
    RunParts(s, env, cfg);
    ProgramParts(env, cfg);
    McmsReady(s, env, cfg, hasMCMS);
    TargetsReady(s, env, cfg, hasMCMS);
    var (s1, o1) := Fold(s, env, START, p);
    TimelocksPhase(s.chain.next, env, p, s1, o1.value, cfg.timelocks, McmRefs(cfg.mcms), hasMCMS);
    PlacesKnown(s, env, cfg, s1, o1.value, Run(s, env, cfg).0, Run(s, env, cfg).1.value);
    assert forall x: seq<BatchOp> :: [] + x == x;
  }

  lemma PlacesKnown(s: St, env: Env, cfg: ChainConfig, s1: St, l1: Local, s2: St, l2: Local)
    requires Inv(s.chain.next, env, McmCmds(cfg.mcms), s1, l1) && Inv(s.chain.next, env, Program(env, cfg), s2, l2)
    ensures l1.refToAddr == McmPlaces(s.chain.next, cfg.mcms) && l2.refToAddr == Assign(s.chain.next, Program(env, cfg))
  {}

  lemma RunParts(s: St, env: Env, cfg: ChainConfig)
    ensures Run(s, env, cfg) == Then(Fold(s, env, START, McmCmds(cfg.mcms)), env, AllTimelockCmds(env, cfg.timelocks))
  {
    FoldJoin(s, env, START, McmCmds(cfg.mcms), AllTimelockCmds(env, cfg.timelocks));
  }

  lemma McmsReady(s: St, env: Env, cfg: ChainConfig, hasMCMS: bool)
    requires Resumable(s, env, cfg, hasMCMS) && Fold(s, env, START, McmCmds(cfg.mcms)).1.Done?
    ensures
      var p, first := McmCmds(cfg.mcms), s.chain.next;
      var (s1, o1) := Fold(s, env, START, p);
      && Inv(first, env, p, s1, o1.value) && McmsPlaced(p, o1.value, McmRefs(cfg.mcms))
      && o1.value.refToAddr == McmPlaces(first, cfg.mcms)
      && s1.chain == AfterMcms(s.chain, env.deployer, cfg.mcms) && s1.chain.next == first + |cfg.mcms|
      && o1.value.addresses == McmAddresses(env, first, cfg.mcms) && o1.value.batchOps == []
      && GoodTimelocks(cfg.timelocks, McmRefs(cfg.mcms), hasMCMS)
  {
    hide Fold, FreshRefs, OutsideOwned, ClaimedOnce, CleanStart, McmCmds, AfterMcms;
    McmCmdsFresh(cfg.mcms);
    McmPlacesAre(s.chain.next, cfg.mcms);
    McmPhase(s, env, cfg.mcms);
  }

  /** A contract of the final chain before ownership moved: as it was, or a new MCM. */
  function Owned(c: Chain, env: Env, a: Address): Ownable {
    if a in c.ownables then c.ownables[a] else Ownable(env.deployer, None, true)
  }

  /** Distinct refs have distinct new addresses, and nothing else was created. */
  predicate DeployedOnce(c: Chain, env: Env, cfg: ChainConfig, c': Chain, refs: map<string, Address>) {
    && refs.Keys == McmRefs(cfg.mcms) + TimelockRefs(cfg.timelocks)
    && (forall r, r' :: r in refs && r' in refs && r != r' ==> refs[r] != refs[r'])
    && (forall i :: 0 <= i < |cfg.mcms| ==> refs[cfg.mcms[i].ref] == c.next + i)
    && (forall i :: 0 <= i < |cfg.timelocks| ==>
          refs[cfg.timelocks[i].ref] == TimelockAddress(env, c.next + |cfg.mcms|, cfg.timelocks, i))
    && c'.next == c.next + |cfg.mcms| + Widths(env, cfg.timelocks)
  }

  /** Every MCM holds its config. */
  predicate McmsWired(cfg: ChainConfig, c': Chain, refs: map<string, Address>)
    requires McmRefs(cfg.mcms) <= refs.Keys
  {
    forall i :: 0 <= i < |cfg.mcms| ==>
      refs[cfg.mcms[i].ref] in c'.configs && c'.configs[refs[cfg.mcms[i].ref]] == Some(cfg.mcms[i].config)
  }

  /** A timelock has exactly its role matrix, and its call proxy if it wants one. */
  predicate TimelockWired(env: Env, tl: TimelockSpec, c': Chain, refs: map<string, Address>)
    requires tl.ref in refs && TimelockResolvable(tl, refs)
  {
    var t := refs[tl.ref];
    && t in c'.tables && c'.tables[t] == RoleMatrix(env, refs, tl, t)
    && (!SwitchedOff(env, tl) ==> t + 1 in c'.proxies && c'.proxies[t + 1] == t)
  }

  /** The tables of any other timelock are as they were, and so are the configs and
      proxies that were there. */
  ghost predicate OthersKept(c: Chain, cfg: ChainConfig, c': Chain, refs: map<string, Address>)
    requires TimelockRefs(cfg.timelocks) <= refs.Keys
  {
    && (forall t :: (forall i :: 0 <= i < |cfg.timelocks| ==> t != refs[cfg.timelocks[i].ref]) ==>
          (t in c'.tables <==> t in c.tables) && (t in c.tables ==> c'.tables[t] == c.tables[t]))
    && (forall a :: a < c.next ==>
          (a in c'.configs <==> a in c.configs) && (a in c.configs ==> c'.configs[a] == c.configs[a]))
    && (forall a :: a < c.next ==>
          (a in c'.proxies <==> a in c.proxies) && (a in c.proxies ==> c'.proxies[a] == c.proxies[a]))
  }

  ghost predicate Wired(c: Chain, env: Env, cfg: ChainConfig, c': Chain, refs: map<string, Address>)
    requires refs.Keys == McmRefs(cfg.mcms) + TimelockRefs(cfg.timelocks)
    requires AllResolvable(cfg.timelocks, refs)
  {
    && McmsWired(cfg, c', refs)
    && (forall i :: 0 <= i < |cfg.timelocks| ==> TimelockWired(env, cfg.timelocks[i], c', refs))
    && OthersKept(c, cfg, c', refs)
  }

  /** Every target is handed to the timelock that names it, at once or pending;
      nothing else changes hands. */
  predicate HandedOver(c: Chain, env: Env, cfg: ChainConfig, c': Chain, refs: map<string, Address>)
    requires refs.Keys == McmRefs(cfg.mcms) + TimelockRefs(cfg.timelocks)
  {
    && (forall i, a :: 0 <= i < |cfg.timelocks| && a in Targets(cfg.timelocks[i], refs) ==>
          a in c'.ownables && c'.ownables[a] == Transfer(Owned(c, env, a), env.deployer, refs[cfg.timelocks[i].ref]))
    && (forall a :: a in c.ownables && (forall tl :: tl in cfg.timelocks ==> a !in Targets(tl, refs)) ==>
          a in c'.ownables && c'.ownables[a] == c.ownables[a])
  }

  lemma RefsAre(s: St, env: Env, cfg: ChainConfig, hasMCMS: bool)
    requires ValidChainConfig(cfg, hasMCMS)
    ensures
      var first, refs := s.chain.next, Assign(s.chain.next, Program(env, cfg));
      && refs.Keys == McmRefs(cfg.mcms) + TimelockRefs(cfg.timelocks)
      && Sub(McmPlaces(first, cfg.mcms), refs) && McmPlaces(first, cfg.mcms).Keys == McmRefs(cfg.mcms)
      && (forall r, r' :: r in refs && r' in refs && r != r' ==> refs[r] != refs[r'])
      && (forall i :: 0 <= i < |cfg.mcms| ==> refs[cfg.mcms[i].ref] == first + i)
      && (forall i :: 0 <= i < |cfg.timelocks| ==>
            refs[cfg.timelocks[i].ref] == TimelockAddress(env, first + |cfg.mcms|, cfg.timelocks, i))
  {
    hide Program, FreshRefs, Assign, McmCmds, AllTimelockCmds, TimelockAddress, Created, Paired, GoodCmd, Owning, Sub,
      McmPlaces, ValidChainConfig;
    UniqueByRef(cfg, hasMCMS);
    var first, cmds, p := s.chain.next, Program(env, cfg), McmCmds(cfg.mcms);
    ProgramInjective(first, env, cfg, hasMCMS);
    McmsFirst(first, env, cfg, hasMCMS);
    McmPlacesAre(first, cfg.mcms);
    ProgramParts(env, cfg);
    TimelockPlacesAre(first, env, p, cfg.timelocks);
    PlacesInBoth(cfg, McmPlaces(first, cfg.mcms), Assign(first, cmds), first);
  }

  lemma UniqueByRef(cfg: ChainConfig, hasMCMS: bool)
    requires ValidChainConfig(cfg, hasMCMS)
    ensures forall i, j :: 0 <= i < j < |cfg.mcms| ==> cfg.mcms[i].ref != cfg.mcms[j].ref
    ensures forall i, j :: 0 <= i < j < |cfg.timelocks| ==> cfg.timelocks[i].ref != cfg.timelocks[j].ref
  {}

  lemma ProgramInjective(first: Address, env: Env, cfg: ChainConfig, hasMCMS: bool)
    requires ValidChainConfig(cfg, hasMCMS)
    ensures
      var refs := Assign(first, Program(env, cfg));
      forall r, r' :: r in refs && r' in refs && r != r' ==> refs[r] != refs[r']
  {
    hide Program, Assign, ValidChainConfig;
    ProgramShape(env, cfg, hasMCMS);
    AssignInjective(first, Program(env, cfg));
  }

  lemma McmsFirst(first: Address, env: Env, cfg: ChainConfig, hasMCMS: bool)
    requires ValidChainConfig(cfg, hasMCMS)
    ensures Sub(McmPlaces(first, cfg.mcms), Assign(first, Program(env, cfg)))
    ensures Assign(first, McmCmds(cfg.mcms)) == McmPlaces(first, cfg.mcms)
  {
    hide Program, Assign, ValidChainConfig, Sub;
    ProgramShape(env, cfg, hasMCMS);
    ProgramParts(env, cfg);
    AssignGrows(first, Program(env, cfg), |McmCmds(cfg.mcms)|);
  }

  lemma PlacesInBoth(cfg: ChainConfig, refs: map<string, Address>, all: map<string, Address>, first: Address)
    requires Sub(refs, all) && refs.Keys == McmRefs(cfg.mcms)
    requires forall i :: 0 <= i < |cfg.mcms| ==> refs[cfg.mcms[i].ref] == first + i
    ensures forall i :: 0 <= i < |cfg.mcms| ==> cfg.mcms[i].ref in all && all[cfg.mcms[i].ref] == first + i
  {
    forall i | 0 <= i < |cfg.mcms|
      ensures cfg.mcms[i].ref in all && all[cfg.mcms[i].ref] == first + i
    {
      assert cfg.mcms[i].ref in refs;
    }
  }

  lemma ProgramParts(env: Env, cfg: ChainConfig)
    ensures Program(env, cfg) == McmCmds(cfg.mcms) + AllTimelockCmds(env, cfg.timelocks)
    ensures Program(env, cfg)[..|McmCmds(cfg.mcms)|] == McmCmds(cfg.mcms)
  {}

  lemma ResolvedSame(cfg: ChainConfig, hasMCMS: bool, refs: map<string, Address>, all: map<string, Address>)
    requires ValidChainConfig(cfg, hasMCMS) && refs.Keys == McmRefs(cfg.mcms) && Sub(refs, all)
    ensures AllResolvable(cfg.timelocks, refs) && AllResolvable(cfg.timelocks, all)
    ensures forall tl :: tl in cfg.timelocks ==> Targets(tl, all) == Targets(tl, refs)
    ensures forall i, env, t :: 0 <= i < |cfg.timelocks| ==>
      RoleMatrix(env, all, cfg.timelocks[i], t) == RoleMatrix(env, refs, cfg.timelocks[i], t)
  {
    AllResolve(cfg.timelocks, refs, McmRefs(cfg.mcms), hasMCMS);
    AllResolve(cfg.timelocks, all, McmRefs(cfg.mcms), hasMCMS);
    forall i, env, t | 0 <= i < |cfg.timelocks|
      ensures RoleMatrix(env, all, cfg.timelocks[i], t) == RoleMatrix(env, refs, cfg.timelocks[i], t)
    {
      MatrixSame(env, cfg.timelocks[i], refs, all, McmRefs(cfg.mcms), hasMCMS, t);
    }
    forall tl | tl in cfg.timelocks
      ensures Targets(tl, all) == Targets(tl, refs)
    {
      MatrixSame(Env(0, ZERO, map[]), tl, refs, all, McmRefs(cfg.mcms), hasMCMS, ZERO);
    }
  }

  lemma MatrixSame(env: Env, tl: TimelockSpec, refs: map<string, Address>, all: map<string, Address>,
                   declared: set<string>, hasMCMS: bool, t: Address)
    requires ValidTimelock(tl, declared, hasMCMS) && declared <= refs.Keys && Sub(refs, all)
    ensures TimelockResolvable(tl, refs) && TimelockResolvable(tl, all)
    ensures RoleMatrix(env, all, tl, t) == RoleMatrix(env, refs, tl, t)
    ensures Targets(tl, all) == Targets(tl, refs)
  {
    ResolutionStable(tl.transferOwnership, declared, refs, all);
    ResolutionStable(tl.roles.proposers, declared, refs, all);
    ResolutionStable(tl.roles.cancellers, declared, refs, all);
    ResolutionStable(tl.roles.bypassers, declared, refs, all);
    ResolutionStable(tl.roles.executors, declared, refs, all);
    ResolutionStable(tl.roles.admins, declared, refs, all);
    TargetsAre(tl, refs);
    TargetsAre(tl, all);
  }

  /** The three descriptions, of one run. */
  lemma RunEffect(s: St, env: Env, cfg: ChainConfig, hasMCMS: bool)
    requires Resumable(s, env, cfg, hasMCMS) && Run(s, env, cfg).1.Done?
    ensures
      var (s', o) := Run(s, env, cfg);
      var refs := o.value.refToAddr;
      && DeployedOnce(s.chain, env, cfg, s'.chain, refs)
      && AllResolvable(cfg.timelocks, refs)
      && Wired(s.chain, env, cfg, s'.chain, refs)
      && HandedOver(s.chain, env, cfg, s'.chain, refs)
  {
    hide Run, DeployedOnce, Wired, HandedOver, AfterMcms, AfterTimelocks, McmPlaces, Assign, FreshRefs, OutsideOwned,
      ClaimedOnce, ValidChainConfig,
      TwoMaps, AllResolvable, Disjoint, AllOwned, Targets, Batches, McmAddresses, AllTimelockAddresses, Program;
    RunOutcome(s, env, cfg, hasMCMS);
    TargetsReady(s, env, cfg, hasMCMS);
    var refs, all := McmPlaces(s.chain.next, cfg.mcms), Assign(s.chain.next, Program(env, cfg));
    MapsAre(s, env, cfg, hasMCMS);
    DeployedOnceHolds(s, env, cfg, hasMCMS, refs, all);
    WiredHolds(s.chain, env, cfg, hasMCMS, refs, all);
    HandedOverHolds(s.chain, env, cfg, hasMCMS, refs, all);
  }

  lemma MapsAre(s: St, env: Env, cfg: ChainConfig, hasMCMS: bool)
    requires ValidChainConfig(cfg, hasMCMS)
    ensures
      var refs, all := McmPlaces(s.chain.next, cfg.mcms), Assign(s.chain.next, Program(env, cfg));
      && TwoMaps(s.chain.next, env, cfg, hasMCMS, refs, all)
      && AllResolvable(cfg.timelocks, refs) && AllResolvable(cfg.timelocks, all)
      && all.Keys == McmRefs(cfg.mcms) + TimelockRefs(cfg.timelocks)
  {
    hide ValidChainConfig, McmPlaces, Assign, Sub, AllResolvable, TimelockAddress;
    RefsAre(s, env, cfg, hasMCMS);
    ResolvedSame(cfg, hasMCMS, McmPlaces(s.chain.next, cfg.mcms), Assign(s.chain.next, Program(env, cfg)));
  }

  /** The two maps: MCM refs only, and all refs. */
  predicate TwoMaps(first: Address, env: Env, cfg: ChainConfig, hasMCMS: bool, refs: map<string, Address>,
                    all: map<string, Address>) {
    && ValidChainConfig(cfg, hasMCMS)
    && refs.Keys == McmRefs(cfg.mcms) && Sub(refs, all)
    && all.Keys == McmRefs(cfg.mcms) + TimelockRefs(cfg.timelocks)
    && (forall r, r' :: r in all && r' in all && r != r' ==> all[r] != all[r'])
    && (forall i :: 0 <= i < |cfg.mcms| ==> all[cfg.mcms[i].ref] == first + i)
    && (forall i :: 0 <= i < |cfg.timelocks| ==>
          all[cfg.timelocks[i].ref] == TimelockAddress(env, first + |cfg.mcms|, cfg.timelocks, i))
  }

  lemma DeployedOnceHolds(s: St, env: Env, cfg: ChainConfig, hasMCMS: bool, refs: map<string, Address>,
                          all: map<string, Address>)
    requires TwoMaps(s.chain.next, env, cfg, hasMCMS, refs, all) && AllResolvable(cfg.timelocks, refs)
    ensures DeployedOnce(s.chain, env, cfg,
      AfterTimelocks(AfterMcms(s.chain, env.deployer, cfg.mcms), env, refs, cfg.timelocks), all)
  {
    hide AfterMcms, AfterTimelocks;
    McmsKeep(s.chain, env.deployer, cfg.mcms);
    SameOutside(AfterMcms(s.chain, env.deployer, cfg.mcms), env, refs, cfg.timelocks);
  }

  lemma McmsWiredHolds(c: Chain, env: Env, cfg: ChainConfig, hasMCMS: bool, refs: map<string, Address>,
                       all: map<string, Address>)
    requires TwoMaps(c.next, env, cfg, hasMCMS, refs, all) && AllResolvable(cfg.timelocks, refs)
    ensures McmsWired(cfg, AfterTimelocks(AfterMcms(c, env.deployer, cfg.mcms), env, refs, cfg.timelocks), all)
  {
    hide AfterMcms, AfterTimelocks, TimelockAddress, Sub, ValidChainConfig, AllResolvable, Targets, SameKinds, Widths;
    SameOutside(AfterMcms(c, env.deployer, cfg.mcms), env, refs, cfg.timelocks);
    forall i | 0 <= i < |cfg.mcms|
      ensures
        var configs := AfterMcms(c, env.deployer, cfg.mcms).configs;
        all[cfg.mcms[i].ref] in configs && configs[all[cfg.mcms[i].ref]] == Some(cfg.mcms[i].config)
    {
      McmsOf(c, env.deployer, cfg.mcms, i);
    }
  }

  lemma TimelockWiredHolds(c: Chain, c1: Chain, env: Env, cfg: ChainConfig, hasMCMS: bool, refs: map<string, Address>,
                           all: map<string, Address>, i: nat)
    requires TwoMaps(c.next, env, cfg, hasMCMS, refs, all) && c1.next == c.next + |cfg.mcms|
    requires AllResolvable(cfg.timelocks, refs) && AllResolvable(cfg.timelocks, all) && i < |cfg.timelocks|
    ensures TimelockWired(env, cfg.timelocks[i], AfterTimelocks(c1, env, refs, cfg.timelocks), all)
  {
    hide AfterTimelocks, RoleMatrix, TimelockAddress, Sub, ValidChainConfig;
    var t := all[cfg.timelocks[i].ref];
    ResolvedSame(cfg, hasMCMS, refs, all);
    TablesOf(c1, env, refs, cfg.timelocks, t);
    if !SwitchedOff(env, cfg.timelocks[i]) {
      ProxiesOf(c1, env, refs, cfg.timelocks, i);
    }
  }

  lemma {:induction false} ProxiesKept(c: Chain, env: Env, refs: map<string, Address>, timelocks: seq<TimelockSpec>)
    requires AllResolvable(timelocks, refs)
    ensures
      var proxies := AfterTimelocks(c, env, refs, timelocks).proxies;
      forall a :: a < c.next ==> (a in proxies <==> a in c.proxies) && (a in c.proxies ==> proxies[a] == c.proxies[a])
  {
    hide RoleMatrix, AfterTimelocks, TimelockAddress;
    if timelocks == [] {
      NoTimelock(c, env, refs);
    } else {
      OneTimelockMore(c, env, refs, timelocks);
      ProxiesKept(c, env, refs, timelocks[..|timelocks| - 1]);
      AddressesFrom(env, c.next, timelocks);
    }
  }

  lemma AddressesFrom(env: Env, first: Address, timelocks: seq<TimelockSpec>)
    requires timelocks != []
    ensures TimelockAddress(env, first, timelocks, |timelocks| - 1) >= first
  {}

  lemma OthersKeptHolds(c: Chain, c1: Chain, env: Env, cfg: ChainConfig, hasMCMS: bool, refs: map<string, Address>,
                        all: map<string, Address>)
    requires TwoMaps(c.next, env, cfg, hasMCMS, refs, all) && AllResolvable(cfg.timelocks, refs)
    requires c1 == AfterMcms(c, env.deployer, cfg.mcms)
    ensures OthersKept(c, cfg, AfterTimelocks(c1, env, refs, cfg.timelocks), all)
  {
    hide AfterMcms, AfterTimelocks, RoleMatrix, TimelockAddress, Sub, ValidChainConfig, AllResolvable, SameKinds,
      Targets, Widths;
    var c2 := AfterTimelocks(c1, env, refs, cfg.timelocks);
    McmsKeep(c, env.deployer, cfg.mcms);
    SameOutside(c1, env, refs, cfg.timelocks);
    ProxiesKept(c1, env, refs, cfg.timelocks);
    forall t | forall i :: 0 <= i < |cfg.timelocks| ==> t != all[cfg.timelocks[i].ref]
      ensures (t in c2.tables <==> t in c.tables) && (t in c.tables ==> c2.tables[t] == c.tables[t])
    {
      TablesOf(c1, env, refs, cfg.timelocks, t);
    }
  }

  lemma WiredHolds(c: Chain, env: Env, cfg: ChainConfig, hasMCMS: bool, refs: map<string, Address>,
                   all: map<string, Address>)
    requires TwoMaps(c.next, env, cfg, hasMCMS, refs, all)
    requires AllResolvable(cfg.timelocks, refs) && AllResolvable(cfg.timelocks, all)
    ensures Wired(c, env, cfg, AfterTimelocks(AfterMcms(c, env.deployer, cfg.mcms), env, refs, cfg.timelocks), all)
  {
    hide AfterMcms, AfterTimelocks, Sub, ValidChainConfig, TimelockWired, OthersKept, McmsWired;
    var c1 := AfterMcms(c, env.deployer, cfg.mcms);
    McmsKeep(c, env.deployer, cfg.mcms);
    McmsWiredHolds(c, env, cfg, hasMCMS, refs, all);
    OthersKeptHolds(c, c1, env, cfg, hasMCMS, refs, all);
    forall i | 0 <= i < |cfg.timelocks|
      ensures TimelockWired(env, cfg.timelocks[i], AfterTimelocks(c1, env, refs, cfg.timelocks), all)
    {
      TimelockWiredHolds(c, c1, env, cfg, hasMCMS, refs, all, i);
    }
  }

  lemma {:induction false} McmsOwned(c: Chain, env: Env, mcms: seq<MCMSpec>, a: Address)
    requires ValidChain(c) && a in AfterMcms(c, env.deployer, mcms).ownables
    ensures AfterMcms(c, env.deployer, mcms).ownables[a] == Owned(c, env, a)
  {
    McmsKeep(c, env.deployer, mcms);
    if mcms != [] {
      var rest := mcms[..|mcms| - 1];
      McmsKeep(c, env.deployer, rest);
      if a != c.next + |rest| {
        McmsOwned(c, env, rest, a);
      }
    }
  }

  lemma HandedOverHolds(c: Chain, env: Env, cfg: ChainConfig, hasMCMS: bool, refs: map<string, Address>,
                        all: map<string, Address>)
    requires TwoMaps(c.next, env, cfg, hasMCMS, refs, all) && ValidChain(c)
    requires AllResolvable(cfg.timelocks, refs) && Disjoint(cfg.timelocks, refs)
    requires forall tl :: tl in cfg.timelocks ==>
      Targets(tl, refs) <= AfterMcms(c, env.deployer, cfg.mcms).ownables.Keys
    ensures HandedOver(c, env, cfg, AfterTimelocks(AfterMcms(c, env.deployer, cfg.mcms), env, refs, cfg.timelocks), all)
  {
    hide AfterMcms, AfterTimelocks, TimelockAddress, Sub, ValidChainConfig, Targets, Disjoint, AllResolvable, Transfer,
      Owned;
    var c1 := AfterMcms(c, env.deployer, cfg.mcms);
    var c2 := AfterTimelocks(c1, env, refs, cfg.timelocks);
    McmsKeep(c, env.deployer, cfg.mcms);
    SameOutside(c1, env, refs, cfg.timelocks);
    ResolvedSame(cfg, hasMCMS, refs, all);
    forall i, a | 0 <= i < |cfg.timelocks| && a in Targets(cfg.timelocks[i], all)
      ensures a in c2.ownables && c2.ownables[a] == Transfer(Owned(c, env, a), env.deployer, all[cfg.timelocks[i].ref])
    {
      assert Targets(cfg.timelocks[i], all) == Targets(cfg.timelocks[i], refs);
      OwnershipMoves(c1, env, refs, cfg.timelocks, i, a);
      McmsOwned(c, env, cfg.mcms, a);
    }
  }

  /** Memoised resumption: any series of runs over one report store, interrupted,
      failed or completed, that a completed run ends, has deployed every MCM, timelock
      and requested call proxy exactly once, wired every role exactly, and handed
      over every target. */
  lemma SeriesOutcome(s: St, env: Env, cfg: ChainConfig, hasMCMS: bool, budgets: seq<nat>, last: nat)
    requires Resumable(s, env, cfg, hasMCMS)
    requires Run(With(After(s, env, cfg, budgets), last), env, cfg).1.Done?
    ensures
      var (s', o) := Run(With(After(s, env, cfg, budgets), last), env, cfg);
      var refs := o.value.refToAddr;
      && DeployedOnce(s.chain, env, cfg, s'.chain, refs)
      && AllResolvable(cfg.timelocks, refs)
      && Wired(s.chain, env, cfg, s'.chain, refs)
      && HandedOver(s.chain, env, cfg, s'.chain, refs)
  {
    hide Run, After, DeployedOnce, Wired, HandedOver, AllResolvable;
    SeriesIsOneRun(s, env, cfg, hasMCMS, budgets, last);
    RunEffect(With(s, Sum(budgets) + last), env, cfg, hasMCMS);
  }
}
