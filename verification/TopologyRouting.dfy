/** Routing the accept-ownership batches of all chains back to one proposal per
    timelock qualifier, by looking up which addresses each qualifier's timelocks
    asked to receive. */
module TopologyRouting {
  import opened Wrappers
  import opened Evm
  import opened Topology
  import opened TopologyRun

  type Configs = map<nat, ChainConfig>

  // ----- the code's lookups

  predicate RefMatches(r: AddressRef, selector: nat, m: MCMSpec) {
    r.selector == selector && r.qualifier == m.qualifier && r.contractType == m.contractType
  }

  function FirstSpec(mcms: seq<MCMSpec>, ref: string): Option<MCMSpec> {
    if mcms == [] then None else if mcms[0].ref == ref then Some(mcms[0]) else FirstSpec(mcms[1..], ref)
  }

  function FirstAddress(addresses: seq<AddressRef>, selector: nat, m: MCMSpec): Option<Address> {
    if addresses == [] then None
    else if RefMatches(addresses[0], selector, m) then Some(addresses[0].address)
    else FirstAddress(addresses[1..], selector, m)
  }

  /** The address a holder is looked up by, in the deployed addresses. */
  function LookupHolder(selector: nat, h: RoleHolder, mcms: seq<MCMSpec>, addresses: seq<AddressRef>): Option<Address> {
    if h.address.Some? then h.address
    else
      match FirstSpec(mcms, h.mcmRef)
      case None => None
      case Some(m) => FirstAddress(addresses, selector, m)
  }

  function LookupTargets(selector: nat, cfg: ChainConfig, addresses: seq<AddressRef>, qualifier: string): set<Address> {
    set tl, h | tl in cfg.timelocks && tl.qualifier == qualifier && h in tl.transferOwnership
      && LookupHolder(selector, h, cfg.mcms, addresses).Some?
      :: LookupHolder(selector, h, cfg.mcms, addresses).value
  }

  predicate Meets(op: BatchOp, targets: set<Address>) {
    exists tx :: tx in op.transactions && tx in targets
  }

  predicate Belongs(op: BatchOp, addresses: seq<AddressRef>, cfgs: Configs, qualifier: string) {
    op.selector in cfgs && Meets(op, LookupTargets(op.selector, cfgs[op.selector], addresses, qualifier))
  }

  /** The batches of a qualifier's proposal, in their order. */
  function Routed(ops: seq<BatchOp>, addresses: seq<AddressRef>, cfgs: Configs, qualifier: string): seq<BatchOp> {
    if ops == [] then []
    else
      var rest, op := ops[..|ops| - 1], ops[|ops| - 1];
      Routed(rest, addresses, cfgs, qualifier) + if Belongs(op, addresses, cfgs, qualifier) then [op] else []
  }

  method ResolveRoleHolderAddress(selector: nat, h: RoleHolder, mcms: seq<MCMSpec>, addresses: seq<AddressRef>)
    returns (r: Option<Address>)
    ensures r == LookupHolder(selector, h, mcms, addresses)
  {
    if h.address.Some? {
      return h.address;
    }
    var spec: Option<MCMSpec> := None;
    var i := 0;
    assert mcms[0..] == mcms;
    while i < |mcms| && spec.None?
      invariant 0 <= i <= |mcms|
      invariant spec.None? ==> FirstSpec(mcms, h.mcmRef) == FirstSpec(mcms[i..], h.mcmRef)
      invariant spec.Some? ==> FirstSpec(mcms, h.mcmRef) == spec
    {
      if mcms[i].ref == h.mcmRef {
        spec := Some(mcms[i]);
      }
      i := i + 1;
    }
    if spec.None? {
      return None;
    }
    assert addresses[0..] == addresses;
    for j := 0 to |addresses|
      invariant FirstAddress(addresses, selector, spec.value) == FirstAddress(addresses[j..], selector, spec.value)
    {
      if RefMatches(addresses[j], selector, spec.value) {
        return Some(addresses[j].address);
      }
    }
    return None;
  }

  method TransferTargetAddressesForQualifier(selector: nat, cfg: ChainConfig, addresses: seq<AddressRef>,
                                             qualifier: string)
    returns (targets: set<Address>)
    ensures targets == LookupTargets(selector, cfg, addresses, qualifier)
  {
    targets := {};
    for i := 0 to |cfg.timelocks|
      invariant forall a :: a in targets <==>
        exists k, h ::
          0 <= k < i && cfg.timelocks[k].qualifier == qualifier && h in cfg.timelocks[k].transferOwnership
            && LookupHolder(selector, h, cfg.mcms, addresses) == Some(a)
    {
      var tl := cfg.timelocks[i];
      if tl.qualifier != qualifier || |tl.transferOwnership| == 0 {
        continue;
      }
      ghost var before := targets;
      for j := 0 to |tl.transferOwnership|
        invariant forall a :: a in targets <==>
          a in before || exists n ::
            0 <= n < j && LookupHolder(selector, tl.transferOwnership[n], cfg.mcms, addresses) == Some(a)
      {
        var addr := ResolveRoleHolderAddress(selector, tl.transferOwnership[j], cfg.mcms, addresses);
        if addr.Some? {
          targets := targets + {addr.value};
        }
      }
      assert forall a :: a in targets <==>
        a in before || exists h ::
          h in tl.transferOwnership && LookupHolder(selector, h, cfg.mcms, addresses) == Some(a);
    }
  }

  method BatchOpMatchesTargets(op: BatchOp, targets: set<Address>) returns (ok: bool)
    ensures ok <==> Meets(op, targets)
  {
    for i := 0 to |op.transactions|
      invariant forall j :: 0 <= j < i ==> op.transactions[j] !in targets
    {
      if op.transactions[i] in targets {
        return true;
      }
    }
    return false;
  }

  method BatchOpsForQualifier(batchOps: seq<BatchOp>, addresses: seq<AddressRef>, cfgs: Configs, qualifier: string)
    returns (ops: seq<BatchOp>)
    ensures ops == Routed(batchOps, addresses, cfgs, qualifier)
  {
    ops := [];
    for i := 0 to |batchOps|
      invariant ops == Routed(batchOps[..i], addresses, cfgs, qualifier)
    {
      assert batchOps[..i + 1][..i] == batchOps[..i];
      var op := batchOps[i];
      if op.selector !in cfgs {
        continue;
      }
      var targets := TransferTargetAddressesForQualifier(op.selector, cfgs[op.selector], addresses, qualifier);
      if |targets| == 0 {
        continue;
      }
      var matches := BatchOpMatchesTargets(op, targets);
      if matches {
        ops := ops + [op];
      }
    }
    assert batchOps[..|batchOps|] == batchOps;
  }

  // ----- proposals

  datatype Proposal = Proposal(qualifier: string, ops: seq<BatchOp>)

  /** The qualifiers of timelocks that were asked to receive contracts. */
  function QualifiersWithTransfers(cfgs: Configs): set<string> {
    set k, tl | k in cfgs && tl in cfgs[k].timelocks && tl.transferOwnership != [] :: tl.qualifier
  }

  method CollectQualifiers(cfgs: Configs) returns (seen: set<string>)
    ensures seen == QualifiersWithTransfers(cfgs)
  {
    seen := {};
    var todo := cfgs.Keys;
    while todo != {}
      invariant todo <= cfgs.Keys
      invariant seen == set k, tl | k in cfgs && k !in todo && tl in cfgs[k].timelocks && tl.transferOwnership != [] ::
        tl.qualifier
      decreases |todo|
    {
      var k :| k in todo;
      ghost var before := seen;
      var timelocks := cfgs[k].timelocks;
      for i := 0 to |timelocks|
        invariant seen == before + set n | 0 <= n < i && timelocks[n].transferOwnership != [] :: timelocks[n].qualifier
      {
        if |timelocks[i].transferOwnership| != 0 {
          seen := seen + {timelocks[i].qualifier};
        }
      }
      todo := todo - {k};
      assert forall q :: q in seen <==>
        q in before || exists tl :: tl in timelocks && tl.transferOwnership != [] && tl.qualifier == q;
    }
  }

  /** One proposal for each qualifier that has batches. */
  function Proposals(order: seq<string>, ops: seq<BatchOp>, addresses: seq<AddressRef>, cfgs: Configs): seq<Proposal> {
    if order == [] then []
    else
      var n := |order| - 1;
      var routed := Routed(ops, addresses, cfgs, order[n]);
      Proposals(order[..n], ops, addresses, cfgs) + if routed == [] then [] else [Proposal(order[n], routed)]
  }

  method BuildProposals(order: seq<string>, ops: seq<BatchOp>, addresses: seq<AddressRef>, cfgs: Configs)
    returns (proposals: seq<Proposal>)
    ensures proposals == Proposals(order, ops, addresses, cfgs)
  {
    proposals := [];
    for i := 0 to |order|
      invariant proposals == Proposals(order[..i], ops, addresses, cfgs)
    {
      assert order[..i + 1][..i] == order[..i];
      var routed := BatchOpsForQualifier(ops, addresses, cfgs, order[i]);
      if |routed| == 0 {
        continue;
      }
      proposals := proposals + [Proposal(order[i], routed)];
    }
    assert order[..|order|] == order;
  }

  /** All batches of all proposals, proposal by proposal. */
  function AllProposed(proposals: seq<Proposal>): seq<BatchOp> {
    if proposals == [] then [] else AllProposed(proposals[..|proposals| - 1]) + proposals[|proposals| - 1].ops
  }
}
