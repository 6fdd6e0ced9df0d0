/** Custom topology configuration of one EVM chain, its validation, and the keys
    under which a run's operations are memoised. */
module Topology {
  import opened Wrappers
  import opened Evm
  import opened RoleTables
  import Text

  datatype Config = Config(id: nat)

  datatype MCMSpec = MCMSpec(ref: string, config: Config, qualifier: string, contractType: string, lbl: string)

  datatype RoleHolder = RoleHolder(mcmRef: string, address: Option<Address>)

  datatype RoleAssignments = RoleAssignments(proposers: seq<RoleHolder>, cancellers: seq<RoleHolder>,
                                             bypassers: seq<RoleHolder>, executors: seq<RoleHolder>,
                                             admins: seq<RoleHolder>)

  datatype TimelockSpec = TimelockSpec(ref: string, minDelay: nat, qualifier: string, lbl: string,
                                       roles: RoleAssignments, transferOwnership: seq<RoleHolder>)

  /** `callProxies` are the EVM extra arguments. */
  datatype ChainConfig = ChainConfig(mcms: seq<MCMSpec>, timelocks: seq<TimelockSpec>, callProxies: map<string, bool>)

  function ShouldDeployCallProxy(callProxies: map<string, bool>, timelockRef: string): bool {
    timelockRef in callProxies ==> callProxies[timelockRef]
  }

  const PROPOSER := "ProposerManyChainMultiSig"
  const CANCELLER := "CancellerManyChainMultiSig"
  const BYPASSER := "BypasserManyChainMultiSig"
  const TIMELOCK := "RBACTimelock"
  const CALL_PROXY := "CallProxy"

  predicate SupportedType(contractType: string) {
    contractType in {PROPOSER, CANCELLER, BYPASSER}
  }

  // ----- validation

  function McmRefs(mcms: seq<MCMSpec>): set<string> {
    set m | m in mcms :: m.ref
  }

  function TimelockRefs(timelocks: seq<TimelockSpec>): set<string> {
    set t | t in timelocks :: t.ref
  }

  predicate ValidHolder(h: RoleHolder, declared: set<string>) {
    (h.mcmRef != "" <==> h.address.None?) && (h.mcmRef != "" ==> h.mcmRef in declared)
  }

  predicate ValidHolders(holders: seq<RoleHolder>, declared: set<string>) {
    forall h :: h in holders ==> ValidHolder(h, declared)
  }

  predicate ValidTimelock(t: TimelockSpec, declared: set<string>, hasMCMS: bool) {
    && t.ref != "" && t.ref !in declared && t.qualifier != ""
    && ValidHolders(t.roles.proposers, declared) && ValidHolders(t.roles.cancellers, declared)
    && ValidHolders(t.roles.bypassers, declared) && ValidHolders(t.roles.executors, declared)
    && ValidHolders(t.roles.admins, declared) && ValidHolders(t.transferOwnership, declared)
    && (t.transferOwnership != [] ==> hasMCMS)
  }

  /** What validateChainConfig accepts. */
  predicate ValidChainConfig(cfg: ChainConfig, hasMCMS: bool) {
    && (cfg.mcms != [] || cfg.timelocks != [])
    && (forall m :: m in cfg.mcms ==> m.ref != "")
    && (forall i, j :: 0 <= i < j < |cfg.mcms| ==> cfg.mcms[i].ref != cfg.mcms[j].ref)
    && (forall i, j :: 0 <= i < j < |cfg.timelocks| ==> cfg.timelocks[i].ref != cfg.timelocks[j].ref)
    && (forall t :: t in cfg.timelocks ==> ValidTimelock(t, McmRefs(cfg.mcms), hasMCMS))
  }

  method ValidateRoleHolders(holders: seq<RoleHolder>, declared: set<string>) returns (ok: bool)
    ensures ok <==> ValidHolders(holders, declared)
  {
    for i := 0 to |holders|
      invariant ValidHolders(holders[..i], declared)
    {
      var h := holders[i];
      assert h in holders;
      var hasRef := h.mcmRef != "";
      var hasAddr := h.address.Some?;
      if hasRef == hasAddr {
        return false;
      }
      if hasRef && h.mcmRef !in declared {
        return false;
      }
    }
    return true;
  }

  method ValidateTimelock(t: TimelockSpec, declared: set<string>, hasMCMS: bool) returns (ok: bool)
    ensures ok <==> ValidTimelock(t, declared, hasMCMS)
  {
    if t.ref == "" || t.ref in declared || t.qualifier == "" {
      return false;
    }
    var roleSets :=
      [t.roles.proposers, t.roles.cancellers, t.roles.bypassers, t.roles.executors, t.roles.admins,
        t.transferOwnership];
    assert roleSets[0] == t.roles.proposers && roleSets[1] == t.roles.cancellers && roleSets[2] == t.roles.bypassers
        && roleSets[3] == t.roles.executors && roleSets[4] == t.roles.admins && roleSets[5] == t.transferOwnership;
    assert ValidTimelock(t, declared, hasMCMS) <==>
      (forall i :: 0 <= i < |roleSets| ==> ValidHolders(roleSets[i], declared))
        && (t.transferOwnership != [] ==> hasMCMS);
    for i := 0 to |roleSets|
      invariant forall j :: 0 <= j < i ==> ValidHolders(roleSets[j], declared)
    {
      var valid := ValidateRoleHolders(roleSets[i], declared);
      if !valid {
        return false;
      }
    }
    return |t.transferOwnership| == 0 || hasMCMS;
  }

  /** The refs among the first specs, and with one more. */
  lemma RefsSoFar(cfg: ChainConfig, i: nat, j: nat)
    requires i <= |cfg.mcms| && j <= |cfg.timelocks|
    ensures McmRefs([]) == {} && TimelockRefs([]) == {} && cfg.mcms[..0] == [] && cfg.timelocks[..0] == []
    ensures forall r :: r in McmRefs(cfg.mcms[..i]) <==> exists k :: 0 <= k < i && cfg.mcms[k].ref == r
    ensures forall r :: r in TimelockRefs(cfg.timelocks[..j]) <==> exists k :: 0 <= k < j && cfg.timelocks[k].ref == r
    ensures i < |cfg.mcms| ==> McmRefs(cfg.mcms[..i + 1]) == McmRefs(cfg.mcms[..i]) + {cfg.mcms[i].ref}
    ensures j < |cfg.timelocks| ==>
      TimelockRefs(cfg.timelocks[..j + 1]) == TimelockRefs(cfg.timelocks[..j]) + {cfg.timelocks[j].ref}
  {
    if i < |cfg.mcms| {
      assert cfg.mcms[..i + 1] == cfg.mcms[..i] + [cfg.mcms[i]];
    }
    if j < |cfg.timelocks| {
      assert cfg.timelocks[..j + 1] == cfg.timelocks[..j] + [cfg.timelocks[j]];
    }
  }

  method ValidateChainConfig(cfg: ChainConfig, hasMCMS: bool) returns (ok: bool)
    ensures ok <==> ValidChainConfig(cfg, hasMCMS)
  {
    hide ValidTimelock, McmRefs, TimelockRefs;
    if |cfg.mcms| == 0 && |cfg.timelocks| == 0 {
      return false;
    }
    RefsSoFar(cfg, 0, 0);
    var mcmRefs: set<string> := {};
    for i := 0 to |cfg.mcms|
      invariant mcmRefs == McmRefs(cfg.mcms[..i])
      invariant forall j :: 0 <= j < i ==> cfg.mcms[j].ref != ""
      invariant forall j, k :: 0 <= j < k < i ==> cfg.mcms[j].ref != cfg.mcms[k].ref
    {
      var ref := cfg.mcms[i].ref;
      if ref == "" {
        return false;
      }
      RefsSoFar(cfg, i, 0);
      if ref in mcmRefs {
        return false;
      }
      mcmRefs := mcmRefs + {ref};
    }
    assert cfg.mcms[..|cfg.mcms|] == cfg.mcms;
    var timelockRefs: set<string> := {};
    for i := 0 to |cfg.timelocks|
      invariant timelockRefs == TimelockRefs(cfg.timelocks[..i])
      invariant forall j :: 0 <= j < i ==> ValidTimelock(cfg.timelocks[j], mcmRefs, hasMCMS)
      invariant forall j, k :: 0 <= j < k < i ==> cfg.timelocks[j].ref != cfg.timelocks[k].ref
    {
      var t := cfg.timelocks[i];
      RefsSoFar(cfg, 0, i);
      if t.ref in timelockRefs {
        return false;
      }
      var valid := ValidateTimelock(t, mcmRefs, hasMCMS);
      if !valid {
        return false;
      }
      timelockRefs := timelockRefs + {t.ref};
    }
    return true;
  }

  /** All refs, those of the MCMs first. */
  function AllRefs(cfg: ChainConfig): seq<string> {
    seq(|cfg.mcms|, i requires 0 <= i < |cfg.mcms| => cfg.mcms[i].ref)
    + seq(|cfg.timelocks|, i requires 0 <= i < |cfg.timelocks| => cfg.timelocks[i].ref)
  }

  function AllHolders(t: TimelockSpec): seq<RoleHolder> {
    t.roles.proposers + t.roles.cancellers + t.roles.bypassers + t.roles.executors + t.roles.admins
      + t.transferOwnership
  }

  /** The holder is an address or an MCM of the chain, and not both. */
  predicate HolderNames(h: RoleHolder, cfg: ChainConfig) {
    if h.address.Some? then h.mcmRef == "" else h.mcmRef != "" && exists m :: m in cfg.mcms && m.ref == h.mcmRef
  }

  /** What makes a configuration valid: it is not empty; no ref is empty or occurs twice,
      as an MCM or a timelock; every timelock has a qualifier; every holder names either an
      MCM of the chain or an address; and transfers need a proposal input. */
  lemma ValidConfigIs(cfg: ChainConfig, hasMCMS: bool)
    ensures ValidChainConfig(cfg, hasMCMS) <==>
      && |AllRefs(cfg)| > 0 && "" !in AllRefs(cfg) && Apart(AllRefs(cfg))
      && (forall t :: t in cfg.timelocks ==>
            && t.qualifier != "" && (t.transferOwnership == [] || hasMCMS)
            && forall h :: h in AllHolders(t) ==>
              HolderNames(h, cfg))
  {
    RefsTogether(cfg);
    forall t | t in cfg.timelocks
      ensures ValidTimelock(t, McmRefs(cfg.mcms), hasMCMS) <==>
        && t.ref != "" && t.ref !in McmRefs(cfg.mcms) && t.qualifier != "" && (t.transferOwnership == [] || hasMCMS)
        && forall h :: h in AllHolders(t) ==>
             HolderNames(h, cfg)
    {
      HoldersAre(cfg, t);
    }
    hide ValidTimelock, AllHolders, AllRefs;
  }

  lemma HoldersAre(cfg: ChainConfig, t: TimelockSpec)
    ensures
      && ValidHolders(t.roles.proposers, McmRefs(cfg.mcms)) && ValidHolders(t.roles.cancellers, McmRefs(cfg.mcms))
      && ValidHolders(t.roles.bypassers, McmRefs(cfg.mcms)) && ValidHolders(t.roles.executors, McmRefs(cfg.mcms))
      && ValidHolders(t.roles.admins, McmRefs(cfg.mcms)) && ValidHolders(t.transferOwnership, McmRefs(cfg.mcms)) <==>
        forall h :: h in AllHolders(t) ==>
          HolderNames(h, cfg)
  {
    assert forall h: RoleHolder :: ValidHolder(h, McmRefs(cfg.mcms)) <==>
      HolderNames(h, cfg);
  }

  predicate Apart(s: seq<string>) {
    forall i, j :: 0 <= i < j < |s| ==> s[i] != s[j]
  }

  lemma ApartTogether(s: seq<string>, t: seq<string>)
    ensures Apart(s + t) <==> Apart(s) && Apart(t) && forall x :: x in t ==> x !in s
  {
    var all, n := s + t, |s|;
    assert forall i :: 0 <= i < n ==> all[i] == s[i];
    assert forall i :: 0 <= i < |t| ==> all[n + i] == t[i];
    if Apart(s) && Apart(t) && forall x :: x in t ==> x !in s {
      forall i, j | 0 <= i < j < |all|
        ensures all[i] != all[j]
      {
        if i < n <= j {
          assert t[j - n] in t && s[i] in s;
        } else if n <= i {
          assert t[i - n] != t[j - n];
        }
      }
    }
    if Apart(all) {
      forall x | x in t
        ensures x !in s
      {
        var j :| 0 <= j < |t| && t[j] == x;
        assert all[n + j] == x;
      }
      forall i, j | 0 <= i < j < |t|
        ensures t[i] != t[j]
      {
        assert all[n + i] != all[n + j];
      }
    }
  }

  lemma RefsTogether(cfg: ChainConfig)
    ensures |AllRefs(cfg)| == |cfg.mcms| + |cfg.timelocks|
    ensures "" !in AllRefs(cfg) <==>
      (forall m :: m in cfg.mcms ==> m.ref != "") && (forall t :: t in cfg.timelocks ==> t.ref != "")
    ensures Apart(AllRefs(cfg)) <==>
      && (forall i, j :: 0 <= i < j < |cfg.mcms| ==> cfg.mcms[i].ref != cfg.mcms[j].ref)
      && (forall i, j :: 0 <= i < j < |cfg.timelocks| ==> cfg.timelocks[i].ref != cfg.timelocks[j].ref)
      && (forall t :: t in cfg.timelocks ==> t.ref !in McmRefs(cfg.mcms))
  {
    var s := seq(|cfg.mcms|, i requires 0 <= i < |cfg.mcms| => cfg.mcms[i].ref);
    var t := seq(|cfg.timelocks|, i requires 0 <= i < |cfg.timelocks| => cfg.timelocks[i].ref);
    ApartTogether(s, t);
    assert forall i :: 0 <= i < |s| ==> s[i] == cfg.mcms[i].ref && cfg.mcms[i] in cfg.mcms;
    assert forall i :: 0 <= i < |t| ==> t[i] == cfg.timelocks[i].ref && cfg.timelocks[i] in cfg.timelocks;
    assert forall x :: x in s <==> x in McmRefs(cfg.mcms);
    assert forall x :: x in t <==> exists y :: y in cfg.timelocks && y.ref == x;
  }

  // ----- role holders

  function ResolveHolder(h: RoleHolder, refToAddr: map<string, Address>): Option<Address> {
    if h.mcmRef != "" then if h.mcmRef in refToAddr then Some(refToAddr[h.mcmRef]) else None
    else h.address
  }

  predicate Resolvable(holders: seq<RoleHolder>, refToAddr: map<string, Address>) {
    forall h :: h in holders ==> ResolveHolder(h, refToAddr).Some?
  }

  function Resolved(holders: seq<RoleHolder>, refToAddr: map<string, Address>): seq<Address>
    requires Resolvable(holders, refToAddr)
  {
    seq(|holders|, i requires 0 <= i < |holders| => ResolveHolder(holders[i], refToAddr).value)
  }

  method ResolveHolders(holders: seq<RoleHolder>, refToAddr: map<string, Address>) returns (r: Option<seq<Address>>)
    ensures r.Some? <==> Resolvable(holders, refToAddr)
    ensures r.Some? ==> r.value == Resolved(holders, refToAddr)
  {
    var addrs: seq<Address> := [];
    for i := 0 to |holders|
      invariant |addrs| == i
      invariant forall j :: 0 <= j < i ==> ResolveHolder(holders[j], refToAddr) == Some(addrs[j])
    {
      var h := holders[i];
      assert h in holders;
      if h.mcmRef != "" {
        if h.mcmRef !in refToAddr {
          return None;
        }
        addrs := addrs + [refToAddr[h.mcmRef]];
      } else if h.address.Some? {
        addrs := addrs + [h.address.value];
      } else {
        return None;
      }
    }
    return Some(addrs);
  }

  /** Growing the map with entries for other refs, such as timelocks, changes no
      resolution of holders that only name declared MCMs. */
  lemma ResolutionStable(holders: seq<RoleHolder>, declared: set<string>, m: map<string, Address>,
                         m': map<string, Address>)
    requires ValidHolders(holders, declared)
    requires forall ref :: ref in declared ==> ref in m && ref in m' && m[ref] == m'[ref]
    ensures Resolvable(holders, m) && Resolvable(holders, m') && Resolved(holders, m) == Resolved(holders, m')
  {
    assert forall h :: h in holders ==> ValidHolder(h, declared);
    assert forall h :: h in holders ==> ResolveHolder(h, m).Some? && ResolveHolder(h, m) == ResolveHolder(h, m');
  }

  // ----- idempotency keys

  function RoleName(role: Role): string {
    match role
    case Proposer => "PROPOSER_ROLE"
    case Canceller => "CANCELLER_ROLE"
    case Bypasser => "BYPASSER_ROLE"
    case Executor => "EXECUTOR_ROLE"
    case Admin => "ADMIN_ROLE"
    case Unsupported => ""
  }

  /** Everything that tells two executions of an operation apart. */
  datatype Key =
    | McmKey(selector: nat, ref: string, contractType: string, qualifier: string)
    | ConfigKey(selector: nat, target: Address, config: Config, contractType: string)
    | TimelockKey(selector: nat, ref: string, qualifier: string, minDelay: nat, admin: Address, proposers: seq<Address>,
      cancellers: seq<Address>, bypassers: seq<Address>)
    | ProxyKey(selector: nat, ref: string, qualifier: string, target: Address)
    | GrantKey(selector: nat, timelock: Address, role: Role, account: Address)
    | TransferKey(selector: nat, contract: Address, to: Address)
    | AcceptKey(selector: nat, contract: Address)

  /** The operation with its input, as the framework hashes it. */
  datatype OpInput =
    | DeployMcm(contractType: string, qualifier: string)
    | SetConfig(target: Address, config: Config, contractType: string)
    | DeployTimelock(qualifier: string, minDelay: nat, admin: Address, proposers: seq<Address>,
      cancellers: seq<Address>, bypassers: seq<Address>)
    | DeployCallProxy(qualifier: string, target: Address)
    | GrantRole(role: Role, account: Address)
    | TransferOwnership(to: Address)
    | AcceptOwnership

  function InputOf(k: Key): OpInput {
    match k
    case McmKey(_, _, contractType, qualifier) => DeployMcm(contractType, qualifier)
    case ConfigKey(_, target, config, contractType) => SetConfig(target, config, contractType)
    case TimelockKey(_, _, qualifier, minDelay, admin, proposers, cancellers, bypassers) =>
      DeployTimelock(qualifier, minDelay, admin, proposers, cancellers, bypassers)
    case ProxyKey(_, _, qualifier, target) => DeployCallProxy(qualifier, target)
    case GrantKey(_, _, role, account) => GrantRole(role, account)
    case TransferKey(_, _, to) => TransferOwnership(to)
    case AcceptKey(_, _) => AcceptOwnership
  }

  /** Address text; of the real one only this matters, that it is injective and
      holds no colon. */
  function Hex(a: Address): string {
    "0x" + Text.Decimal(a)
  }

  /** The key string, after the chain selector and a colon. */
  function KeyTail(k: Key): string {
    match k
    case McmKey(_, ref, _, _) => "mcm:" + ref
    case ConfigKey(_, target, _, _) => Hex(target)
    case TimelockKey(_, ref, _, _, _, _, _, _) => "timelock:" + ref
    case ProxyKey(_, ref, _, _) => "callproxy:" + ref
    case GrantKey(_, timelock, role, account) =>
      "grant-role:" + (Hex(timelock) + ":" + (RoleName(role) + ":" + Hex(account)))
    case TransferKey(_, contract, _) => Hex(contract)
    case AcceptKey(_, contract) => Hex(contract)
  }

  function KeyText(k: Key): string {
    Text.Decimal(k.selector) + ":" + KeyTail(k)
  }

  lemma HexInjective(a: Address, b: Address)
    ensures Hex(a) == Hex(b) <==> a == b
    ensures ':' !in Hex(a)
  {
    Text.DecimalIsDigits(a);
    if Hex(a) == Hex(b) {
      assert Hex(a)[2..] == Text.Decimal(a) && Hex(b)[2..] == Text.Decimal(b);
      Text.DecimalInjective(a, b);
    }
  }

  /** Operation, input and key string determine the key: no two different
      executions of a run, or of runs on different chains, share a report. */
  lemma KeysInjective(k: Key, k': Key)
    ensures InputOf(k) == InputOf(k') && KeyText(k) == KeyText(k') <==> k == k'
  {
    if InputOf(k) == InputOf(k') && KeyText(k) == KeyText(k') {
      Text.DecimalIsDigits(k.selector);
      Text.DecimalIsDigits(k'.selector);
      Text.FirstPartUnique(Text.Decimal(k.selector), KeyTail(k), Text.Decimal(k'.selector), KeyTail(k'), ':');
      Text.DecimalInjective(k.selector, k'.selector);
      TailsInjective(k, k');
    }
  }

  lemma TailsInjective(k: Key, k': Key)
    requires InputOf(k) == InputOf(k') && KeyTail(k) == KeyTail(k') && k.selector == k'.selector
    ensures k == k'
  {
    match k {
      case McmKey(_, ref, _, _) =>
        assert KeyTail(k)[4..] == ref && KeyTail(k')[4..] == k'.ref;
      case TimelockKey(_, ref, _, _, _, _, _, _) =>
        assert KeyTail(k)[9..] == ref && KeyTail(k')[9..] == k'.ref;
      case ProxyKey(_, ref, _, _) =>
        assert KeyTail(k)[10..] == ref && KeyTail(k')[10..] == k'.ref;
      case GrantKey(_, timelock, role, account) =>
        var rest := RoleName(role) + ":" + Hex(account);
        assert KeyTail(k)[11..] == Hex(timelock) + ":" + rest && KeyTail(k')[11..] == Hex(k'.timelock) + ":" + rest;
        HexInjective(timelock, k'.timelock);
        HexInjective(k'.timelock, timelock);
        Text.FirstPartUnique(Hex(timelock), rest, Hex(k'.timelock), rest, ':');
      case ConfigKey(_, target, _, _) => HexInjective(target, k'.target);
      case TransferKey(_, contract, _) => HexInjective(contract, k'.contract);
      case AcceptKey(_, contract) => HexInjective(contract, k'.contract);
    }
  }
}
