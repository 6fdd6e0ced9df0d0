/** One run of the custom topology sequence on one EVM chain.

    A run is described twice: as the flat list of its commands, each of which
    performs at most one memoised operation, and as the code performs it, with
    loops over MCMs, timelocks, roles and transfer targets. The methods are proved
    to do exactly what the list says. A run may be killed before any operation:
    `budget` counts the operations it still gets. */
module TopologyRun {
  import opened Wrappers
  import opened Evm
  import opened Ownership
  import opened RoleTables
  import opened Topology

  datatype Env = Env(selector: nat, deployer: Address, callProxies: map<string, bool>)

  /** The contracts of the chain. New contracts take the addresses from `next` on. */
  datatype Chain = Chain(ownables: Ownables, configs: map<Address, Option<Config>>, tables: map<Address, Tables>,
                         proxies: map<Address, Address>, next: Address)

  datatype St = St(chain: Chain, reports: map<Key, Address>, budget: nat)

  datatype Error = UnsupportedContractType | UnresolvedHolder | Unreadable | Rejected | NoMCMSInput

  datatype Outcome<+T> = Done(value: T) | Failed(error: Error) | Killed

  datatype AddressRef = AddressRef(selector: nat, address: Address, contractType: string, qualifier: string,
                                   labels: set<string>)

  /** The transactions of a batch are acceptOwnership calls, here their targets. */
  datatype BatchOp = BatchOp(selector: nat, transactions: seq<Address>)

  function NewAddressRef(selector: nat, address: Address, contractType: string, qualifier: string, lbl: string)
    : AddressRef
  {
    AddressRef(selector, address, contractType, qualifier, if lbl != "" then {lbl} else {})
  }

  // ----- operations

  function AsSet(s: seq<Address>): set<Address> {
    set a | a in s
  }

  /** The effect and the output of an operation; None when its transaction fails. */
  function Perform(c: Chain, deployer: Address, k: Key): Option<(Chain, Address)> {
    match k
    case McmKey(_, _, _, _) =>
      Some((c.(ownables := c.ownables[c.next := Ownable(deployer, None, true)], configs :=
        c.configs[c.next := None], next := c.next + 1), c.next))
    case ConfigKey(_, target, config, _) =>
      if target in c.ownables && c.ownables[target].owner == deployer && target in c.configs
      then Some((c.(configs := c.configs[target := Some(config)]), ZERO)) else None
    case TimelockKey(_, _, _, _, admin, proposers, cancellers, bypassers) =>
      Some((c.(tables :=
        c.tables[c.next := Tables(AsSet(proposers), AsSet(cancellers), AsSet(bypassers), {}, {admin})], next :=
          c.next + 1), c.next))
    case ProxyKey(_, _, _, target) =>
      Some((c.(proxies := c.proxies[c.next := target], next := c.next + 1), c.next))
    case GrantKey(_, timelock, role, account) =>
      if timelock !in c.tables then None
      else if deployer !in c.tables[timelock].admins then Some((c, ZERO))
      else Some((c.(tables := c.tables[timelock := c.tables[timelock].Grant(role, account)]), ZERO))
    case TransferKey(_, contract, to) =>
      if contract !in c.ownables then None
      else Some((c.(ownables := c.ownables[contract := Transfer(c.ownables[contract], deployer, to)]), ZERO))
    case AcceptKey(_, _) => Some((c, ZERO))
  }

  /** ExecuteOperation: reuse the report, or perform the operation and record it,
      both in one atomic step. An operation that fails leaves nothing behind and
      does not count. */
  function Execute(s: St, deployer: Address, k: Key): (St, Outcome<Address>) {
    if k in s.reports then (s, Done(s.reports[k]))
    else
      match Perform(s.chain, deployer, k)
      case None => (s, Failed(Rejected))
      case Some((chain, out)) =>
        if s.budget == 0 then (s, Killed) else (St(chain, s.reports[k := out], s.budget - 1), Done(out))
  }

  // ----- the run as a list of commands

  datatype Grantee = Holder(h: RoleHolder) | TheProxy | Itself

  datatype Cmd =
    | DeployMcmCmd(mcm: MCMSpec)
    | SetConfigCmd(mcm: MCMSpec)
    | DeployTimelockCmd(tl: TimelockSpec)
    | DeployProxyCmd(tl: TimelockSpec)
    | GrantCmd(tl: TimelockSpec, role: Role, who: Grantee)
    | CheckTransfersCmd(tl: TimelockSpec)
    | TransferCmd(tl: TimelockSpec, holder: RoleHolder)
    | AcceptCmd(tl: TimelockSpec, holder: RoleHolder)
    | CloseCmd(tl: TimelockSpec)

  /** What a run keeps in memory, lost when it is killed. */
  datatype Local = Local(refToAddr: map<string, Address>, proxy: Address, seen: set<Address>, txs: seq<Address>,
                         addresses: seq<AddressRef>, batchOps: seq<BatchOp>)

  const START := Local(map[], ZERO, {}, [], [], [])

  datatype Action = Fail(error: Error) | Pass(l: Local) | Do(key: Key)

  predicate RolesResolvable(roles: RoleAssignments, refToAddr: map<string, Address>) {
    && Resolvable(roles.proposers, refToAddr) && Resolvable(roles.cancellers, refToAddr)
       && Resolvable(roles.bypassers, refToAddr)
    && Resolvable(roles.executors, refToAddr) && Resolvable(roles.admins, refToAddr)
  }

  function GranteeAddress(l: Local, tl: TimelockSpec, who: Grantee): Option<Address> {
    match who
    case Holder(h) => ResolveHolder(h, l.refToAddr)
    case TheProxy => Some(l.proxy)
    case Itself => if tl.ref in l.refToAddr then Some(l.refToAddr[tl.ref]) else None
  }

  /** What a command does next, from what it reads. */
  function Decide(c: Chain, env: Env, l: Local, cmd: Cmd): Action {
    match cmd
    case DeployMcmCmd(m) =>
      if SupportedType(m.contractType) then Do(McmKey(env.selector, m.ref, m.contractType, m.qualifier))
        else Fail(UnsupportedContractType)
    case SetConfigCmd(m) =>
      if m.ref in l.refToAddr then Do(ConfigKey(env.selector, l.refToAddr[m.ref], m.config, m.contractType))
        else Fail(UnresolvedHolder)
    case DeployTimelockCmd(tl) =>
      if RolesResolvable(tl.roles, l.refToAddr) then
        Do(TimelockKey(env.selector, tl.ref, tl.qualifier, tl.minDelay, env.deployer,
                       Resolved(tl.roles.proposers, l.refToAddr), Resolved(tl.roles.cancellers, l.refToAddr),
                         Resolved(tl.roles.bypassers, l.refToAddr)))
      else Fail(UnresolvedHolder)
    case DeployProxyCmd(tl) =>
      if tl.ref in l.refToAddr then Do(ProxyKey(env.selector, tl.ref, tl.qualifier, l.refToAddr[tl.ref]))
        else Fail(UnresolvedHolder)
    case GrantCmd(tl, role, who) =>
      var account := GranteeAddress(l, tl, who);
      if tl.ref !in l.refToAddr || account.None? then Fail(UnresolvedHolder)
      else
        var t := l.refToAddr[tl.ref];
        if who.TheProxy? && l.proxy == ZERO then Pass(l)
        else if role != Admin && t in c.tables && account.value in c.tables[t].Get(role) then Pass(l)
        else Do(GrantKey(env.selector, t, role, account.value))
    case CheckTransfersCmd(tl) =>
      if Resolvable(tl.transferOwnership, l.refToAddr) then Pass(l) else Fail(UnresolvedHolder)
    case TransferCmd(tl, h) =>
      var contract := ResolveHolder(h, l.refToAddr);
      if tl.ref !in l.refToAddr || contract.None? then Fail(UnresolvedHolder)
      else if contract.value in l.seen then Pass(l)
      else if contract.value !in c.ownables then Fail(Unreadable)
      else if c.ownables[contract.value].owner == l.refToAddr[tl.ref] then Pass(l)
      else Do(TransferKey(env.selector, contract.value, l.refToAddr[tl.ref]))
    case AcceptCmd(tl, h) =>
      var contract := ResolveHolder(h, l.refToAddr);
      if tl.ref !in l.refToAddr || contract.None? then Fail(UnresolvedHolder)
      else if contract.value in l.seen then Pass(l)
      else if contract.value !in c.ownables then Fail(Unreadable)
      else if c.ownables[contract.value].owner == l.refToAddr[tl.ref] then Pass(l.(seen := l.seen + {contract.value}))
      else Do(AcceptKey(env.selector, contract.value))
    case CloseCmd(_) =>
      Pass(l.(txs := [], batchOps := l.batchOps + if l.txs == [] then [] else [BatchOp(env.selector, l.txs)]))
  }

  /** What the command keeps of the operation's output. */
  function Absorb(env: Env, l: Local, cmd: Cmd, out: Address): Local {
    match cmd
    case DeployMcmCmd(m) => l.(refToAddr := l.refToAddr[m.ref := out])
    case SetConfigCmd(m) =>
      if m.ref in l.refToAddr
        then l.(addresses :=
          l.addresses + [NewAddressRef(env.selector, l.refToAddr[m.ref], m.contractType, m.qualifier, m.lbl)]) else l
    case DeployTimelockCmd(tl) =>
      Local(l.refToAddr[tl.ref := out], ZERO, {}, [], l.addresses
        + [NewAddressRef(env.selector, out, TIMELOCK, tl.qualifier, tl.lbl)], l.batchOps)
    case DeployProxyCmd(tl) =>
      l.(proxy := out, addresses := l.addresses + [NewAddressRef(env.selector, out, CALL_PROXY, tl.qualifier, tl.lbl)])
    case AcceptCmd(_, h) =>
      var contract := ResolveHolder(h, l.refToAddr);
      if contract.Some? then l.(seen := l.seen + {contract.value}, txs := l.txs + [contract.value]) else l
    case _ => l
  }

  function Step(s: St, env: Env, l: Local, cmd: Cmd): (St, Outcome<Local>) {
    match Decide(s.chain, env, l, cmd)
    case Fail(e) => (s, Failed(e))
    case Pass(l') => (s, Done(l'))
    case Do(k) =>
      match Execute(s, env.deployer, k)
      case (s', Done(out)) => (s', Done(Absorb(env, l, cmd, out)))
      case (s', Failed(e)) => (s', Failed(e))
      case (s', Killed) => (s', Killed)
  }

  function Fold(s: St, env: Env, l: Local, cmds: seq<Cmd>): (St, Outcome<Local>) {
    if cmds == [] then (s, Done(l)) else
    match Fold(s, env, l, cmds[..|cmds| - 1])
    case (s1, Done(l1)) => Step(s1, env, l1, cmds[|cmds| - 1])
    case (s1, o) => (s1, o)
  }

  function McmCmds(mcms: seq<MCMSpec>): seq<Cmd> {
    if mcms == [] then []
    else McmCmds(mcms[..|mcms| - 1]) + [DeployMcmCmd(mcms[|mcms| - 1]), SetConfigCmd(mcms[|mcms| - 1])]
  }

  function Holders(holders: seq<RoleHolder>): seq<Grantee> {
    seq(|holders|, i requires 0 <= i < |holders| => Holder(holders[i]))
  }

  function GrantCmds(tl: TimelockSpec, role: Role, whos: seq<Grantee>): seq<Cmd> {
    seq(|whos|, i requires 0 <= i < |whos| => GrantCmd(tl, role, whos[i]))
  }

  /** The grants of a timelock: first the members the constructor has set, then
      executors with the call proxy, then admins with the timelock itself. */
  function RoleCmds(env: Env, tl: TimelockSpec): seq<Cmd> {
    GrantCmds(tl, Proposer, Holders(tl.roles.proposers)) + GrantCmds(tl, Canceller, Holders(tl.roles.cancellers))
    + GrantCmds(tl, Bypasser, Holders(tl.roles.bypassers))
    + GrantCmds(tl, Executor, Holders(tl.roles.executors) + if ShouldDeployCallProxy(env.callProxies, tl.ref)
      then [TheProxy] else [])
    + GrantCmds(tl, Admin, Holders(tl.roles.admins) + [Itself])
  }

  function TransferPairs(tl: TimelockSpec, holders: seq<RoleHolder>): seq<Cmd> {
    if holders == [] then []
    else
      var last := holders[|holders| - 1];
      TransferPairs(tl, holders[..|holders| - 1]) + [TransferCmd(tl, last), AcceptCmd(tl, last)]
  }

  function TransferCmds(tl: TimelockSpec): seq<Cmd> {
    if tl.transferOwnership == [] then []
    else [CheckTransfersCmd(tl)] + TransferPairs(tl, tl.transferOwnership) + [CloseCmd(tl)]
  }

  function CreateCmds(env: Env, tl: TimelockSpec): seq<Cmd> {
    [DeployTimelockCmd(tl)] + if ShouldDeployCallProxy(env.callProxies, tl.ref) then [DeployProxyCmd(tl)] else []
  }

  function TimelockCmds(env: Env, tl: TimelockSpec): seq<Cmd> {
    CreateCmds(env, tl) + RoleCmds(env, tl) + TransferCmds(tl)
  }

  function AllTimelockCmds(env: Env, timelocks: seq<TimelockSpec>): seq<Cmd> {
    if timelocks == [] then []
    else AllTimelockCmds(env, timelocks[..|timelocks| - 1]) + TimelockCmds(env, timelocks[|timelocks| - 1])
  }

  function Program(env: Env, cfg: ChainConfig): seq<Cmd> {
    McmCmds(cfg.mcms) + AllTimelockCmds(env, cfg.timelocks)
  }

  /** The run of a chain. */
  function Run(s: St, env: Env, cfg: ChainConfig): (St, Outcome<Local>) {
    Fold(s, env, START, Program(env, cfg))
  }

  // ----- folding in pieces

  function Then(r: (St, Outcome<Local>), env: Env, cmds: seq<Cmd>): (St, Outcome<Local>) {
    match r
    case (s, Done(l)) => Fold(s, env, l, cmds)
    case (s, o) => (s, o)
  }

  lemma {:induction false} FoldJoin(s: St, env: Env, l: Local, p: seq<Cmd>, q: seq<Cmd>)
    ensures Fold(s, env, l, p + q) == Then(Fold(s, env, l, p), env, q)
  {
    if q == [] {
      assert p + q == p;
    } else {
      var n := |q| - 1;
      assert (p + q)[..|p + q| - 1] == p + q[..n] && (p + q)[|p + q| - 1] == q[n];
      FoldJoin(s, env, l, p, q[..n]);
    }
  }

  lemma FoldNone(s: St, env: Env, l: Local)
    ensures Fold(s, env, l, []) == (s, Done(l))
  {}

  lemma FoldOne(s: St, env: Env, l: Local, cmd: Cmd)
    ensures Fold(s, env, l, [cmd]) == Step(s, env, l, cmd)
  {
    assert [cmd][..0] == [];
  }

  lemma FoldSnoc(s: St, env: Env, l: Local, p: seq<Cmd>, cmd: Cmd)
    ensures Fold(s, env, l, p + [cmd]) ==
      match Fold(s, env, l, p)
      case (s1, Done(l1)) => Step(s1, env, l1, cmd)
      case (s1, o) => (s1, o)
  {
    assert (p + [cmd])[..|p|] == p;
  }

  /** What stops a prefix stops the whole. */
  lemma FoldStops(s: St, env: Env, l: Local, p: seq<Cmd>, q: seq<Cmd>)
    requires !Fold(s, env, l, p).1.Done?
    ensures Fold(s, env, l, p + q) == Fold(s, env, l, p)
  {
    FoldJoin(s, env, l, p, q);
  }
}
