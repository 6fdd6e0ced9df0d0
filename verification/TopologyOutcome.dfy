/** What one run of the custom topology leaves, from a start that knows nothing
    about this chain: addresses, role matrix, ownership and batch operations. */
module TopologyOutcome {
  import opened Wrappers
  import opened Evm
  import opened RoleTables
  import opened Topology
  import opened TopologyRun
  import opened TopologyResume

  /** The report store has nothing about this chain; the deployer's own address is
      not one that a new contract will take. */
  predicate CleanStart(s: St, env: Env) {
    && ValidChain(s.chain)
    && env.deployer < s.chain.next
    && forall k :: k in s.reports ==> k.selector != env.selector
  }

  // ----- predicted addresses

  predicate Deploys(cmd: Cmd) {
    cmd.DeployMcmCmd? || cmd.DeployTimelockCmd? || cmd.DeployProxyCmd?
  }

  /** How many contracts the commands create. */
  function Created(cmds: seq<Cmd>): nat {
    if cmds == [] then 0
    else Created(cmds[..|cmds| - 1]) + if Deploys(cmds[|cmds| - 1]) then 1 else 0
  }

  /** The address of each ref: the n-th contract takes address `first + n`. */
  function Assign(first: Address, cmds: seq<Cmd>): map<string, Address> {
    if cmds == [] then map[]
    else
      var rest, last := cmds[..|cmds| - 1], cmds[|cmds| - 1];
      match last
      case DeployMcmCmd(m) => Assign(first, rest)[m.ref := first + Created(rest)]
      case DeployTimelockCmd(tl) => Assign(first, rest)[tl.ref := first + Created(rest)]
      case _ => Assign(first, rest)
  }

  function McmRefsIn(cmds: seq<Cmd>): set<string> {
    set c | c in cmds && c.DeployMcmCmd? :: c.mcm.ref
  }

  function TimelockRefsIn(cmds: seq<Cmd>): set<string> {
    set c | c in cmds && c.DeployTimelockCmd? :: c.tl.ref
  }

  function ProxyRefsIn(cmds: seq<Cmd>): set<string> {
    set c | c in cmds && c.DeployProxyCmd? :: c.tl.ref
  }

  lemma {:induction false} AssignKeys(first: Address, cmds: seq<Cmd>)
    ensures Assign(first, cmds).Keys == McmRefsIn(cmds) + TimelockRefsIn(cmds)
    ensures forall ref :: ref in Assign(first, cmds) ==> first <= Assign(first, cmds)[ref] < first + Created(cmds)
  {
    if cmds != [] {
      var rest, last := cmds[..|cmds| - 1], cmds[|cmds| - 1];
      assert cmds == rest + [last];
      AssignKeys(first, rest);
      assert McmRefsIn(cmds) == McmRefsIn(rest) + if last.DeployMcmCmd? then {last.mcm.ref} else {};
      assert TimelockRefsIn(cmds) == TimelockRefsIn(rest) + if last.DeployTimelockCmd? then {last.tl.ref} else {};
    }
  }

  /** No ref is deployed twice. */
  predicate FreshCmd(cmd: Cmd, before: seq<Cmd>) {
    && (cmd.DeployMcmCmd? ==> cmd.mcm.ref !in McmRefsIn(before) + TimelockRefsIn(before))
    && (cmd.DeployTimelockCmd? ==> cmd.tl.ref !in McmRefsIn(before) + TimelockRefsIn(before))
    && (cmd.DeployProxyCmd? ==> cmd.tl.ref !in ProxyRefsIn(before))
  }

  predicate FreshRefs(cmds: seq<Cmd>) {
    forall i :: 0 <= i < |cmds| ==> FreshCmd(cmds[i], cmds[..i])
  }

  lemma {:induction false} AssignGrows(first: Address, cmds: seq<Cmd>, n: nat)
    requires n <= |cmds| && FreshRefs(cmds)
    ensures Sub(Assign(first, cmds[..n]), Assign(first, cmds))
    decreases |cmds|
  {
    if n < |cmds| {
      var rest, last := cmds[..|cmds| - 1], cmds[|cmds| - 1];
      assert cmds[..n] == rest[..n];
      assert forall i :: 0 <= i < |rest| ==> rest[..i] == cmds[..i];
      AssignGrows(first, rest, n);
      AssignKeys(first, rest);
      assert FreshCmd(cmds[|cmds| - 1], cmds[..|cmds| - 1]);
    } else {
      assert cmds[..n] == cmds;
    }
  }

  // ----- what holds after every command

  /** Where a report of this chain comes from, and that its effect is on the chain. */
  predicate Accounted(k: Key, c: Chain, cmds: seq<Cmd>) {
    match k
    case McmKey(_, ref, _, _) => ref in McmRefsIn(cmds)
    case TimelockKey(_, ref, _, _, _, _, _, _) => ref in TimelockRefsIn(cmds)
    case ProxyKey(_, ref, _, _) => ref in ProxyRefsIn(cmds)
    case ConfigKey(_, target, _, _) => target < c.next
    case GrantKey(_, timelock, role, account) => timelock in c.tables && account in c.tables[timelock].Get(role)
    case TransferKey(_, _, to) => to < c.next
    case AcceptKey(_, _) => true
  }

  predicate Accounts(s: St, env: Env, cmds: seq<Cmd>) {
    forall k :: k in s.reports && k.selector == env.selector ==> Accounted(k, s.chain, cmds)
  }

  predicate Inv(first: Address, env: Env, cmds: seq<Cmd>, s: St, l: Local) {
    && ValidChain(s.chain)
    && env.deployer < first
    && s.chain.next == first + Created(cmds)
    && l.refToAddr == Assign(first, cmds)
    && Accounts(s, env, cmds)
    && (forall t :: t in s.chain.tables && t >= first ==> env.deployer in s.chain.tables[t].admins)
  }

  /** Grant commands name a real role. */
  predicate GoodCmd(cmd: Cmd) {
    cmd.GrantCmd? ==> cmd.role != Unsupported
  }

  lemma RefsInOneMore(cmds: seq<Cmd>, cmd: Cmd)
    ensures McmRefsIn(cmds + [cmd]) == McmRefsIn(cmds) + if cmd.DeployMcmCmd? then {cmd.mcm.ref} else {}
    ensures TimelockRefsIn(cmds + [cmd]) == TimelockRefsIn(cmds) + if cmd.DeployTimelockCmd? then {cmd.tl.ref} else {}
    ensures ProxyRefsIn(cmds + [cmd]) == ProxyRefsIn(cmds) + if cmd.DeployProxyCmd? then {cmd.tl.ref} else {}
    ensures Created(cmds + [cmd]) == Created(cmds) + if Deploys(cmd) then 1 else 0
  {
    assert (cmds + [cmd])[..|cmds|] == cmds;
  }

  lemma AssignOneMore(first: Address, cmds: seq<Cmd>, cmd: Cmd)
    ensures Assign(first, cmds + [cmd]) ==
      match cmd
      case DeployMcmCmd(m) => Assign(first, cmds)[m.ref := first + Created(cmds)]
      case DeployTimelockCmd(tl) => Assign(first, cmds)[tl.ref := first + Created(cmds)]
      case _ => Assign(first, cmds)
  {
    assert (cmds + [cmd])[..|cmds|] == cmds;
  }

  /** The operation a command decides on: deployments are never memoised here. */
  lemma KeyFacts(first: Address, env: Env, cmds: seq<Cmd>, s: St, l: Local, cmd: Cmd)
    requires Inv(first, env, cmds, s, l) && FreshCmd(cmd, cmds) && GoodCmd(cmd)
    requires Decide(s.chain, env, l, cmd).Do?
    ensures
      var k := Decide(s.chain, env, l, cmd).key;
      && k.selector == env.selector
      && (k.McmKey? || k.TimelockKey? || k.ProxyKey? ==> k !in s.reports)
      && (k.GrantKey? ==> k.timelock >= first && k.role != Unsupported)
      && (k.TransferKey? ==> k.to < s.chain.next)
      && (k.ConfigKey? ==> k.target < s.chain.next)
      && (k.TimelockKey? ==> k.admin == env.deployer)
      && (cmd.DeployMcmCmd? ==> k.McmKey? && k.ref == cmd.mcm.ref)
      && (cmd.DeployTimelockCmd? ==> k.TimelockKey? && k.ref == cmd.tl.ref)
      && (cmd.DeployProxyCmd? ==> k.ProxyKey? && k.ref == cmd.tl.ref)
      && (Deploys(cmd) <==> k.McmKey? || k.TimelockKey? || k.ProxyKey?)
  {
    AssignKeys(first, cmds);
  }

  /** The chain after an operation that was not memoised. */
  lemma PerformKeeps(first: Address, env: Env, s: St, k: Key, chain: Chain, out: Address)
    requires ValidChain(s.chain) && s.chain.next >= first
    requires forall t :: t in s.chain.tables && t >= first ==> env.deployer in s.chain.tables[t].admins
    requires Perform(s.chain, env.deployer, k) == Some((chain, out))
    requires k.TimelockKey? ==> k.admin == env.deployer
    ensures ValidChain(chain)
    ensures chain.next == s.chain.next + if k.McmKey? || k.TimelockKey? || k.ProxyKey? then 1 else 0
    ensures k.McmKey? || k.TimelockKey? || k.ProxyKey? ==> out == s.chain.next
    ensures forall t :: t in chain.tables && t >= first ==> env.deployer in chain.tables[t].admins
    ensures k.GrantKey? && k.timelock >= first && k.role != Unsupported ==>
      k.timelock in chain.tables && k.account in chain.tables[k.timelock].Get(k.role)
    ensures forall t :: t in s.chain.tables ==>
      t in chain.tables && forall role: Role :: s.chain.tables[t].Get(role) <= chain.tables[t].Get(role)
  {
    if k.GrantKey? {
      var t, t' := s.chain.tables[k.timelock], chain.tables[k.timelock];
      forall role: Role
        ensures t.Get(role) <= t'.Get(role)
      {
        if k.role == Unsupported { assert t' == t || env.deployer in t.admins; }
      }
      assert env.deployer in t.Get(Admin) ==> env.deployer in t'.Get(Admin);
    }
  }

  lemma AccountsKept(s: St, env: Env, cmds: seq<Cmd>, cmd: Cmd, chain: Chain, budget: nat)
    requires Accounts(s, env, cmds) && chain.next >= s.chain.next
    requires forall t :: t in s.chain.tables ==>
      t in chain.tables && forall role: Role :: s.chain.tables[t].Get(role) <= chain.tables[t].Get(role)
    ensures Accounts(St(chain, s.reports, budget), env, cmds + [cmd])
  {
    RefsInOneMore(cmds, cmd);
    forall k | k in s.reports && k.selector == env.selector
      ensures Accounted(k, chain, cmds + [cmd])
    {
      assert Accounted(k, s.chain, cmds);
    }
  }

  lemma StepKeeps(first: Address, env: Env, cmds: seq<Cmd>, s: St, l: Local, cmd: Cmd)
    requires Inv(first, env, cmds, s, l) && FreshCmd(cmd, cmds) && GoodCmd(cmd)
    requires Step(s, env, l, cmd).1.Done?
    ensures
      var (s', o) := Step(s, env, l, cmd);
      Inv(first, env, cmds + [cmd], s', o.value)
  {
    RefsInOneMore(cmds, cmd);
    AssignOneMore(first, cmds, cmd);
    var (s', o) := Step(s, env, l, cmd);
    match Decide(s.chain, env, l, cmd) {
      case Pass(l') => AccountsKept(s, env, cmds, cmd, s.chain, s.budget);
      case Do(k) =>
        KeyFacts(first, env, cmds, s, l, cmd);
        if k in s.reports {
          AccountsKept(s, env, cmds, cmd, s.chain, s.budget);
        } else {
          var (chain, out) := Perform(s.chain, env.deployer, k).value;
          PerformKeeps(first, env, s, k, chain, out);
          AccountsKept(s, env, cmds, cmd, chain, s'.budget);
          NewAccount(env, k, s', cmds, cmd);
        }
    }
  }

  lemma NewAccount(env: Env, k: Key, s: St, cmds: seq<Cmd>, cmd: Cmd)
    requires k in s.reports && Accounted(k, s.chain, cmds + [cmd])
    requires forall k' :: k' in s.reports && k' != k && k'.selector == env.selector ==>
      Accounted(k', s.chain, cmds + [cmd])
    ensures Accounts(s, env, cmds + [cmd])
  {}

  lemma {:induction false} FoldKeeps(first: Address, env: Env, before: seq<Cmd>, s: St, l: Local, cmds: seq<Cmd>)
    requires Inv(first, env, before, s, l) && FreshRefs(before + cmds)
    requires forall c :: c in cmds ==> GoodCmd(c)
    requires Fold(s, env, l, cmds).1.Done?
    ensures
      var (s', o) := Fold(s, env, l, cmds);
      Inv(first, env, before + cmds, s', o.value)
  {
    if cmds == [] {
      assert before + cmds == before;
    } else {
      var rest, last := cmds[..|cmds| - 1], cmds[|cmds| - 1];
      assert cmds == rest + [last];
      var all := before + cmds;
      assert before + rest == all[..|all| - 1] && all[|all| - 1] == last;
      assert FreshRefs(before + rest) by {
        forall i | 0 <= i < |before + rest|
          ensures FreshCmd((before + rest)[i], (before + rest)[..i])
        {
          assert (before + rest)[..i] == all[..i] && (before + rest)[i] == all[i];
        }
      }
      FoldKeeps(first, env, before, s, l, rest);
      var (sr, or) := Fold(s, env, l, rest);
      assert FreshCmd(all[|all| - 1], all[..|all| - 1]);
      StepKeeps(first, env, before + rest, sr, or.value, last);
      assert before + rest + [last] == before + cmds;
    }
  }
}
