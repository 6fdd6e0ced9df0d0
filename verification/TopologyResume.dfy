/** Resumption of interrupted runs: killed anywhere and run again over the same
    report store, a run ends where one uninterrupted run would have ended. */
module TopologyResume {
  import opened Wrappers
  import opened Evm
  import opened RoleTables
  import opened Topology
  import opened TopologyRun

  function With(s: St, budget: nat): St {
    s.(budget := budget)
  }

  /** Every contract address is below `next`. */
  predicate ValidChain(c: Chain) {
    && (forall a :: a in c.ownables ==> a < c.next)
    && (forall a :: a in c.configs ==> a < c.next)
    && (forall a :: a in c.tables ==> a < c.next)
    && (forall a :: a in c.proxies ==> a < c.next)
  }

  predicate Sub(m: map<string, Address>, all: map<string, Address>) {
    forall ref :: ref in m ==> ref in all && all[ref] == m[ref]
  }

  /** Transfer and accept commands: their target, and the timelock. */
  predicate Owning(cmd: Cmd) {
    cmd.TransferCmd? || cmd.AcceptCmd?
  }

  predicate Ready(l: Local, cmd: Cmd)
    requires Owning(cmd)
  {
    cmd.tl.ref in l.refToAddr && ResolveHolder(cmd.holder, l.refToAddr).Some?
  }

  function Target(l: Local, cmd: Cmd): Address
    requires Owning(cmd) && Ready(l, cmd)
  {
    ResolveHolder(cmd.holder, l.refToAddr).value
  }

  function NewOwner(l: Local, cmd: Cmd): Address
    requires Owning(cmd) && Ready(l, cmd)
  {
    l.refToAddr[cmd.tl.ref]
  }

  /** Under the final refs `all`, commands with the same target have the same timelock. */
  predicate ClashFree(x: Cmd, y: Cmd, all: map<string, Address>) {
    Owning(x) && Owning(y) && ResolveHolder(x.holder, all).Some?
      && ResolveHolder(x.holder, all) == ResolveHolder(y.holder, all) ==>
      x.tl.ref == y.tl.ref
  }

  predicate NoClash(cmds: seq<Cmd>, all: map<string, Address>) {
    forall x, y :: x in cmds && y in cmds ==> ClashFree(x, y, all)
  }

  /** Each accept comes right after its transfer. */
  predicate Paired(cmds: seq<Cmd>) {
    forall i :: 0 <= i < |cmds| && cmds[i].AcceptCmd? ==>
      i > 0 && cmds[i - 1] == TransferCmd(cmds[i].tl, cmds[i].holder)
  }

  /** The refs a run assigns are those of `all`, at every point. */
  predicate Along(s: St, env: Env, l: Local, cmds: seq<Cmd>, all: map<string, Address>) {
    forall i :: 0 <= i <= |cmds| ==>
      var r := Fold(s, env, l, cmds[..i]).1;
      r.Done? ==> Sub(r.value.refToAddr, all)
  }

  // ----- settled commands

  /** The command needs no operation any more: with no budget it completes. */
  predicate Settled(s: St, env: Env, l: Local, cmd: Cmd) {
    Step(With(s, 0), env, l, cmd).1.Done?
  }

  /** The transfer of an ownership command has been dealt with. */
  predicate Transferred(s: St, env: Env, l: Local, cmd: Cmd)
    requires Owning(cmd)
  {
    && Ready(l, cmd)
    && var c := Target(l, cmd);
    || c in l.seen
    || (c in s.chain.ownables && s.chain.ownables[c].owner == NewOwner(l, cmd))
    || TransferKey(env.selector, c, NewOwner(l, cmd)) in s.reports
  }

  predicate Firm(s: St, env: Env, l: Local, cmd: Cmd) {
    Settled(s, env, l, cmd) && (Owning(cmd) ==> Transferred(s, env, l, cmd))
  }

  lemma SettledKeepsState(s: St, env: Env, l: Local, cmd: Cmd, budget: nat)
    requires Settled(s, env, l, cmd)
    ensures Step(With(s, budget), env, l, cmd) == (With(s, budget), Step(With(s, 0), env, l, cmd).1)
  {}

  // ----- what a step can change

  /** Reports, contracts and role tables only grow, and ownership changes only at `moved`. */
  predicate Grows(s: St, s': St, moved: Option<Address>) {
    && (forall k :: k in s.reports ==> k in s'.reports && s'.reports[k] == s.reports[k])
    && (forall t :: t in s.chain.tables ==>
          t in s'.chain.tables && forall role: Role :: s.chain.tables[t].Get(role) <= s'.chain.tables[t].Get(role))
    && (forall c :: c in s.chain.ownables ==>
          c in s'.chain.ownables && (moved != Some(c) ==> s'.chain.ownables[c] == s.chain.ownables[c]))
    && ValidChain(s'.chain)
  }

  /** The contract whose ownership the command is about to change, if any. */
  function Moved(s: St, env: Env, l: Local, cmd: Cmd): Option<Address> {
    match Decide(s.chain, env, l, cmd)
    case Do(TransferKey(sel, c, to)) => if TransferKey(sel, c, to) in s.reports then None else Some(c)
    case _ => None
  }

  lemma PerformGrows(s: St, deployer: Address, k: Key)
    requires ValidChain(s.chain)
    ensures
      var s' := Execute(s, deployer, k).0;
      Grows(s, s', if k.TransferKey? && k !in s.reports then Some(k.contract) else None)
  {
    var s' := Execute(s, deployer, k).0;
    if k.GrantKey? && k.timelock in s.chain.tables && s'.chain != s.chain {
      var t, t' := s.chain.tables[k.timelock], s'.chain.tables[k.timelock];
      forall role: Role
        ensures t.Get(role) <= t'.Get(role)
      {
        if k.role == Unsupported { assert t' == t; }
      }
    }
  }

  lemma StepGrows(s: St, env: Env, l: Local, cmd: Cmd)
    requires ValidChain(s.chain)
    ensures Grows(s, Step(s, env, l, cmd).0, Moved(s, env, l, cmd))
  {
    match Decide(s.chain, env, l, cmd) {
      case Do(k) => PerformGrows(s, env.deployer, k);
      case _ =>
    }
  }

  /** A firm command stays firm, with the same outcome, when others proceed and
      leave its target alone. */
  lemma FirmStays(s: St, s': St, moved: Option<Address>, env: Env, l: Local, cmd: Cmd)
    requires Firm(s, env, l, cmd) && Grows(s, s', moved)
    requires Owning(cmd) && Target(l, cmd) !in l.seen ==> moved != Some(Target(l, cmd))
    ensures Firm(s', env, l, cmd)
    ensures Step(With(s', 0), env, l, cmd).1 == Step(With(s, 0), env, l, cmd).1
  {
    if Owning(cmd) && Target(l, cmd) !in l.seen {
      var c := Target(l, cmd);
      assert c in s.chain.ownables && s'.chain.ownables[c] == s.chain.ownables[c];
    }
  }

  /** If the next command moves the target of a firm one, it would have to be
      another timelock's claim to it. */
  lemma TargetSafe(s: St, env: Env, l: Local, cmd: Cmd, l': Local, cmd': Cmd, all: map<string, Address>)
    requires Firm(s, env, l, cmd) && Owning(cmd) && Target(l, cmd) !in l.seen
    requires Sub(l.refToAddr, all) && Sub(l'.refToAddr, all) && ClashFree(cmd, cmd', all)
    ensures Moved(s, env, l', cmd') != Some(Target(l, cmd))
  {
    var c := Target(l, cmd);
    if cmd'.TransferCmd? && Ready(l', cmd') && Target(l', cmd') == c {
      SubResolves(cmd.holder, l.refToAddr, all);
      SubResolves(cmd'.holder, l'.refToAddr, all);
      assert NewOwner(l, cmd) == NewOwner(l', cmd');
    }
  }

  lemma SubResolves(h: RoleHolder, m: map<string, Address>, all: map<string, Address>)
    requires Sub(m, all) && ResolveHolder(h, m).Some?
    ensures ResolveHolder(h, all) == ResolveHolder(h, m)
  {}

  // ----- settled prefixes

  /** Run again with no budget, every command of the prefix is firm. */
  predicate AllFirm(s: St, env: Env, l: Local, cmds: seq<Cmd>, all: map<string, Address>) {
    cmds == [] ||
    (&& AllFirm(s, env, l, cmds[..|cmds| - 1], all)
     && var (s1, o) := Fold(With(s, 0), env, l, cmds[..|cmds| - 1]);
     s1 == With(s, 0) && o.Done? && Sub(o.value.refToAddr, all) && Firm(s, env, o.value, cmds[|cmds| - 1]))
  }

  lemma {:induction false} AllFirmFolds(s: St, env: Env, l: Local, cmds: seq<Cmd>, all: map<string, Address>,
                                        budget: nat)
    requires AllFirm(s, env, l, cmds, all)
    ensures
      var o := Fold(With(s, 0), env, l, cmds).1;
      o.Done? && Fold(With(s, budget), env, l, cmds) == (With(s, budget), o)
        && Fold(With(s, 0), env, l, cmds) == (With(s, 0), o)
  {
    if cmds != [] {
      var rest, last := cmds[..|cmds| - 1], cmds[|cmds| - 1];
      AllFirmFolds(s, env, l, rest, all, budget);
      SettledKeepsState(s, env, Fold(With(s, 0), env, l, rest).1.value, last, budget);
      SettledKeepsState(s, env, Fold(With(s, 0), env, l, rest).1.value, last, 0);
    }
  }

  lemma {:induction false} PrefixStaysFirm(s: St, env: Env, l: Local, cmds: seq<Cmd>, all: map<string, Address>,
                                           l': Local, cmd': Cmd)
    requires ValidChain(s.chain) && AllFirm(s, env, l, cmds, all) && Sub(l'.refToAddr, all)
    requires forall x :: x in cmds ==> ClashFree(x, cmd', all)
    ensures
      var s' := Step(s, env, l', cmd').0;
      && AllFirm(s', env, l, cmds, all)
      && Fold(With(s', 0), env, l, cmds) == (With(s', 0), Fold(With(s, 0), env, l, cmds).1)
  {
    if cmds != [] {
      var rest, last := cmds[..|cmds| - 1], cmds[|cmds| - 1];
      assert cmds == rest + [last];
      var s' := Step(s, env, l', cmd').0;
      PrefixStaysFirm(s, env, l, rest, all, l', cmd');
      AllFirmFolds(s, env, l, rest, all, 0);
      var lr := Fold(With(s, 0), env, l, rest).1.value;
      StepGrows(s, env, l', cmd');
      if Owning(last) && Target(lr, last) !in lr.seen {
        TargetSafe(s, env, lr, last, l', cmd', all);
      }
      FirmStays(s, s', Moved(s, env, l', cmd'), env, lr, last);
      SettledKeepsState(s', env, lr, last, 0);
    }
  }

  /** A command that has completed is firm. */
  lemma StepSettles(s: St, env: Env, l: Local, cmd: Cmd)
    requires Step(s, env, l, cmd).1.Done?
    requires cmd.AcceptCmd? ==> Transferred(s, env, l, cmd)
    ensures
      var (s', o) := Step(s, env, l, cmd);
      Firm(s', env, l, cmd) && Step(With(s', 0), env, l, cmd).1 == o
  {}

  /** After a completed fold every command is firm, with the same outcome. */
  lemma {:induction false} FoldSettles(s: St, env: Env, l: Local, cmds: seq<Cmd>, all: map<string, Address>)
    requires ValidChain(s.chain) && Paired(cmds) && NoClash(cmds, all) && Along(s, env, l, cmds, all)
    requires Fold(s, env, l, cmds).1.Done?
    ensures
      var (s1, o) := Fold(s, env, l, cmds);
      && ValidChain(s1.chain)
      && AllFirm(s1, env, l, cmds, all)
      && Fold(With(s1, 0), env, l, cmds) == (With(s1, 0), o)
  {
    if cmds != [] {
      var rest, last := cmds[..|cmds| - 1], cmds[|cmds| - 1];
      assert cmds == rest + [last];
      RestAlong(s, env, l, cmds, all);
      FoldSettles(s, env, l, rest, all);
      var (sr, or) := Fold(s, env, l, rest);
      assert rest == cmds[..|rest|] && Sub(or.value.refToAddr, all);
      var s1 := Step(sr, env, or.value, last).0;
      if last.AcceptCmd? {
        AcceptAfterTransfer(sr, env, l, rest, all, last);
      }
      StepGrows(sr, env, or.value, last);
      PrefixStaysFirm(sr, env, l, rest, all, or.value, last);
      StepSettles(sr, env, or.value, last);
      SettledKeepsState(s1, env, or.value, last, 0);
    }
  }

  lemma RestAlong(s: St, env: Env, l: Local, cmds: seq<Cmd>, all: map<string, Address>)
    requires cmds != [] && Paired(cmds) && NoClash(cmds, all) && Along(s, env, l, cmds, all)
    ensures
      var rest := cmds[..|cmds| - 1];
      Paired(rest) && NoClash(rest, all) && Along(s, env, l, rest, all)
  {
    var rest := cmds[..|cmds| - 1];
    assert forall i :: 0 <= i <= |rest| ==> rest[..i] == cmds[..i];
    assert forall x :: x in rest ==> x in cmds;
  }

  lemma AcceptAfterTransfer(s: St, env: Env, l: Local, rest: seq<Cmd>, all: map<string, Address>, cmd: Cmd)
    requires AllFirm(s, env, l, rest, all) && Fold(With(s, 0), env, l, rest).1.Done?
    requires cmd.AcceptCmd? && rest != [] && rest[|rest| - 1] == TransferCmd(cmd.tl, cmd.holder)
    ensures Transferred(s, env, Fold(With(s, 0), env, l, rest).1.value, cmd)
  {
    var before := Fold(With(s, 0), env, l, rest[..|rest| - 1]).1.value;
    assert Firm(s, env, before, TransferCmd(cmd.tl, cmd.holder));
    assert Fold(With(s, 0), env, l, rest).1.value == before;
  }

  // ----- running again

  predicate SameUpToBudget(r: (St, Outcome<Local>), r': (St, Outcome<Local>)) {
    r.1 == r'.1 && With(r.0, 0) == With(r'.0, 0)
  }

  /** More budget does not change a run that was not killed. */
  lemma {:induction false} MoreBudget(s: St, env: Env, l: Local, cmds: seq<Cmd>, more: nat)
    requires !Fold(s, env, l, cmds).1.Killed?
    ensures
      var (s1, o) := Fold(s, env, l, cmds);
      Fold(With(s, s.budget + more), env, l, cmds) == (With(s1, s1.budget + more), o)
  {
    hide Fold, Step;
    if cmds == [] {
      FoldNone(s, env, l);
      FoldNone(With(s, s.budget + more), env, l);
    } else {
      var rest, last := cmds[..|cmds| - 1], cmds[|cmds| - 1];
      assert cmds == rest + [last];
      FoldSnoc(s, env, l, rest, last);
      FoldSnoc(With(s, s.budget + more), env, l, rest, last);
      MoreBudget(s, env, l, rest, more);
      var (sr, or) := Fold(s, env, l, rest);
      if or.Done? {
        StepMoreBudget(sr, env, or.value, last, more);
      }
    }
  }

  lemma StepMoreBudget(s: St, env: Env, l: Local, cmd: Cmd, more: nat)
    requires !Step(s, env, l, cmd).1.Killed?
    ensures
      var (s1, o) := Step(s, env, l, cmd);
      Step(With(s, s.budget + more), env, l, cmd) == (With(s1, s1.budget + more), o)
  {}

  /** A run that was killed, failed or completed, and is run again over the reports
      and the chain it left, comes out as if it had had both budgets at once. */
  lemma {:induction false} RunAgain(s: St, env: Env, l: Local, cmds: seq<Cmd>, all: map<string, Address>, more: nat)
    requires ValidChain(s.chain) && Paired(cmds) && NoClash(cmds, all) && Along(s, env, l, cmds, all)
    ensures
      var (s1, o) := Fold(s, env, l, cmds);
      var again, once := Fold(With(s1, more), env, l, cmds), Fold(With(s, s.budget + more), env, l, cmds);
      SameUpToBudget(again, once) && (o.Killed? ==> again == once)
  {
    hide Step, Fold, AllFirm;
    var (s1, o) := Fold(s, env, l, cmds);
    if o.Done? {
      FoldSettles(s, env, l, cmds, all);
      AllFirmFolds(s1, env, l, cmds, all, more);
      MoreBudget(s, env, l, cmds, more);
    } else {
      FoldNone(s, env, l);
      var rest, last := cmds[..|cmds| - 1], cmds[|cmds| - 1];
      assert cmds == rest + [last];
      RestAlong(s, env, l, cmds, all);
      if Fold(s, env, l, rest).1.Done? {
        FoldSettles(s, env, l, rest, all);
        StoppedAtLast(s, env, l, rest, last, all, more);
      } else {
        RunAgain(s, env, l, rest, all, more);
        StoppedBefore(s, env, l, rest, last, more);
      }
    }
  }

  lemma StoppedBefore(s: St, env: Env, l: Local, rest: seq<Cmd>, last: Cmd, more: nat)
    requires !Fold(s, env, l, rest).1.Done?
    requires
      var (s1, o) := Fold(s, env, l, rest);
      var again, once := Fold(With(s1, more), env, l, rest), Fold(With(s, s.budget + more), env, l, rest);
      SameUpToBudget(again, once) && (o.Killed? ==> again == once)
    ensures
      var (s1, o) := Fold(s, env, l, rest + [last]);
      var again, once :=
        Fold(With(s1, more), env, l, rest + [last]), Fold(With(s, s.budget + more), env, l, rest + [last]);
      SameUpToBudget(again, once) && (o.Killed? ==> again == once)
  {
    var s1 := Fold(s, env, l, rest).0;
    if Fold(s, env, l, rest).1.Failed? {
      MoreBudget(s, env, l, rest, more);
    }
    FoldSnoc(s, env, l, rest, last);
    FoldSnoc(With(s1, more), env, l, rest, last);
    FoldSnoc(With(s, s.budget + more), env, l, rest, last);
    hide Step, Fold;
  }

  lemma StoppedAtLast(s: St, env: Env, l: Local, rest: seq<Cmd>, last: Cmd, all: map<string, Address>, more: nat)
    requires Fold(s, env, l, rest).1.Done? && !Fold(s, env, l, rest + [last]).1.Done?
    requires
      var (sr, or) := Fold(s, env, l, rest);
      AllFirm(sr, env, l, rest, all) && Fold(With(sr, 0), env, l, rest) == (With(sr, 0), or)
    ensures
      var (s1, o) := Fold(s, env, l, rest + [last]);
      var again, once :=
        Fold(With(s1, more), env, l, rest + [last]), Fold(With(s, s.budget + more), env, l, rest + [last]);
      SameUpToBudget(again, once) && (o.Killed? ==> again == once)
  {
    hide Step, AllFirm, Fold;
    var (sr, or) := Fold(s, env, l, rest);
    AllFirmFolds(sr, env, l, rest, all, more);
    MoreBudget(s, env, l, rest, more);
    FoldSnoc(s, env, l, rest, last);
    StoppedStep(sr, env, or.value, last, more);
    StoppedStep(sr, env, or.value, last, sr.budget + more);
    FoldSnoc(With(sr, more), env, l, rest, last);
    FoldSnoc(With(s, s.budget + more), env, l, rest, last);
  }

  lemma StoppedStep(s: St, env: Env, l: Local, cmd: Cmd, budget: nat)
    requires !Step(s, env, l, cmd).1.Done?
    ensures
      var (s', o) := Step(s, env, l, cmd);
      && s' == s
      && (o.Killed? ==> s.budget == 0)
      && (o.Failed? ==> Step(With(s, budget), env, l, cmd) == (With(s, budget), o))
  {}
}
