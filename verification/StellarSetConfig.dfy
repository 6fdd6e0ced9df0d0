/** Stellar set-config: sending now against proposing now and executing later. */
module StellarSetConfig {
  import opened Wrappers
  import opened StellarIdentity
  import opened Sequences

  datatype Target = Target(address: Address, config: Config, contractType: string)

  /** A set_config call with clearRoot set, as carried by a batch operation. */
  datatype BatchOp = SetConfigCall(address: Address, config: Config)

  datatype Error = InvalidTarget | NoConfigRead | Rejected | Unresolved

  /** Inputs of the memoised operation. Its idempotency key, chain and target
      address, adds nothing to the input on one chain. */
  datatype OpInput = OpInput(target: Target, noSend: bool)

  type Reports = map<OpInput, Option<BatchOp>>

  datatype World = World(ledger: Ledger, reports: Reports)

  /** setStellarMCMConfig. `allowed` are the contracts whose owner sends the call. */
  function SetConfig(ledger: Ledger, allowed: set<Address>, op: OpInput): (Ledger, Result<Option<BatchOp>, Error>) {
    var t := op.target;
    if t.address == NoAddress || t.contractType == "" || !t.config.valid then (ledger, Failure(InvalidTarget))
    else if t.address !in ledger then (ledger, Failure(NoConfigRead))
    else if t.config == ledger[t.address].config && ledger[t.address].root == 0 then (ledger, Success(None))
    else if op.noSend then (ledger, Success(Some(SetConfigCall(t.address, t.config))))
    else if t.address !in allowed then (ledger, Failure(Rejected))
    else (Updated(ledger, t.address, t.config), Success(None))
  }

  /** The effect of a set_config call that clears the root. */
  function Updated(ledger: Ledger, address: Address, config: Config): Ledger
    requires address in ledger
  {
    ledger[address := ledger[address].(config := config, root := 0)]
  }

  function Execute(w: World, allowed: set<Address>, op: OpInput): (World, Result<Option<BatchOp>, Error>) {
    if op in w.reports then (w, Success(w.reports[op])) else
    match SetConfig(w.ledger, allowed, op)
    case (ledger, Success(out)) => (World(ledger, w.reports[op := out]), Success(out))
    case (ledger, Failure(e)) => (World(ledger, w.reports), Failure(e))
  }

  function Emitted(out: Option<BatchOp>): seq<BatchOp> {
    if out.Some? then [out.value] else []
  }

  /** runStellarSetConfig over resolved targets. */
  function Run(w: World, allowed: set<Address>, targets: seq<Target>, useMCMS: bool)
    : (World, Result<seq<BatchOp>, Error>)
  {
    if targets == [] then (w, Success([])) else
    match Run(w, allowed, targets[..|targets| - 1], useMCMS)
    case (w1, Failure(e)) => (w1, Failure(e))
    case (w1, Success(ops)) =>
      match Execute(w1, allowed, OpInput(targets[|targets| - 1], useMCMS))
      case (w2, Failure(e)) => (w2, Failure(e))
      case (w2, Success(out)) => (w2, Success(if useMCMS then ops + Emitted(out) else ops))
  }

  /** Executing batch operations, by whoever owns the contracts in `allowed`. */
  function ExecuteBatch(ledger: Ledger, allowed: set<Address>, ops: seq<BatchOp>): Option<Ledger> {
    if ops == [] then Some(ledger) else
    match ExecuteBatch(ledger, allowed, ops[..|ops| - 1])
    case None => None
    case Some(l) =>
      var op := ops[|ops| - 1];
      if op.address in l && op.address in allowed then Some(Updated(l, op.address, op.config)) else None
  }

  // ----- with the sequence's own report

  /** What a datastore ref stands for; `NoAddress` stands for any malformed address. */
  datatype RefTarget = RefTarget(address: Address, contractType: string)

  type Refs = map<string, RefTarget>

  datatype ContractSetConfig = ContractSetConfig(ref: string, config: Config)

  /** The sequence is memoised by its input, which holds the refs, not the contracts. */
  datatype Input = Input(configs: seq<ContractSetConfig>, useMCMS: bool)

  predicate Resolves(refs: Refs, input: Input) {
    forall c :: c in input.configs ==> c.ref in refs && refs[c.ref].address != NoAddress
  }

  /** setConfigTargets. */
  function Targets(refs: Refs, input: Input): (r: seq<Target>)
    requires Resolves(refs, input)
    ensures |r| == |input.configs| && forall i :: 0 <= i < |r| ==>
      && r[i].config == input.configs[i].config
      && refs[input.configs[i].ref] == RefTarget(r[i].address, r[i].contractType)
  {
    seq(|input.configs|, i requires 0 <= i < |input.configs| =>
      var c := input.configs[i];
      assert c in input.configs;
      Target(refs[c.ref].address, c.config, refs[c.ref].contractType))
  }

  type Sequence = Store<World, Input, seq<BatchOp>>

  function RunSequence(s: Sequence, refs: Refs, allowed: set<Address>, input: Input)
    : (Sequence, Result<seq<BatchOp>, Error>)
  {
    ExecuteSequence(s, input,
      if Resolves(refs, input) then Run(s.world, allowed, Targets(refs, input), input.useMCMS)
      else (s.world, Failure(Unresolved)))
  }

  // ----- the code, step by step

  class Session {
    const allowed: set<Address>
    var ledger: Ledger
    var reports: Reports
    var outputs: map<Input, seq<BatchOp>>

    function State(): World
      reads this
    {
      World(ledger, reports)
    }

    constructor (s: Sequence, allowed: set<Address>)
      ensures Store(State(), outputs) == s && this.allowed == allowed
    {
      this.ledger, this.reports, this.outputs, this.allowed := s.world.ledger, s.world.reports, s.outputs, allowed;
    }

    method SetStellarMCMConfig(op: OpInput) returns (r: Result<Option<BatchOp>, Error>)
      modifies this`ledger
      ensures (ledger, r) == SetConfig(old(ledger), allowed, op)
    {
      var t := op.target;
      if t.address == NoAddress {
        return Failure(InvalidTarget);
      }
      if t.contractType == "" {
        return Failure(InvalidTarget);
      }
      if !t.config.valid {
        return Failure(InvalidTarget);
      }
      if t.address !in ledger {
        return Failure(NoConfigRead);
      }
      if t.config == ledger[t.address].config {
        var root := ledger[t.address].root;
        if root == 0 {
          return Success(None);
        }
      }
      if !op.noSend {
        if t.address !in allowed {
          return Failure(Rejected);
        }
        ledger := Updated(ledger, t.address, t.config);
        return Success(None);
      }
      return Success(Some(SetConfigCall(t.address, t.config)));
    }

    method ExecuteOperation(op: OpInput) returns (r: Result<Option<BatchOp>, Error>)
      modifies this`ledger, this`reports
      ensures (State(), r) == Execute(old(State()), allowed, op)
    {
      if op in reports {
        return Success(reports[op]);
      }
      r := SetStellarMCMConfig(op);
      if r.Success? {
        reports := reports[op := r.value];
      }
    }

    method RunStellarSetConfig(targets: seq<Target>, useMCMS: bool) returns (r: Result<seq<BatchOp>, Error>)
      modifies this`ledger, this`reports
      ensures (State(), r) == Run(old(State()), allowed, targets, useMCMS)
    {
      var batchOps: seq<BatchOp> := [];
      ghost var start := State();
      for i := 0 to |targets|
        invariant (State(), Success(batchOps)) == Run(start, allowed, targets[..i], useMCMS)
      {
        assert targets[..i + 1][..i] == targets[..i] && targets[..i + 1][i] == targets[i];
        var report := ExecuteOperation(OpInput(targets[i], useMCMS));
        if report.Failure? {
          FailureStops(start, allowed, targets, useMCMS, i + 1);
          return Failure(report.error);
        }
        assert batchOps + [] == batchOps;
        if useMCMS && report.value.Some? {
          batchOps := batchOps + [report.value.value];
        }
      }
      assert targets[..|targets|] == targets;
      return Success(batchOps);
    }

    method SetConfigTargets(refs: Refs, input: Input) returns (r: Option<seq<Target>>)
      ensures r.Some? <==> Resolves(refs, input)
      ensures r.Some? ==> r.value == Targets(refs, input)
    {
      var targets: seq<Target> := [];
      for i := 0 to |input.configs|
        invariant |targets| == i
        invariant forall j :: 0 <= j < i ==>
          var c := input.configs[j];
          && c.ref in refs && refs[c.ref].address != NoAddress
          && targets[j] == Target(refs[c.ref].address, c.config, refs[c.ref].contractType)
      {
        var c := input.configs[i];
        assert c in input.configs;
        if c.ref !in refs {
          return None;
        }
        if refs[c.ref].address == NoAddress {
          return None;
        }
        targets := targets + [Target(refs[c.ref].address, c.config, refs[c.ref].contractType)];
      }
      return Some(targets);
    }

    method ExecuteSetConfig(refs: Refs, input: Input) returns (r: Result<seq<BatchOp>, Error>)
      modifies this
      ensures (Store(State(), outputs), r) == RunSequence(old(Store(State(), outputs)), refs, allowed, input)
    {
      if input in outputs {
        return Success(outputs[input]);
      }
      var targets := SetConfigTargets(refs, input);
      if targets.None? {
        return Failure(Unresolved);
      }
      r := RunStellarSetConfig(targets.value, input.useMCMS);
      if r.Success? {
        outputs := outputs[input := r.value];
      }
    }
  }

  lemma {:induction false} FailureStops(w: World, allowed: set<Address>, targets: seq<Target>, useMCMS: bool, n: nat)
    requires n <= |targets|
    requires Run(w, allowed, targets[..n], useMCMS).1.Failure?
    ensures Run(w, allowed, targets, useMCMS) == Run(w, allowed, targets[..n], useMCMS)
    decreases |targets|
  {
    if n < |targets| {
      assert targets[..|targets| - 1][..n] == targets[..n];
      FailureStops(w, allowed, targets[..|targets| - 1], useMCMS, n);
    } else {
      assert targets[..n] == targets;
    }
  }

  // ----- what a run comes to, over any reports

  predicate ValidTarget(t: Target) {
    t.address != NoAddress && t.contractType != "" && t.config.valid
  }

  /** The config already matches and no root is set. */
  predicate UpToDate(ledger: Ledger, t: Target) {
    t.address in ledger && ledger[t.address].config == t.config && ledger[t.address].root == 0
  }

  /** One direct call succeeds exactly on a well-formed target on the ledger that is the
      sender's or up to date. It leaves the target up to date and everything else as it
      was; a failed one changes nothing. A proposing one succeeds on all well-formed
      targets on the ledger, returns a call exactly for those not up to date, and
      changes nothing. */
  lemma CallOutcome(ledger: Ledger, allowed: set<Address>, t: Target)
    ensures
      var (sent, r) := SetConfig(ledger, allowed, OpInput(t, false));
      var (same, p) := SetConfig(ledger, allowed, OpInput(t, true));
      && (r.Success? <==> Sendable(ledger, allowed, t))
      && (r.Success? ==>
            && r.value == None && UpToDate(sent, t)
            && sent == ledger[t.address := ledger[t.address].(config := t.config, root := 0)])
      && (r.Failure? ==> sent == ledger)
      && same == ledger
      && (p.Success? <==> ValidTarget(t) && t.address in ledger)
      && (p.Success? ==> p.value == CallFor(ledger, t))
  {
    if UpToDate(ledger, t) {
      assert ledger[t.address := ledger[t.address]] == ledger;
    }
  }

  predicate Sendable(ledger: Ledger, allowed: set<Address>, t: Target) {
    ValidTarget(t) && t.address in ledger && (t.address in allowed || UpToDate(ledger, t))
  }

  function CallFor(ledger: Ledger, t: Target): Option<BatchOp> {
    if UpToDate(ledger, t) then None else Some(SetConfigCall(t.address, t.config))
  }

  /** The run gets past this target: it is reported, or its call succeeds on the
      starting ledger. */
  predicate Goes(w: World, allowed: set<Address>, t: Target, useMCMS: bool) {
    || OpInput(t, useMCMS) in w.reports
    || (if useMCMS then ValidTarget(t) && t.address in w.ledger else Sendable(w.ledger, allowed, t))
  }

  /** The last target for `a` that is neither reported nor a repeat of an earlier one. */
  function LastFresh(reports: Reports, targets: seq<Target>, a: Address): Option<Config> {
    if targets == [] then None
    else
      var rest, t := targets[..|targets| - 1], targets[|targets| - 1];
      if t.address == a && t !in rest && OpInput(t, false) !in reports then Some(t.config)
      else LastFresh(reports, rest, a)
  }

  function Overlay(instance: Instance, c: Option<Config>): Instance {
    if c.Some? then instance.(config := c.value, root := 0) else instance
  }

  function SentLedger(ledger: Ledger, reports: Reports, targets: seq<Target>): Ledger {
    map a | a in ledger :: Overlay(ledger[a], LastFresh(reports, targets, a))
  }

  /** The calls a proposed run returns, in order, repeats included: as reported, or one
      for a target that is not up to date. */
  function Calls(w: World, targets: seq<Target>): seq<BatchOp> {
    if targets == [] then []
    else
      var rest, t := targets[..|targets| - 1], targets[|targets| - 1];
      var call := if OpInput(t, true) in w.reports then w.reports[OpInput(t, true)] else CallFor(w.ledger, t);
      Calls(w, rest) + if call.Some? then [call.value] else []
  }

  function Keys(targets: seq<Target>, noSend: bool): set<OpInput> {
    set t | t in targets :: OpInput(t, noSend)
  }

  /** What a run that gets past all these targets leaves. */
  ghost predicate Left(w: World, targets: seq<Target>, useMCMS: bool, w': World) {
    && w'.ledger == (if useMCMS then w.ledger else SentLedger(w.ledger, w.reports, targets))
    && w'.reports.Keys == w.reports.Keys + Keys(targets, useMCMS)
    && forall op :: op in w'.reports ==>
         w'.reports[op] == if op in w.reports then w.reports[op]
                           else if useMCMS then CallFor(w.ledger, op.target) else None
  }

  lemma {:induction false} LastFreshSome(reports: Reports, targets: seq<Target>, a: Address)
    ensures LastFresh(reports, targets, a).Some? <==>
      exists t :: t in targets && t.address == a && OpInput(t, false) !in reports
    ensures LastFresh(reports, targets, a).Some? ==>
      exists t :: t in targets && t.address == a && t.config == LastFresh(reports, targets, a).value
        && OpInput(t, false) !in reports
  {
    if targets != [] {
      var rest, t := targets[..|targets| - 1], targets[|targets| - 1];
      LastFreshSome(reports, rest, a);
      assert targets == rest + [t];
      if LastFresh(reports, rest, a).Some? && !(t.address == a && t !in rest && OpInput(t, false) !in reports) {
        var u :| u in rest && u.address == a && u.config == LastFresh(reports, rest, a).value
          && OpInput(u, false) !in reports;
        assert u in targets;
      }
    }
  }

  /** A contract that is not the sender's stays as it is. */
  lemma NotSent(w: World, allowed: set<Address>, targets: seq<Target>, a: Address)
    requires forall t :: t in targets ==> Goes(w, allowed, t, false)
    requires a in w.ledger && a !in allowed
    ensures SentLedger(w.ledger, w.reports, targets)[a] == w.ledger[a]
  {
    LastFreshSome(w.reports, targets, a);
    if LastFresh(w.reports, targets, a).Some? {
      var t :| t in targets && t.address == a && t.config == LastFresh(w.reports, targets, a).value
        && OpInput(t, false) !in w.reports;
      assert Goes(w, allowed, t, false);
    }
  }

  /** So a target goes on the ledger that earlier ones leave exactly if it does on the first. */
  lemma GoesAlike(w: World, allowed: set<Address>, targets: seq<Target>, t: Target)
    requires forall u :: u in targets ==> Goes(w, allowed, u, false)
    ensures Sendable(SentLedger(w.ledger, w.reports, targets), allowed, t) <==> Sendable(w.ledger, allowed, t)
  {
    if t.address in w.ledger && t.address !in allowed {
      NotSent(w, allowed, targets, t.address);
    }
  }

  lemma {:induction false} AllGo(w: World, allowed: set<Address>, targets: seq<Target>, useMCMS: bool)
    requires forall t :: t in targets ==> Goes(w, allowed, t, useMCMS)
    ensures
      var (w', r) := Run(w, allowed, targets, useMCMS);
      r == Success(if useMCMS then Calls(w, targets) else []) && Left(w, targets, useMCMS, w')
  {
    if targets == [] {
      assert SentLedger(w.ledger, w.reports, targets) == w.ledger;
    } else {
      var rest, t := targets[..|targets| - 1], targets[|targets| - 1];
      assert targets == rest + [t];
      AllGo(w, allowed, rest, useMCMS);
      OneGoes(w, allowed, rest, t, useMCMS, Run(w, allowed, rest, useMCMS).0);
    }
  }

  lemma OneGoes(w: World, allowed: set<Address>, rest: seq<Target>, t: Target, useMCMS: bool, w1: World)
    requires Left(w, rest, useMCMS, w1) && Goes(w, allowed, t, useMCMS)
    requires forall u :: u in rest ==> Goes(w, allowed, u, useMCMS)
    ensures
      var (w2, o) := Execute(w1, allowed, OpInput(t, useMCMS));
      && Left(w, rest + [t], useMCMS, w2) && o.Success?
      && (useMCMS ==>
            o.value == if OpInput(t, true) in w.reports then w.reports[OpInput(t, true)] else CallFor(w.ledger, t))
  {
    var op := OpInput(t, useMCMS);
    KeysOneMore(rest, t, useMCMS);
    CallOutcome(w1.ledger, allowed, t);
    if useMCMS {
      hide SetConfig, Keys, SentLedger, Sendable, ValidTarget, UpToDate;
    } else {
      GoesAlike(w, allowed, rest, t);
      SentOneMore(w, rest, t);
      hide SetConfig, Keys, SentLedger, Sendable, ValidTarget, UpToDate;
      var w2 := Execute(w1, allowed, op).0;
      assert w2.ledger == SentLedger(w.ledger, w.reports, rest + [t]);
    }
  }

  lemma KeysOneMore(rest: seq<Target>, t: Target, noSend: bool)
    ensures OpInput(t, noSend) in Keys(rest, noSend) <==> t in rest
    ensures Keys(rest + [t], noSend) == Keys(rest, noSend) + {OpInput(t, noSend)}
  {}

  lemma SentOneMore(w: World, rest: seq<Target>, t: Target)
    ensures
      var before, after := SentLedger(w.ledger, w.reports, rest), SentLedger(w.ledger, w.reports, rest + [t]);
      after == if t in rest || OpInput(t, false) in w.reports || t.address !in w.ledger then before
               else before[t.address := before[t.address].(config := t.config, root := 0)]
  {
    assert (rest + [t])[..|rest|] == rest;
  }

  /** Over any reports a run succeeds exactly when it gets past every target: in direct
      mode those reported, and those well-formed, on the ledger, and the sender's or up
      to date; proposing, those reported, well-formed or on the ledger. It then returns
      the calls. Otherwise it has done exactly what it does for the targets before the
      first it does not get past, and that one wrote and recorded nothing. */
  lemma RunOutcome(w: World, allowed: set<Address>, targets: seq<Target>, useMCMS: bool)
    ensures
      var (w', r) := Run(w, allowed, targets, useMCMS);
      && (r.Success? <==> forall t :: t in targets ==> Goes(w, allowed, t, useMCMS))
      && (r.Success? ==> r.value == if useMCMS then Calls(w, targets) else [])
      && (r.Success? ==> Left(w, targets, useMCMS, w'))
      && (r.Failure? ==>
            exists k :: 0 <= k < |targets| && FirstToFail(w, allowed, targets, useMCMS, k)
              && Left(w, targets[..k], useMCMS, w'))
  {
    if forall t :: t in targets ==> Goes(w, allowed, t, useMCMS) {
      AllGo(w, allowed, targets, useMCMS);
    } else {
      var k := FindFailing(w, allowed, targets, useMCMS, |targets|);
      FailsAt(w, allowed, targets, useMCMS, k);
    }
  }

  predicate FirstToFail(w: World, allowed: set<Address>, targets: seq<Target>, useMCMS: bool, k: nat)
    requires k < |targets|
  {
    !Goes(w, allowed, targets[k], useMCMS) && forall t :: t in targets[..k] ==> Goes(w, allowed, t, useMCMS)
  }

  lemma {:induction false} FindFailing(w: World, allowed: set<Address>, targets: seq<Target>, useMCMS: bool, n: nat)
    returns (k: nat)
    requires n <= |targets| && exists t :: t in targets[..n] && !Goes(w, allowed, t, useMCMS)
    ensures k < n && FirstToFail(w, allowed, targets, useMCMS, k)
  {
    assert targets[..n] == targets[..n - 1] + [targets[n - 1]];
    if t :| t in targets[..n - 1] && !Goes(w, allowed, t, useMCMS) {
      k := FindFailing(w, allowed, targets, useMCMS, n - 1);
    } else {
      k := n - 1;
    }
  }

  lemma FailsAt(w: World, allowed: set<Address>, targets: seq<Target>, useMCMS: bool, k: nat)
    requires k < |targets| && FirstToFail(w, allowed, targets, useMCMS, k)
    ensures
      var (w', r) := Run(w, allowed, targets, useMCMS);
      r.Failure? && Left(w, targets[..k], useMCMS, w')
  {
    var rest, t := targets[..k], targets[k];
    AllGo(w, allowed, rest, useMCMS);
    var w1 := Run(w, allowed, rest, useMCMS).0;
    assert t !in rest;
    assert OpInput(t, useMCMS) !in w1.reports;
    CallOutcome(w1.ledger, allowed, t);
    if !useMCMS {
      GoesAlike(w, allowed, rest, t);
    }
    assert targets[..k + 1][..k] == rest && targets[..k + 1][k] == t;
    hide SetConfig, Left, Sendable, SentLedger;
    assert Execute(w1, allowed, OpInput(t, useMCMS)).1.Failure?;
    assert Execute(w1, allowed, OpInput(t, useMCMS)).0 == w1;
    FailureStops(w, allowed, targets, useMCMS, k + 1);
  }

  /** The same for the sequence: answered from its report it does nothing; with a ref that
      does not resolve it fails and does nothing; otherwise it does what the run does, and
      is recorded exactly when that succeeds. */
  lemma SequenceOutcome(s: Sequence, refs: Refs, allowed: set<Address>, input: Input)
    ensures
      var (s', r) := RunSequence(s, refs, allowed, input);
      if input in s.outputs then s' == s && r == Success(s.outputs[input])
      else if !Resolves(refs, input) then s' == s && r.Failure?
      else
        var targets := Targets(refs, input);
        && (r.Success? <==> forall t :: t in targets ==> Goes(s.world, allowed, t, input.useMCMS))
        && (r.Success? ==>
              && r.value == (if input.useMCMS then Calls(s.world, targets) else [])
              && s'.outputs == s.outputs[input := r.value] && Left(s.world, targets, input.useMCMS, s'.world))
        && (r.Failure? ==>
              && s'.outputs == s.outputs
              && exists k :: 0 <= k < |targets| && FirstToFail(s.world, allowed, targets, input.useMCMS, k)
                   && Left(s.world, targets[..k], input.useMCMS, s'.world))
  {
    if Resolves(refs, input) {
      RunOutcome(s.world, allowed, Targets(refs, input), input.useMCMS);
    }
    hide Run, Targets, Left, FirstToFail, Goes, Calls;
  }

  // ----- what each mode leaves on fresh reports

  /** Every target is well-formed, readable and may be updated. */
  predicate Runnable(ledger: Ledger, allowed: set<Address>, targets: seq<Target>) {
    forall t :: t in targets ==> ValidTarget(t) && t.address in ledger && t.address in allowed
  }

  /** The last target for `a` that is not up to date on `ledger`. */
  function LastStale(ledger: Ledger, targets: seq<Target>, a: Address): Option<Config> {
    if targets == [] then None
    else
      var rest, t := targets[..|targets| - 1], targets[|targets| - 1];
      if t.address == a && !UpToDate(ledger, t) then Some(t.config) else LastStale(ledger, rest, a)
  }

  function ProposedLedger(ledger: Ledger, targets: seq<Target>): Ledger {
    map a | a in ledger :: Overlay(ledger[a], LastStale(ledger, targets, a))
  }

  lemma DirectRun(ledger: Ledger, allowed: set<Address>, targets: seq<Target>)
    requires Runnable(ledger, allowed, targets)
    ensures
      var (w, r) := Run(World(ledger, map[]), allowed, targets, false);
      && r == Success([])
      && w.ledger == SentLedger(ledger, map[], targets)
      && w.reports.Keys == Keys(targets, false)
      && forall op :: op in w.reports ==> w.reports[op] == None
  {
    AllGo(World(ledger, map[]), allowed, targets, false);
  }

  lemma ProposedRun(ledger: Ledger, allowed: set<Address>, targets: seq<Target>)
    requires Runnable(ledger, allowed, targets)
    ensures
      var (w, r) := Run(World(ledger, map[]), {}, targets, true);
      && r == Success(Calls(World(ledger, map[]), targets))
      && w.ledger == ledger
      && w.reports.Keys == Keys(targets, true)
      && forall op :: op in w.reports ==> w.reports[op] == CallFor(ledger, op.target)
  {
    AllGo(World(ledger, map[]), {}, targets, true);
  }

  lemma {:induction false} ExecutedProposal(ledger: Ledger, allowed: set<Address>, targets: seq<Target>)
    requires Runnable(ledger, allowed, targets)
    ensures ExecuteBatch(ledger, allowed, Calls(World(ledger, map[]), targets)) == Some(ProposedLedger(ledger, targets))
  {
    if targets == [] {
      assert ProposedLedger(ledger, targets) == ledger;
    } else {
      var rest, t := targets[..|targets| - 1], targets[|targets| - 1];
      ExecutedProposal(ledger, allowed, rest);
      var calls := Calls(World(ledger, map[]), rest);
      if UpToDate(ledger, t) {
        assert Calls(World(ledger, map[]), targets) == calls;
        assert ProposedLedger(ledger, targets) == ProposedLedger(ledger, rest);
      } else {
        assert (calls + [SetConfigCall(t.address, t.config)])[..|calls|] == calls;
        var l := ProposedLedger(ledger, rest);
        assert Updated(l, t.address, t.config) == ProposedLedger(ledger, targets);
      }
    }
  }

  // ----- agreement

  /** No address is asked for two different configs. */
  predicate Consistent(targets: seq<Target>) {
    forall t, u :: t in targets && u in targets && t.address == u.address ==> t.config == u.config
  }

  predicate Requested(ledger: Ledger, targets: seq<Target>) {
    forall t :: t in targets ==> UpToDate(ledger, t)
  }

  /** Sent by the owner of the contracts in `sender`, or proposed and executed by the
      owner of those in `executor`. A contract has one owner, so this compares what one
      mode does where the sender owns the targets with what the other does where the
      executor does. */
  ghost predicate ModesAgree(ledger: Ledger, sender: set<Address>, executor: set<Address>, targets: seq<Target>) {
    var (direct, r) := Run(World(ledger, map[]), sender, targets, false);
    var (proposed, ops) := Run(World(ledger, map[]), {}, targets, true);
    && r == Success([])
    && proposed.ledger == ledger
    && ops.Success?
    && ExecuteBatch(ledger, executor, ops.value) == Some(direct.ledger)
  }

  lemma ModesAgreeIsLedgersAgree(ledger: Ledger, sender: set<Address>, executor: set<Address>, targets: seq<Target>)
    requires Runnable(ledger, sender, targets) && Runnable(ledger, executor, targets)
    ensures ModesAgree(ledger, sender, executor, targets) <==>
      SentLedger(ledger, map[], targets) == ProposedLedger(ledger, targets)
  {
    DirectRun(ledger, sender, targets);
    ProposedRun(ledger, executor, targets);
    ExecutedProposal(ledger, executor, targets);
  }

  lemma {:induction false} LastStaleSome(ledger: Ledger, targets: seq<Target>, a: Address)
    ensures LastStale(ledger, targets, a).Some? <==> exists t :: t in targets && t.address == a && !UpToDate(ledger, t)
    ensures LastStale(ledger, targets, a).Some? ==>
      exists t :: t in targets && t.address == a && !UpToDate(ledger, t)
        && t.config == LastStale(ledger, targets, a).value
  {
    if targets != [] {
      var rest, t := targets[..|targets| - 1], targets[|targets| - 1];
      LastStaleSome(ledger, rest, a);
      assert targets == rest + [t];
      if LastStale(ledger, rest, a).Some? && !(t.address == a && !UpToDate(ledger, t)) {
        var u :| u in rest && u.address == a && !UpToDate(ledger, u) && u.config == LastStale(ledger, rest, a).value;
        assert u in targets;
      }
    }
  }

  /** `after` is `ledger` with every target's config as requested and its root clear,
      and nothing else changed. */
  predicate Configured(ledger: Ledger, after: Ledger, targets: seq<Target>) {
    && after.Keys == ledger.Keys
    && (forall t :: t in targets && t.address in ledger ==>
          after[t.address] == ledger[t.address].(config := t.config, root := 0))
    && (forall a :: a in ledger && a !in Addresses(targets) ==> after[a] == ledger[a])
  }

  /** Consistent targets: both modes reach the same ledger, on which every target
      has its requested config and a clear root, and nothing else has changed. */
  lemma ConsistentTargetsAgree(ledger: Ledger, sender: set<Address>, executor: set<Address>, targets: seq<Target>)
    requires Runnable(ledger, sender, targets) && Runnable(ledger, executor, targets) && Consistent(targets)
    ensures ModesAgree(ledger, sender, executor, targets)
    ensures
      var after := Run(World(ledger, map[]), sender, targets, false).0.ledger;
      Requested(after, targets) && Configured(ledger, after, targets)
  {
    ModesAgreeIsLedgersAgree(ledger, sender, executor, targets);
    DirectRun(ledger, sender, targets);
    var d, p := SentLedger(ledger, map[], targets), ProposedLedger(ledger, targets);
    forall a | a in ledger
      ensures d[a] == p[a]
    {
      LastFreshSome(map[], targets, a);
      LastStaleSome(ledger, targets, a);
    }
    forall t | t in targets
      ensures d[t.address] == ledger[t.address].(config := t.config, root := 0)
    {
      LastFreshSome(map[], targets, t.address);
    }
    forall a | a in ledger && a !in Addresses(targets)
      ensures d[a] == ledger[a]
    {
      LastFreshSome(map[], targets, a);
    }
    assert d == p;
  }

  function Addresses(targets: seq<Target>): set<Address> {
    set t | t in targets :: t.address
  }

  /** A ledger on which every targeted contract already holds `config`, root clear. */
  function Uniform(targets: seq<Target>, config: Config): Ledger {
    map a | a in Addresses(targets) :: Instance(None, None, config, 0, None)
  }

  predicate Readable(ledger: Ledger, targets: seq<Target>) {
    forall t :: t in targets ==> t.address in ledger
  }

  /** Direct and proposed set-config agree on every ledger exactly when no address
      is asked for two different configs. */
  lemma ModesAgreeIff(sender: set<Address>, executor: set<Address>, targets: seq<Target>)
    requires forall t :: t in targets ==> ValidTarget(t) && t.address in sender && t.address in executor
    ensures (forall ledger :: Readable(ledger, targets) ==> ModesAgree(ledger, sender, executor, targets)) <==>
      Consistent(targets)
  {
    if Consistent(targets) {
      forall ledger | Readable(ledger, targets)
        ensures ModesAgree(ledger, sender, executor, targets)
      {
        ConsistentTargetsAgree(ledger, sender, executor, targets);
      }
    } else {
      var t, u :| t in targets && u in targets && t.address == u.address && t.config != u.config;
      LastFreshSome(map[], targets, t.address);
      var x := LastFresh(map[], targets, t.address).value;
      var ledger := Uniform(targets, x);
      assert forall v :: v in targets ==> v.address in ledger;
      assert Readable(ledger, targets);
      LastStaleSome(ledger, targets, t.address);
      assert !UpToDate(ledger, t) || !UpToDate(ledger, u);
      assert SentLedger(ledger, map[], targets)[t.address].config == x;
      assert ProposedLedger(ledger, targets)[t.address].config != x;
      ModesAgreeIsLedgersAgree(ledger, sender, executor, targets);
    }
  }

  // ----- the second run

  /** With a fresh report store a second run, over a ledger that already has what
      was requested, writes nothing and emits nothing, in both modes. */
  lemma {:induction false} SecondRunQuiet(ledger: Ledger, allowed: set<Address>, targets: seq<Target>, useMCMS: bool)
    requires Requested(ledger, targets) && forall t :: t in targets ==> ValidTarget(t)
    ensures
      var (w, r) := Run(World(ledger, map[]), allowed, targets, useMCMS);
      && r == Success([])
      && w.ledger == ledger
      && forall op :: op in w.reports ==> w.reports[op] == None
  {
    if targets != [] {
      var rest, t := targets[..|targets| - 1], targets[|targets| - 1];
      assert targets == rest + [t];
      SecondRunQuiet(ledger, allowed, rest, useMCMS);
      var w1 := Run(World(ledger, map[]), allowed, rest, useMCMS).0;
      assert UpToDate(ledger, t) && ValidTarget(t);
      assert Execute(w1, allowed, OpInput(t, useMCMS)).1 == Success(None);
      var none: seq<BatchOp> := [];
      assert none + Emitted(None) == none;
    }
  }

  /** With the report store of the first proposed run still there, the second one
      does not look at the ledger: it emits the same calls again. */
  lemma {:induction false} SecondProposalReplays(before: Ledger, after: Ledger, reports: Reports, targets: seq<Target>)
    requires forall t :: t in targets ==> OpInput(t, true) in reports && reports[OpInput(t, true)] == CallFor(before, t)
    ensures Run(World(after, reports), {}, targets, true) ==
      (World(after, reports), Success(Calls(World(before, map[]), targets)))
  {
    if targets != [] {
      var rest, t := targets[..|targets| - 1], targets[|targets| - 1];
      assert targets == rest + [t];
      SecondProposalReplays(before, after, reports, rest);
    }
  }

  /** So after proposing and executing, a second proposed run emits nothing exactly
      when neither the operations' reports nor the sequence's own are still there, or
      every target was up to date from the start. */
  lemma SecondProposalQuietIff(ledger: Ledger, refs: Refs, allowed: set<Address>, input: Input, keepReports: bool,
                               keepOutput: bool)
    requires Resolves(refs, input) && input.useMCMS
    requires Runnable(ledger, allowed, Targets(refs, input)) && Consistent(Targets(refs, input))
    ensures
      var (s, r) := RunSequence(Store(World(ledger, map[]), map[]), refs, {}, input);
      && r.Success?
      && var after := ExecuteBatch(ledger, allowed, r.value);
      && after.Some?
      && var again := Store(World(after.value, if keepReports then s.world.reports else map[]),
                            if keepOutput then s.outputs else map[]);
      (RunSequence(again, refs, {}, input).1 == Success([]) <==>
         (!keepReports && !keepOutput) || Requested(ledger, Targets(refs, input)))
  {
    var targets := Targets(refs, input);
    ConsistentTargetsAgree(ledger, allowed, allowed, targets);
    ProposedRun(ledger, allowed, targets);
    var (w, r) := Run(World(ledger, map[]), {}, targets, true);
    var after := ExecuteBatch(ledger, allowed, r.value).value;
    NoStaleCallsIff(ledger, targets);
    if keepReports {
      forall t | t in targets
        ensures OpInput(t, true) in w.reports && w.reports[OpInput(t, true)] == CallFor(ledger, t)
      {
        assert OpInput(t, true) in Keys(targets, true);
      }
      SecondProposalReplays(ledger, after, w.reports, targets);
    } else {
      SecondRunQuiet(after, {}, targets, true);
    }
    hide Targets, Run, ExecuteBatch, Requested;
  }

  /** An input for which it is not quiet: one contract whose config differs. */
  lemma SecondProposalRepeats(a: Address, held: Config, wanted: Config)
    requires a != NoAddress && wanted.valid && held != wanted
    ensures
      var ledger := map[a := Instance(None, None, held, 0, None)];
      var refs, input := map["m" := RefTarget(a, "mcm")], Input([ContractSetConfig("m", wanted)], true);
      var (s, r) := RunSequence(Store(World(ledger, map[]), map[]), refs, {}, input);
      && r == Success([SetConfigCall(a, wanted)])
      && var after := ExecuteBatch(ledger, {a}, r.value);
      && after.Some? && Requested(after.value, Targets(refs, input))
      && RunSequence(Store(World(after.value, s.world.reports), map[]), refs, {}, input).1 == r
  {
    var ledger := map[a := Instance(None, None, held, 0, None)];
    var refs, input := map["m" := RefTarget(a, "mcm")], Input([ContractSetConfig("m", wanted)], true);
    var t := Target(a, wanted, "mcm");
    var targets := [t];
    assert Resolves(refs, input) && Targets(refs, input) == targets;
    hide Targets, Resolves;
    assert t in targets && targets[..0] == [];
    assert Calls(World(ledger, map[]), targets[..0]) == []
      && Calls(World(ledger, map[]), targets) == [SetConfigCall(a, wanted)];
    assert Runnable(ledger, {a}, targets) && Consistent(targets);
    ConsistentTargetsAgree(ledger, {a}, {a}, targets);
    ProposedRun(ledger, {a}, targets);
    var (w, r) := Run(World(ledger, map[]), {}, targets, true);
    var after := ExecuteBatch(ledger, {a}, r.value).value;
    assert OpInput(t, true) in Keys(targets, true);
    hide Run, ExecuteBatch, Calls, Runnable, Keys;
    SecondProposalReplays(ledger, after, w.reports, targets);
  }

  lemma {:induction false} NoStaleCallsIff(ledger: Ledger, targets: seq<Target>)
    ensures Calls(World(ledger, map[]), targets) == [] <==> Requested(ledger, targets)
  {
    hide UpToDate;
    if targets != [] {
      var rest, t := targets[..|targets| - 1], targets[|targets| - 1];
      NoStaleCallsIff(ledger, rest);
      assert targets == rest + [t];
    }
  }

  // ----- sending over old reports

  /** Over old reports, the sequence's own included, a direct run leaves every target as
      requested exactly when each was up to date already, or the sequence was not
      reported and some target for the same contract was not. */
  lemma DirectRequestedIff(s: Sequence, refs: Refs, allowed: set<Address>, input: Input)
    requires Resolves(refs, input) && !input.useMCMS
    requires Runnable(s.world.ledger, allowed, Targets(refs, input)) && Consistent(Targets(refs, input))
    ensures
      var targets := Targets(refs, input);
      var (s', r) := RunSequence(s, refs, allowed, input);
      && r.Success?
      && (Requested(s'.world.ledger, targets) <==>
            forall t :: t in targets ==>
              || UpToDate(s.world.ledger, t)
              || (input !in s.outputs && AnyUnreported(s.world.reports, targets, t.address)))
  {
    var ledger, reports, targets := s.world.ledger, s.world.reports, Targets(refs, input);
    AllGo(s.world, allowed, targets, false);
    forall t | t in targets
      ensures UpToDate(SentLedger(ledger, reports, targets), t) <==>
        UpToDate(ledger, t) || AnyUnreported(reports, targets, t.address)
    {
      SentIff(ledger, reports, targets, t);
    }
    hide Run, UpToDate, SentLedger, Runnable, AnyUnreported, Targets;
  }

  ghost predicate AnyUnreported(reports: Reports, targets: seq<Target>, a: Address) {
    exists u :: u in targets && u.address == a && OpInput(u, false) !in reports
  }

  lemma SentIff(ledger: Ledger, reports: Reports, targets: seq<Target>, t: Target)
    requires Consistent(targets) && t in targets && t.address in ledger
    ensures UpToDate(SentLedger(ledger, reports, targets), t) <==>
      UpToDate(ledger, t) || AnyUnreported(reports, targets, t.address)
  {
    LastFreshSome(reports, targets, t.address);
    hide LastFresh;
  }

  /** One config, then another, then the first again, over kept reports, leaves the
      other, whether the sequences' own reports are kept or not. */
  lemma ConfigReverts(a: Address, first: Config, other: Config, kept: bool)
    requires a != NoAddress && first.valid && other.valid && first != other
    ensures
      var refs := map["m" := RefTarget(a, "mcm")];
      var one, two := Input([ContractSetConfig("m", first)], false), Input([ContractSetConfig("m", other)], false);
      var ledger := map[a := Instance(None, None, Config(0, false), 0, None)];
      var s1 := RunSequence(Store(World(ledger, map[]), map[]), refs, {a}, one).0;
      var s2 := RunSequence(s1, refs, {a}, two).0;
      var (s3, r) := RunSequence(if kept then s2 else Store(s2.world, map[]), refs, {a}, one);
      r == Success([]) && a in s3.world.ledger && s3.world.ledger[a].config == other
  {
    var refs := map["m" := RefTarget(a, "mcm")];
    var one, two := Input([ContractSetConfig("m", first)], false), Input([ContractSetConfig("m", other)], false);
    var t, u := Target(a, first, "mcm"), Target(a, other, "mcm");
    assert Targets(refs, one) == [t] && Targets(refs, two) == [u];
    assert one.configs[0] != two.configs[0];
    var w := World(map[a := Instance(None, None, Config(0, false), 0, None)], map[]);
    var w1 := Run(w, {a}, [t], false).0;
    OneTarget(w, {a}, t);
    OneTarget(w1, {a}, u);
    var w2 := Run(w1, {a}, [u], false).0;
    OneTarget(w2, {a}, t);
  }

  lemma OneTarget(w: World, allowed: set<Address>, t: Target)
    ensures
      var (w1, o) := Execute(w, allowed, OpInput(t, false));
      Run(w, allowed, [t], false) == (w1, if o.Success? then Success([]) else Failure(o.error))
  {
    assert Run(w, allowed, [t][..0], false) == (w, Success([]));
  }

  // ----- proposing over old reports

  function Call(t: Target): BatchOp {
    SetConfigCall(t.address, t.config)
  }

  /** A report of a proposed operation says that nothing was to be done, or is its call. */
  predicate TrueReports(reports: Reports, targets: seq<Target>) {
    forall t :: t in targets && OpInput(t, true) in reports ==> reports[OpInput(t, true)] in {None, Some(Call(t))}
  }

  /** Proposing emits the call of this target: as reported, or where it is not up to date. */
  predicate Emits(ledger: Ledger, reports: Reports, t: Target) {
    if OpInput(t, true) in reports then reports[OpInput(t, true)] == Some(Call(t)) else !UpToDate(ledger, t)
  }

  ghost predicate EmitsExactly(ledger: Ledger, reports: Reports, targets: seq<Target>, ops: seq<BatchOp>) {
    forall op :: op in ops <==> exists t :: t in targets && op == Call(t) && Emits(ledger, reports, t)
  }

  /** A proposed run over old reports. */
  lemma ProposedOver(ledger: Ledger, reports: Reports, targets: seq<Target>)
    requires Readable(ledger, targets) && (forall t :: t in targets ==> ValidTarget(t)) && TrueReports(reports, targets)
    ensures
      var (w, r) := Run(World(ledger, reports), {}, targets, true);
      r.Success? && w.ledger == ledger && EmitsExactly(ledger, reports, targets, r.value)
  {
    AllGo(World(ledger, reports), {}, targets, true);
    CallsExactly(ledger, reports, targets);
  }

  lemma {:induction false} CallsExactly(ledger: Ledger, reports: Reports, targets: seq<Target>)
    requires TrueReports(reports, targets)
    ensures EmitsExactly(ledger, reports, targets, Calls(World(ledger, reports), targets))
  {
    hide UpToDate;
    if targets != [] {
      var rest, t := targets[..|targets| - 1], targets[|targets| - 1];
      assert targets == rest + [t];
      CallsExactly(ledger, reports, rest);
      EmittedStep(ledger, reports, rest, t, Calls(World(ledger, reports), rest),
        if Emits(ledger, reports, t) then Some(Call(t)) else None);
    }
  }

  lemma EmittedStep(ledger: Ledger, reports: Reports, rest: seq<Target>, t: Target, ops: seq<BatchOp>,
                    out: Option<BatchOp>)
    requires EmitsExactly(ledger, reports, rest, ops)
    requires out == if Emits(ledger, reports, t) then Some(Call(t)) else None
    ensures EmitsExactly(ledger, reports, rest + [t], ops + Emitted(out))
  {
    hide Emits;
    forall op
      ensures op in ops + Emitted(out) <==> exists u :: u in rest + [t] && op == Call(u) && Emits(ledger, reports, u)
    {
      if op in ops {
        var u :| u in rest && op == Call(u) && Emits(ledger, reports, u);
        assert u in rest + [t];
      } else if op in Emitted(out) {
        assert t in rest + [t];
      }
    }
  }

  /** The config that executing the calls leaves at `a`, if any. */
  function LastCall(ops: seq<BatchOp>, a: Address): Option<Config> {
    if ops == [] then None
    else if ops[|ops| - 1].address == a then Some(ops[|ops| - 1].config)
    else LastCall(ops[..|ops| - 1], a)
  }

  predicate AllOwned(ledger: Ledger, executor: set<Address>, ops: seq<BatchOp>) {
    forall op :: op in ops ==> op.address in ledger && op.address in executor
  }

  /** A batch goes through exactly when all contracts called are the executor's. */
  lemma {:induction false} ExecutedBatch(ledger: Ledger, executor: set<Address>, ops: seq<BatchOp>)
    ensures
      var after := ExecuteBatch(ledger, executor, ops);
      && (after.Some? <==> AllOwned(ledger, executor, ops))
      && (after.Some? ==> after.value == map a | a in ledger :: Overlay(ledger[a], LastCall(ops, a)))
  {
    if ops != [] {
      var rest, op := ops[..|ops| - 1], ops[|ops| - 1];
      assert ops == rest + [op];
      assert forall o :: o in ops <==> o in rest || o == op;
      ExecutedBatch(ledger, executor, rest);
    }
  }

  lemma {:induction false} LastCallSome(ops: seq<BatchOp>, a: Address)
    ensures LastCall(ops, a).Some? ==> SetConfigCall(a, LastCall(ops, a).value) in ops
    ensures LastCall(ops, a).None? ==> forall op :: op in ops ==> op.address != a
  {
    if ops != [] {
      var rest, op := ops[..|ops| - 1], ops[|ops| - 1];
      assert ops == rest + [op];
      LastCallSome(rest, a);
    }
  }

  /** After the batch a contract is up to date when its last call says so, or when it
      is not called and was up to date. */
  predicate EndsUpToDate(ledger: Ledger, ops: seq<BatchOp>, t: Target) {
    match LastCall(ops, t.address)
    case Some(config) => config == t.config
    case None => UpToDate(ledger, t)
  }

  /** Proposing over old reports, the sequence's own included, and executing what is
      returned. Answered from the sequence's report, which may be about what the refs
      stood for then, the batch goes through exactly when all contracts it calls are the
      executor's, and leaves every target as requested exactly when each ends up to
      date. Otherwise it goes through, and leaves every target as requested exactly
      when each was up to date or its call is emitted. */
  lemma ProposedRequestedIff(s: Sequence, refs: Refs, executor: set<Address>, input: Input)
    requires Resolves(refs, input) && input.useMCMS
    requires Runnable(s.world.ledger, executor, Targets(refs, input)) && Consistent(Targets(refs, input))
    requires TrueReports(s.world.reports, Targets(refs, input))
    ensures
      var ledger, targets := s.world.ledger, Targets(refs, input);
      var (s', r) := RunSequence(s, refs, {}, input);
      && r.Success? && s'.world.ledger == ledger
      && var after := ExecuteBatch(ledger, executor, r.value);
      && (after.Some? <==> input !in s.outputs || AllOwned(ledger, executor, s.outputs[input]))
      && (after.Some? ==>
            (Requested(after.value, targets) <==>
               forall t :: t in targets ==>
                 if input in s.outputs then EndsUpToDate(ledger, s.outputs[input], t)
                 else UpToDate(ledger, t) || AnyEmits(ledger, s.world.reports, targets, t)))
  {
    var ledger, targets := s.world.ledger, Targets(refs, input);
    ProposedOver(ledger, s.world.reports, targets);
    var ops := RunSequence(s, refs, {}, input).1.value;
    ExecutedBatch(ledger, executor, ops);
    var after := ExecuteBatch(ledger, executor, ops);
    hide Run, ExecuteBatch, Targets, LastCall, Emits, ValidTarget;
    forall t | t in targets && after.Some?
      ensures UpToDate(after.value, t) <==> EndsUpToDate(ledger, ops, t)
    {}
    hide UpToDate;
    if input !in s.outputs {
      assert AllOwned(ledger, executor, ops);
      forall t | t in targets
        ensures EndsUpToDate(ledger, ops, t) <==> UpToDate(ledger, t) || AnyEmits(ledger, s.world.reports, targets, t)
      {
        EmittedIsLast(ledger, s.world.reports, targets, ops, t);
      }
    }
    hide EndsUpToDate, AnyEmits, AllOwned, EmitsExactly;
  }

  /** Some target with the same call has it emitted. */
  ghost predicate AnyEmits(ledger: Ledger, reports: Reports, targets: seq<Target>, t: Target) {
    exists u :: u in targets && Call(u) == Call(t) && Emits(ledger, reports, u)
  }

  lemma EmittedIsLast(ledger: Ledger, reports: Reports, targets: seq<Target>, ops: seq<BatchOp>, t: Target)
    requires Consistent(targets) && EmitsExactly(ledger, reports, targets, ops) && t in targets
    ensures EndsUpToDate(ledger, ops, t) <==> UpToDate(ledger, t) || AnyEmits(ledger, reports, targets, t)
  {
    LastCallSome(ops, t.address);
    hide LastCall, UpToDate, Emits;
    if LastCall(ops, t.address).Some? {
      var u :| u in targets && SetConfigCall(t.address, LastCall(ops, t.address).value) == Call(u)
        && Emits(ledger, reports, u);
      assert u.config == t.config && Call(u) == Call(t);
    } else {
      assert !AnyEmits(ledger, reports, targets, t) by {
        if u :| u in targets && Call(u) == Call(t) && Emits(ledger, reports, u) {
          assert Call(u) in ops;
        }
      }
    }
  }
}
