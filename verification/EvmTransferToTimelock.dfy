/** EVM transfer-to-timelock: validation, the transfer sequence, and the batch of
    acceptOwnership calls it leaves for the timelock. */
module EvmTransferToTimelock {
  import opened Wrappers
  import opened Evm
  import opened Ownership
  import opened Sequences

  datatype RefKey = RefKey(chainSelector: nat, contractType: string, version: Option<string>, qualifier: string)

  datatype Error = NoContracts | NoDeployerKey | MissingVersion | Duplicate | Unresolved | Unreadable | WrongOwner

  /** The environment of one chain: datastore refs, ledger, signer. A zero ref
      stands for an address the parser refuses. */
  datatype Env = Env(selector: nat, refs: map<RefKey, Address>, deployer: Option<Address>, timelock: Option<Address>)

  datatype Input = Input(contracts: seq<RefKey>, onlyAccept: bool)

  /** Operations of this sequence, with what their idempotency keys (chain and
      contract) add to their inputs. Their outputs are determined by them. */
  datatype Op = TransferOp(contract: Address, to: Address) | AcceptOp(contract: Address)

  datatype World = World(ledger: Ownables, reports: set<Op>)

  // ----- validation

  function ResolveEVMAddress(env: Env, ref: RefKey): Result<Address, Error> {
    if ref.chainSelector != 0 && ref.chainSelector != env.selector then Failure(Unresolved)
    else
      var key := ref.(chainSelector := env.selector);
      if key.version.None? then Failure(MissingVersion)
      else if key !in env.refs || env.refs[key] == ZERO then Failure(Unresolved)
      else Success(env.refs[key])
  }

  /** A ref resolves when it is for this chain, or for none in particular, has a version,
      and is in the datastore under this chain with a usable address. */
  lemma ResolveIs(env: Env, ref: RefKey, a: Address)
    ensures ResolveEVMAddress(env, ref) == Success(a) <==>
      var key := RefKey(env.selector, ref.contractType, ref.version, ref.qualifier);
      && ref.chainSelector in {0, env.selector} && ref.version.Some?
      && key in env.refs && env.refs[key] == a && a != 0
  {}

  function ValidateContractOwner(owner: Address, deployer: Address, timelock: Address, onlyAccept: bool)
    : (r: Result<(), Error>)
    ensures r.Success? <==> owner in {deployer, timelock}
  {
    if owner == timelock then Success(())
    else if onlyAccept then
      if owner != deployer then Failure(WrongOwner) else Success(())
    else if owner != deployer then Failure(WrongOwner)
    else Success(())
  }

  /** What the refs resolve to. */
  function Targets(env: Env, contracts: seq<RefKey>): seq<Address>
    requires forall ref :: ref in contracts ==> ResolveEVMAddress(env, ref).Success?
  {
    seq(|contracts|, i requires 0 <= i < |contracts| => ResolveEVMAddress(env, contracts[i]).value)
  }

  predicate Distinct<T(==)>(s: seq<T>) {
    forall i, j :: 0 <= i < j < |s| ==> s[i] != s[j]
  }

  /** What validateContracts accepts. */
  predicate ValidContracts(env: Env, ledger: Ownables, input: Input) {
    && input.contracts != []
    && env.deployer.Some? && env.timelock.Some?
    && Distinct(input.contracts)
    && (forall ref :: ref in input.contracts ==> ResolveEVMAddress(env, ref).Success?)
    && Distinct(Targets(env, input.contracts))
    && forall c :: c in Targets(env, input.contracts) ==>
         c in ledger && ledger[c].owner in {env.deployer.value, env.timelock.value}
  }

  method ValidateContracts(env: Env, ledger: Ownables, input: Input) returns (r: Result<(), Error>)
    ensures r.Success? <==> ValidContracts(env, ledger, input)
  {
    if |input.contracts| == 0 {
      return Failure(NoContracts);
    }
    if env.deployer.None? {
      return Failure(NoDeployerKey);
    }
    var seen: set<RefKey> := {};
    for i := 0 to |input.contracts|
      invariant forall ref :: ref in seen <==> ref in input.contracts[..i]
      invariant Distinct(input.contracts[..i])
      invariant forall j :: 0 <= j < i ==> input.contracts[j].version.Some?
    {
      var ref := input.contracts[i];
      if ref.version.None? {
        assert ResolveEVMAddress(env, ref).Failure?;
        return Failure(MissingVersion);
      }
      if ref in seen {
        return Failure(Duplicate);
      }
      seen := seen + {ref};
      assert input.contracts[..i + 1] == input.contracts[..i] + [ref];
    }
    assert input.contracts[..|input.contracts|] == input.contracts;
    if env.timelock.None? {
      return Failure(Unresolved);
    }
    var contracts: seq<Address> := [];
    var seenAddresses: set<Address> := {};
    for i := 0 to |input.contracts|
      invariant |contracts| == i
      invariant forall j :: 0 <= j < i ==> ResolveEVMAddress(env, input.contracts[j]) == Success(contracts[j])
      invariant forall a :: a in seenAddresses <==> a in contracts
      invariant Distinct(contracts)
    {
      var contract := ResolveEVMAddress(env, input.contracts[i]);
      if contract.Failure? {
        return Failure(contract.error);
      }
      if contract.value in seenAddresses {
        var j :| 0 <= j < i && contracts[j] == contract.value;
        if forall ref :: ref in input.contracts ==> ResolveEVMAddress(env, ref).Success? {
          assert Targets(env, input.contracts)[j] == Targets(env, input.contracts)[i];
        }
        return Failure(Duplicate);
      }
      seenAddresses := seenAddresses + {contract.value};
      contracts := contracts + [contract.value];
    }
    assert contracts == Targets(env, input.contracts);
    for i := 0 to |contracts|
      invariant forall j :: 0 <= j < i ==>
        contracts[j] in ledger && ledger[contracts[j]].owner in {env.deployer.value, env.timelock.value}
    {
      if contracts[i] !in ledger {
        return Failure(Unreadable);
      }
      var owner :=
        ValidateContractOwner(ledger[contracts[i]].owner, env.deployer.value, env.timelock.value, input.onlyAccept);
      if owner.Failure? {
        return Failure(owner.error);
      }
    }
    return Success(());
  }

  // ----- the sequence

  /** transferContractToTimelock: the new world and the accept transactions, here
      their targets. */
  function TransferOne(w: World, deployer: Address, timelock: Address, onlyAccept: bool, contract: Address)
    : (World, Result<seq<Address>, Error>)
  {
    if contract !in w.ledger then (w, Failure(Unreadable))
    else if w.ledger[contract].owner == timelock then (w, Success([]))
    else
      var op := TransferOp(contract, timelock);
      var w1 :=
        if onlyAccept || op in w.reports then w
        else World(w.ledger[contract := Transfer(w.ledger[contract], deployer, timelock)], w.reports + {op});
      if !onlyAccept && w1.ledger[contract].owner == timelock then (w1, Success([]))
      else (World(w1.ledger, w1.reports + {AcceptOp(contract)}), Success([contract]))
  }

  function TransferAll(w: World, deployer: Address, timelock: Address, onlyAccept: bool, contracts: seq<Address>)
    : (World, Result<seq<Address>, Error>)
  {
    if contracts == [] then (w, Success([])) else
    match TransferAll(w, deployer, timelock, onlyAccept, contracts[..|contracts| - 1])
    case (w1, Failure(e)) => (w1, Failure(e))
    case (w1, Success(txs)) =>
      match TransferOne(w1, deployer, timelock, onlyAccept, contracts[|contracts| - 1])
      case (w2, Failure(e)) => (w2, Failure(e))
      case (w2, Success(more)) => (w2, Success(txs + more))
  }

  /** runEVMTransferToTimelock: each ref is resolved when its turn comes. */
  function RunRefs(w: World, env: Env, timelock: Address, onlyAccept: bool, refs: seq<RefKey>)
    : (World, Result<seq<Address>, Error>)
    requires env.deployer.Some?
  {
    if refs == [] then (w, Success([])) else
    match RunRefs(w, env, timelock, onlyAccept, refs[..|refs| - 1])
    case (w1, Failure(e)) => (w1, Failure(e))
    case (w1, Success(txs)) =>
      match ResolveEVMAddress(env, refs[|refs| - 1])
      case Failure(e) => (w1, Failure(e))
      case Success(contract) =>
        match TransferOne(w1, env.deployer.value, timelock, onlyAccept, contract)
        case (w2, Failure(e)) => (w2, Failure(e))
        case (w2, Success(more)) => (w2, Success(txs + more))
  }

  function Run(w: World, env: Env, input: Input): (World, Result<seq<Address>, Error>)
    requires env.deployer.Some?
  {
    if env.timelock.None? then (w, Failure(Unresolved))
    else RunRefs(w, env, env.timelock.value, input.onlyAccept, input.contracts)
  }

  lemma {:induction false} RunStops(w: World, env: Env, timelock: Address, onlyAccept: bool, refs: seq<RefKey>, n: nat)
    requires env.deployer.Some? && n <= |refs|
    requires RunRefs(w, env, timelock, onlyAccept, refs[..n]).1.Failure?
    ensures RunRefs(w, env, timelock, onlyAccept, refs) == RunRefs(w, env, timelock, onlyAccept, refs[..n])
    decreases |refs|
  {
    if n < |refs| {
      assert refs[..|refs| - 1][..n] == refs[..n];
      RunStops(w, env, timelock, onlyAccept, refs[..|refs| - 1], n);
    } else {
      assert refs[..n] == refs;
    }
  }

  /** Where all refs resolve, the run is over their targets. */
  lemma {:induction false} RunResolved(w: World, env: Env, timelock: Address, onlyAccept: bool, refs: seq<RefKey>)
    requires env.deployer.Some? && forall ref :: ref in refs ==> ResolveEVMAddress(env, ref).Success?
    ensures RunRefs(w, env, timelock, onlyAccept, refs) ==
      TransferAll(w, env.deployer.value, timelock, onlyAccept, Targets(env, refs))
  {
    if refs != [] {
      var rest, ref := refs[..|refs| - 1], refs[|refs| - 1];
      assert ref in refs && forall r :: r in rest ==> r in refs;
      RunResolved(w, env, timelock, onlyAccept, rest);
      var contracts := Targets(env, refs);
      assert contracts[..|contracts| - 1] == Targets(env, rest);
    }
  }

  class Session {
    const deployer: Address
    var ledger: Ownables
    var reports: set<Op>

    constructor (deployer: Address, w: World)
      ensures this.deployer == deployer && State() == w
    {
      this.deployer, this.ledger, this.reports := deployer, w.ledger, w.reports;
    }

    function State(): World
      reads this
    {
      World(ledger, reports)
    }

    method TransferContractToTimelock(timelock: Address, contract: Address, onlyAccept: bool)
      returns (r: Result<seq<Address>, Error>)
      modifies this
      ensures (State(), r) == TransferOne(old(State()), deployer, timelock, onlyAccept, contract)
    {
      if contract !in ledger {
        return Failure(Unreadable);
      }
      var owner := ledger[contract].owner;
      if owner == timelock {
        return Success([]);
      }
      if !onlyAccept {
        if TransferOp(contract, timelock) !in reports {
          ledger := ledger[contract := Transfer(ledger[contract], deployer, timelock)];
          reports := reports + {TransferOp(contract, timelock)};
        }
        owner := ledger[contract].owner;
        if owner == timelock {
          return Success([]);
        }
      }
      reports := reports + {AcceptOp(contract)};
      return Success([contract]);
    }

    /** The transactions of the one batch operation; with none there is no batch. */
    method RunTransferToTimelock(env: Env, input: Input) returns (r: Result<seq<Address>, Error>)
      requires env.deployer == Some(deployer)
      modifies this
      ensures (State(), r) == Run(old(State()), env, input)
    {
      if env.timelock.None? {
        return Failure(Unresolved);
      }
      var timelock := env.timelock.value;
      var transactions: seq<Address> := [];
      ghost var start := State();
      for i := 0 to |input.contracts|
        invariant (State(), Success(transactions)) ==
          RunRefs(start, env, timelock, input.onlyAccept, input.contracts[..i])
      {
        ghost var refs := input.contracts[..i + 1];
        assert refs[..i] == input.contracts[..i] && refs[i] == input.contracts[i];
        var contract := ResolveEVMAddress(env, input.contracts[i]);
        if contract.Failure? {
          RunStops(start, env, timelock, input.onlyAccept, input.contracts, i + 1);
          return Failure(contract.error);
        }
        var txs := TransferContractToTimelock(timelock, contract.value, input.onlyAccept);
        if txs.Failure? {
          RunStops(start, env, timelock, input.onlyAccept, input.contracts, i + 1);
          return Failure(txs.error);
        }
        transactions := transactions + txs.value;
      }
      assert input.contracts[..|input.contracts|] == input.contracts;
      return Success(transactions);
    }
  }

  // ----- what a run and its batch achieve

  /** The transfer step on one contract, against the reports the run started with. */
  function AfterTransfer(w: World, deployer: Address, timelock: Address, onlyAccept: bool, contract: Address): Ownable
    requires contract in w.ledger
  {
    var c := w.ledger[contract];
    if c.owner == timelock || onlyAccept || TransferOp(contract, timelock) in w.reports then c
      else Transfer(c, deployer, timelock)
  }

  function LedgerAfter(w: World, deployer: Address, timelock: Address, onlyAccept: bool, contracts: seq<Address>)
    : Ownables
  {
    map a | a in w.ledger :: if a in contracts then AfterTransfer(w, deployer, timelock, onlyAccept, a) else w.ledger[a]
  }

  /** The contracts not owned by the timelock on `ledger`, in input order. */
  function NotOwned(ledger: Ownables, timelock: Address, contracts: seq<Address>): seq<Address> {
    if contracts == [] then []
    else
      var rest, c := contracts[..|contracts| - 1], contracts[|contracts| - 1];
      NotOwned(ledger, timelock, rest) + if c in ledger && ledger[c].owner != timelock then [c] else []
  }

  lemma {:induction false} NotOwnedFrame(l: Ownables, l': Ownables, timelock: Address, contracts: seq<Address>)
    requires forall c :: c in contracts ==> c in l && c in l' && l[c] == l'[c]
    ensures NotOwned(l, timelock, contracts) == NotOwned(l', timelock, contracts)
  {
    if contracts != [] {
      assert contracts == contracts[..|contracts| - 1] + [contracts[|contracts| - 1]];
      NotOwnedFrame(l, l', timelock, contracts[..|contracts| - 1]);
    }
  }

  lemma {:induction false} NotOwnedFacts(l: Ownables, timelock: Address, contracts: seq<Address>)
    requires Distinct(contracts) && forall c :: c in contracts ==> c in l
    ensures Distinct(NotOwned(l, timelock, contracts))
    ensures forall c :: c in NotOwned(l, timelock, contracts) <==> c in contracts && l[c].owner != timelock
  {
    if contracts != [] {
      var rest, c := contracts[..|contracts| - 1], contracts[|contracts| - 1];
      assert contracts == rest + [c];
      NotOwnedFacts(l, timelock, rest);
      assert c !in rest;
    }
  }

  /** The operations reported by a run over these contracts. */
  function OpsOf(w: World, l: Ownables, timelock: Address, onlyAccept: bool, contracts: seq<Address>): set<Op> {
    (set c | c in contracts && !onlyAccept && c in w.ledger && w.ledger[c].owner != timelock :: TransferOp(c, timelock))
    + set c | c in contracts && c in l && l[c].owner != timelock :: AcceptOp(c)
  }

  /** The whole run, on readable contracts: each takes the transfer step once, the batch
      holds one accept, in input order, for each contract the timelock does not own after
      that step, and exactly the operations performed are reported. */
  lemma {:induction false} TransferAllOutcome(w: World, deployer: Address, timelock: Address, onlyAccept: bool,
                                              contracts: seq<Address>)
    requires forall c :: c in contracts ==> c in w.ledger
    ensures
      var (w', r) := TransferAll(w, deployer, timelock, onlyAccept, contracts);
      && w'.ledger == LedgerAfter(w, deployer, timelock, onlyAccept, contracts)
      && r == Success(NotOwned(w'.ledger, timelock, contracts))
      && w'.reports == w.reports + OpsOf(w, w'.ledger, timelock, onlyAccept, contracts)
  {
    hide TransferOne, AfterTransfer, NotOwned, OpsOf;
    if contracts == [] {
      NothingToTransfer(w, deployer, timelock, onlyAccept);
    } else {
      var rest, c := contracts[..|contracts| - 1], contracts[|contracts| - 1];
      assert contracts == rest + [c];
      TransferAllOutcome(w, deployer, timelock, onlyAccept, rest);
      var w1 := TransferAll(w, deployer, timelock, onlyAccept, rest).0;
      Reported(w, w1, timelock, onlyAccept, rest, c);
      if c in rest {
        TransferAgainOutcome(w, w1, deployer, timelock, onlyAccept, c);
      } else {
        TransferOneOutcome(w, w1, deployer, timelock, onlyAccept, c);
      }
      var w2 := TransferOne(w1, deployer, timelock, onlyAccept, c).0;
      assert w2.ledger == LedgerAfter(w, deployer, timelock, onlyAccept, contracts);
      NotOwnedFrame(w1.ledger, w2.ledger, timelock, rest);
      NotOwnedOneMore(w2.ledger, timelock, rest, c);
      OpsOneMore(w, w1.ledger, w2.ledger, timelock, onlyAccept, rest, c);
    }
  }

  lemma Reported(w: World, w1: World, timelock: Address, onlyAccept: bool, rest: seq<Address>, c: Address)
    requires w1.reports == w.reports + OpsOf(w, w1.ledger, timelock, onlyAccept, rest) && c in w.ledger
    ensures TransferOp(c, timelock) in w1.reports <==>
      TransferOp(c, timelock) in w.reports || (c in rest && !onlyAccept && w.ledger[c].owner != timelock)
  {}

  lemma OpsOneMore(w: World, l: Ownables, l': Ownables, timelock: Address, onlyAccept: bool, rest: seq<Address>,
                   c: Address)
    requires l.Keys == l'.Keys && (forall a :: a in rest && a in l ==> l'[a] == l[a]) && c in w.ledger && c in l'
    ensures OpsOf(w, l', timelock, onlyAccept, rest + [c]) ==
      OpsOf(w, l, timelock, onlyAccept, rest)
      + (if !onlyAccept && w.ledger[c].owner != timelock then {TransferOp(c, timelock)} else {})
      + if l'[c].owner != timelock then {AcceptOp(c)} else {}
  {}

  lemma NothingToTransfer(w: World, deployer: Address, timelock: Address, onlyAccept: bool)
    ensures LedgerAfter(w, deployer, timelock, onlyAccept, []) == w.ledger && NotOwned(w.ledger, timelock, []) == []
    ensures w.reports + OpsOf(w, w.ledger, timelock, onlyAccept, []) == w.reports
  {}

  lemma NotOwnedOneMore(ledger: Ownables, timelock: Address, rest: seq<Address>, c: Address)
    ensures NotOwned(ledger, timelock, rest + [c]) ==
      NotOwned(ledger, timelock, rest) + if c in ledger && ledger[c].owner != timelock then [c] else []
  {
    assert (rest + [c])[..|rest|] == rest;
  }

  /** One contract, which the contracts before it in the run have left alone. */
  lemma TransferOneOutcome(w: World, w1: World, deployer: Address, timelock: Address, onlyAccept: bool, c: Address)
    requires c in w.ledger && c in w1.ledger && w1.ledger[c] == w.ledger[c]
    requires TransferOp(c, timelock) in w1.reports <==> TransferOp(c, timelock) in w.reports
    ensures
      var (w2, r) := TransferOne(w1, deployer, timelock, onlyAccept, c);
      && w2.ledger == w1.ledger[c := AfterTransfer(w, deployer, timelock, onlyAccept, c)]
      && r == Success(if w2.ledger[c].owner != timelock then [c] else [])
      && w2.reports == w1.reports
           + (if !onlyAccept && w.ledger[c].owner != timelock then {TransferOp(c, timelock)} else {})
           + if w2.ledger[c].owner != timelock then {AcceptOp(c)} else {}
  {
    assert w1.ledger[c := w1.ledger[c]] == w1.ledger;
  }

  /** A contract that comes again: it has taken the step already. */
  lemma TransferAgainOutcome(w: World, w1: World, deployer: Address, timelock: Address, onlyAccept: bool, c: Address)
    requires c in w.ledger && c in w1.ledger
    requires w1.ledger[c] == AfterTransfer(w, deployer, timelock, onlyAccept, c)
    requires !onlyAccept && w.ledger[c].owner != timelock ==> TransferOp(c, timelock) in w1.reports
    ensures
      var (w2, r) := TransferOne(w1, deployer, timelock, onlyAccept, c);
      && w2.ledger == w1.ledger
      && r == Success(if w2.ledger[c].owner != timelock then [c] else [])
      && w2.reports == w1.reports
           + (if !onlyAccept && w.ledger[c].owner != timelock then {TransferOp(c, timelock)} else {})
           + if w2.ledger[c].owner != timelock then {AcceptOp(c)} else {}
  {}

  /** How many refs come before the first that does not resolve to a readable contract. */
  function Leading(w: World, env: Env, refs: seq<RefKey>): (n: nat)
    ensures n <= |refs| && (forall ref :: ref in refs[..n] ==> Transferable(w, env, ref))
    ensures n < |refs| ==> !Transferable(w, env, refs[n])
  {
    if refs == [] then 0
    else
      var rest, ref := refs[..|refs| - 1], refs[|refs| - 1];
      var n := Leading(w, env, rest);
      assert refs == rest + [ref] && refs[..n] == rest[..n];
      if n == |rest| && Transferable(w, env, ref) then |refs| else n
  }

  predicate Transferable(w: World, env: Env, ref: RefKey) {
    ResolveEVMAddress(env, ref).Success? && ResolveEVMAddress(env, ref).value in w.ledger
  }

  /** Any run, whatever its refs and reports: it succeeds exactly when there is a timelock
      and all refs resolve to readable contracts. It takes the step on the contracts before
      the first that does not, and on no other; its accepts are for those of them that the
      timelock does not own then, and exactly its operations are reported. */
  lemma RunOutcome(w: World, env: Env, input: Input)
    requires env.deployer.Some?
    ensures
      var (w', r) := Run(w, env, input);
      if env.timelock.None? then w' == w && r.Failure?
      else
        var refs, timelock := input.contracts[..Leading(w, env, input.contracts)], env.timelock.value;
        var contracts := Targets(env, refs);
        && (r.Success? <==> forall ref :: ref in input.contracts ==> Transferable(w, env, ref))
        && (r.Success? ==> r.value == NotOwned(w'.ledger, timelock, contracts))
        && w'.ledger == LedgerAfter(w, env.deployer.value, timelock, input.onlyAccept, contracts)
        && w'.reports == w.reports + OpsOf(w, w'.ledger, timelock, input.onlyAccept, contracts)
  {
    if env.timelock.Some? {
      var n := Leading(w, env, input.contracts);
      var refs, timelock := input.contracts[..n], env.timelock.value;
      assert forall ref :: ref in refs ==> Transferable(w, env, ref);
      RunResolved(w, env, timelock, input.onlyAccept, refs);
      TargetsReadable(w, env, refs);
      TransferAllOutcome(w, env.deployer.value, timelock, input.onlyAccept, Targets(env, refs));
      if n < |input.contracts| {
        StoppedThere(w, env, timelock, input.onlyAccept, input.contracts, n);
      } else {
        assert refs == input.contracts;
      }
    }
  }

  lemma TargetsReadable(w: World, env: Env, refs: seq<RefKey>)
    requires forall ref :: ref in refs ==> ResolveEVMAddress(env, ref).Success? && Transferable(w, env, ref)
    ensures forall c :: c in Targets(env, refs) ==> c in w.ledger
  {
    var contracts := Targets(env, refs);
    forall i | 0 <= i < |contracts|
      ensures contracts[i] in w.ledger
    {
      assert Transferable(w, env, refs[i]);
    }
  }

  lemma StoppedThere(w: World, env: Env, timelock: Address, onlyAccept: bool, refs: seq<RefKey>, n: nat)
    requires env.deployer.Some? && n < |refs| && !Transferable(w, env, refs[n])
    requires
      var (w', r) := RunRefs(w, env, timelock, onlyAccept, refs[..n]);
      r.Success? && w'.ledger.Keys == w.ledger.Keys
    ensures
      var (w', r) := RunRefs(w, env, timelock, onlyAccept, refs);
      r.Failure? && w' == RunRefs(w, env, timelock, onlyAccept, refs[..n]).0
  {
    assert refs[..n + 1][..n] == refs[..n] && refs[..n + 1][n] == refs[n];
    RunStops(w, env, timelock, onlyAccept, refs, n + 1);
  }

  function Calls(timelock: Address, txs: seq<Address>): seq<AcceptCall> {
    seq(|txs|, i requires 0 <= i < |txs| => AcceptCall(timelock, txs[i]))
  }

  /** Running the sequence and executing its batch leaves every contract with the
      timelock. */
  predicate HandsOver(w: World, deployer: Address, timelock: Address, onlyAccept: bool, contracts: seq<Address>) {
    var (w', r) := TransferAll(w, deployer, timelock, onlyAccept, contracts);
    r.Success? && EndsOwned(w.ledger, w'.ledger, r.value, timelock, contracts)
  }

  /** The batch goes through on `l`; of what was there `before`, the contracts are then
      the timelock's and all others as they were. */
  predicate EndsOwned(before: Ownables, l: Ownables, txs: seq<Address>, timelock: Address, contracts: seq<Address>) {
    var after := ExecuteAccepts(l, Calls(timelock, txs));
    && after.Some?
    && after.value.Keys == before.Keys
    && (forall c :: c in contracts ==> c in after.value && after.value[c].owner == timelock)
    && (forall c :: c in before && c !in contracts ==> after.value[c] == before[c])
  }

  /** What can be checked on a contract before the run: the timelock owns it, or
      already awaits it, or the run will really send the transfer. */
  predicate WillHandOver(w: World, timelock: Address, onlyAccept: bool, contract: Address)
    requires contract in w.ledger
  {
    var c := w.ledger[contract];
    || c.owner == timelock
    || (c.twoStep && c.pending == Some(timelock))
    || (!onlyAccept && TransferOp(contract, timelock) !in w.reports)
  }

  /** For validated input the hand-over succeeds exactly when each contract meets
      that condition. A transfer report left by an earlier run, on a contract that
      has come back to the deployer, is what breaks full mode; in accept-only mode
      it is a contract whose transfer was never started. */
  lemma HandsOverIff(w: World, deployer: Address, timelock: Address, onlyAccept: bool, contracts: seq<Address>)
    requires Distinct(contracts)
    requires forall c :: c in contracts ==> c in w.ledger && w.ledger[c].owner in {deployer, timelock}
    ensures HandsOver(w, deployer, timelock, onlyAccept, contracts)
       <==> forall c :: c in contracts ==> WillHandOver(w, timelock, onlyAccept, c)
  {
    TransferAllOutcome(w, deployer, timelock, onlyAccept, contracts);
    var w' := TransferAll(w, deployer, timelock, onlyAccept, contracts).0;
    BatchOutcome(w'.ledger, timelock, contracts);
    hide TransferAll, ExecuteAccepts, NotOwned;
    forall c | c in contracts
      ensures WillHandOver(w, timelock, onlyAccept, c) <==> OwnedOrAwaits(w'.ledger, timelock, c)
    {}
    assert forall c :: c in w.ledger && c !in contracts ==> w'.ledger[c] == w.ledger[c];
  }

  predicate OwnedOrAwaits(l: Ownables, timelock: Address, c: Address)
    requires c in l
  {
    l[c].owner == timelock || Awaits(l, AcceptCall(timelock, c))
  }

  /** Accepting what the timelock does not own yet. */
  lemma BatchOutcome(l: Ownables, timelock: Address, contracts: seq<Address>)
    requires Distinct(contracts) && forall c :: c in contracts ==> c in l
    ensures
      var after := ExecuteAccepts(l, Calls(timelock, NotOwned(l, timelock, contracts)));
      && (after.Some? <==> forall c :: c in contracts ==> OwnedOrAwaits(l, timelock, c))
      && (after.Some? ==>
            && after.value.Keys == l.Keys
            && (forall c :: c in contracts ==> after.value[c].owner == timelock)
            && (forall c :: c in l && c !in contracts ==> after.value[c] == l[c]))
  {
    NotOwnedFacts(l, timelock, contracts);
    var txs := NotOwned(l, timelock, contracts);
    hide NotOwned;
    var calls := Calls(timelock, txs);
    AcceptsOutcome(l, calls);
    hide ExecuteAccepts;
    assert forall call :: call in calls ==> call.timelock == timelock && call.target in txs;
    forall c | c in txs
      ensures AcceptCall(timelock, c) in calls
    {
      var i :| 0 <= i < |txs| && txs[i] == c;
      assert calls[i] == AcceptCall(timelock, c);
    }
    assert (forall call :: call in calls ==> Awaits(l, call)) <==> forall c :: c in contracts ==>
      OwnedOrAwaits(l, timelock, c) by {
      if forall call :: call in calls ==> Awaits(l, call) {
        forall c | c in contracts && l[c].owner != timelock
          ensures Awaits(l, AcceptCall(timelock, c))
        {
          assert AcceptCall(timelock, c) in calls;
        }
      }
      if forall c :: c in contracts ==> OwnedOrAwaits(l, timelock, c) {
        forall call | call in calls
          ensures Awaits(l, call)
        {
          assert OwnedOrAwaits(l, timelock, call.target);
        }
      }
    }
    var after := ExecuteAccepts(l, calls);
    if after.Some? {
      forall c | c in contracts
        ensures after.value[c].owner == timelock
      {
        if c in txs {
          assert AcceptCall(timelock, c) in calls;
        }
      }
    }
  }

  /** Full mode, on validated input over any report store: the hand-over succeeds exactly
      when no old report suppresses a transfer that is still to be made. On a fresh
      store that is always so. */
  lemma FullModeHandsOver(env: Env, w: World, input: Input)
    requires ValidContracts(env, w.ledger, input) && !input.onlyAccept
    ensures
      var timelock, contracts := env.timelock.value, Targets(env, input.contracts);
      && (HandsOver(w, env.deployer.value, timelock, false, contracts)
          <==> forall c :: c in contracts && TransferOp(c, timelock) in w.reports ==>
            OwnedOrAwaits(w.ledger, timelock, c))
      && (w.reports == {} ==> HandsOver(w, env.deployer.value, timelock, false, contracts))
  {
    HandsOverIff(w, env.deployer.value, env.timelock.value, false, Targets(env, input.contracts));
    hide HandsOver;
  }

  /** An accepted input for which the hand-over fails: contract 7 was transferred to
      timelock 2 before, has come back to deployer 1, and the report is still there. */
  lemma StaleReportBreaks()
    ensures
      var ref := RefKey(9, "Token", Some("1.0.0"), "");
      var env := Env(9, map[ref := 7], Some(1), Some(2));
      var input := Input([ref], false);
      var w := World(map[7 := Ownable(1, None, true)], {TransferOp(7, 2)});
      && ValidContracts(env, w.ledger, input) && Targets(env, input.contracts) == [7]
      && TransferAll(w, 1, 2, false, [7]).1 == Success([7])
      && !HandsOver(w, 1, 2, false, [7])
  {
    var ref := RefKey(9, "Token", Some("1.0.0"), "");
    var w := World(map[7 := Ownable(1, None, true)], {TransferOp(7, 2)});
    assert TransferAll(w, 1, 2, false, [7][..0]) == (w, Success([]));
    assert TransferOne(w, 1, 2, false, 7).1 == Success([7]) && [] + [7] == [7];
    HandsOverIff(w, 1, 2, false, [7]);
    assert 7 in [7] && !WillHandOver(w, 2, false, 7);
  }

  // ----- with the sequence's own report

  /** The sequence is memoised by its input, which holds the refs, not what they
      resolve to. */
  type Transfers = Store<World, Input, seq<Address>>

  predicate Resolves(env: Env, input: Input) {
    && env.deployer.Some? && env.timelock.Some?
    && forall ref :: ref in input.contracts ==> ResolveEVMAddress(env, ref).Success?
  }

  function RunSequence(s: Transfers, env: Env, input: Input): (Transfers, Result<seq<Address>, Error>)
    requires env.deployer.Some?
  {
    ExecuteSequence(s, input, Run(s.world, env, input))
  }

  /** Answered from its report it does nothing; otherwise it does what the run does, and is
      recorded exactly when that succeeds. */
  lemma SequenceRuns(s: Transfers, env: Env, input: Input)
    requires env.deployer.Some?
    ensures
      var ((s', r), (w, o)) := (RunSequence(s, env, input), Run(s.world, env, input));
      if input in s.outputs then s' == s && r == Success(s.outputs[input])
      else s'.world == w && r == o && s'.outputs == if r.Success? then s.outputs[input := r.value] else s.outputs
  {
    hide Run;
  }

  lemma ResolvedSequence(s: Transfers, env: Env, input: Input)
    requires Resolves(env, input)
    ensures RunSequence(s, env, input) ==
      var contracts := Targets(env, input.contracts);
      ExecuteSequence(s, input,
        TransferAll(s.world, env.deployer.value, env.timelock.value, input.onlyAccept, contracts))
  {
    RunResolved(s.world, env, env.timelock.value, input.onlyAccept, input.contracts);
  }

  predicate SequenceHandsOver(s: Transfers, env: Env, input: Input)
    requires Resolves(env, input)
  {
    var (s', r) := RunSequence(s, env, input);
    r.Success? && EndsOwned(s.world.ledger, s'.world.ledger, r.value, env.timelock.value, Targets(env, input.contracts))
  }

  /** A reported execution returned each contract at most once. */
  predicate TrueOutputs(s: Transfers) {
    forall i :: i in s.outputs ==> Distinct(s.outputs[i])
  }

  /** Over any store: if the sequence itself was reported, its old accepts hand over
      exactly when each is for a contract the refs still stand for and is awaited, and
      the timelock owns the other contracts; otherwise as for the operations. */
  lemma SequenceHandsOverIff(s: Transfers, env: Env, input: Input)
    requires ValidContracts(env, s.world.ledger, input) && TrueOutputs(s)
    ensures
      var l, timelock, contracts := s.world.ledger, env.timelock.value, Targets(env, input.contracts);
      SequenceHandsOver(s, env, input) <==>
        if input in s.outputs then
          && (forall c :: c in s.outputs[input] ==> c in contracts && Awaits(l, AcceptCall(timelock, c)))
          && (forall c :: c in contracts && c !in s.outputs[input] ==> l[c].owner == timelock)
        else
          forall c :: c in contracts ==> WillHandOver(s.world, timelock, input.onlyAccept, c)
  {
    var deployer, timelock, contracts := env.deployer.value, env.timelock.value, Targets(env, input.contracts);
    ResolvedSequence(s, env, input);
    if input in s.outputs {
      OldBatchIff(s.world.ledger, s.outputs[input], timelock, contracts);
    } else {
      HandsOverIff(s.world, deployer, timelock, input.onlyAccept, contracts);
      TransferAllOutcome(s.world, deployer, timelock, input.onlyAccept, contracts);
    }
    hide EndsOwned, TransferAll, WillHandOver, Targets, Run, OpsOf;
  }

  lemma OldBatchIff(l: Ownables, txs: seq<Address>, timelock: Address, contracts: seq<Address>)
    requires Distinct(txs) && forall c :: c in contracts ==> c in l
    ensures EndsOwned(l, l, txs, timelock, contracts) <==>
      && (forall c :: c in txs ==> c in contracts && Awaits(l, AcceptCall(timelock, c)))
      && (forall c :: c in contracts && c !in txs ==> l[c].owner == timelock)
  {
    var calls := Calls(timelock, txs);
    AcceptsOutcome(l, calls);
    CallsAre(timelock, txs);
    hide ExecuteAccepts, Calls;
    var after := ExecuteAccepts(l, calls);
    if after.Some? {
      forall c | c in txs
        ensures Awaits(l, AcceptCall(timelock, c)) && c in after.value
          && after.value[c] == Ownable(timelock, None, true)
        ensures after.value[c] != l[c]
      {
        assert AcceptCall(timelock, c) in calls;
      }
    }
    hide Awaits;
    assert forall c :: c in l && c !in txs ==> forall call :: call in calls ==> call.target != c;
  }

  lemma CallsAre(timelock: Address, txs: seq<Address>)
    ensures forall call :: call in Calls(timelock, txs) <==> call.timelock == timelock && call.target in txs
    ensures Distinct(txs) ==> DistinctTargets(Calls(timelock, txs))
  {
    forall call: AcceptCall | call.timelock == timelock && call.target in txs
      ensures call in Calls(timelock, txs)
    {
      var i :| 0 <= i < |txs| && txs[i] == call.target;
      assert Calls(timelock, txs)[i] == call;
    }
  }

  /** After a hand-over, repeated with the sequence's report still there, the same
      accepts come again; they go through exactly if there were none. */
  lemma RepeatedRunIff(s: Transfers, env: Env, input: Input)
    requires ValidContracts(env, s.world.ledger, input) && TrueOutputs(s)
    requires input !in s.outputs && SequenceHandsOver(s, env, input)
    ensures
      var timelock := env.timelock.value;
      var (s', r) := RunSequence(s, env, input);
      var after := ExecuteAccepts(s'.world.ledger, Calls(timelock, r.value));
      && after.Some?
      && var again := s'.(world := s'.world.(ledger := after.value));
      && RunSequence(again, env, input) == (again, r)
      && (SequenceHandsOver(again, env, input) <==> r.value == [])
  {
    var timelock, contracts := env.timelock.value, Targets(env, input.contracts);
    ResolvedSequence(s, env, input);
    TransferAllOutcome(s.world, env.deployer.value, timelock, input.onlyAccept, contracts);
    var (s', r) := RunSequence(s, env, input);
    NotOwnedFacts(s'.world.ledger, timelock, contracts);
    hide NotOwned, TransferAll, LedgerAfter, Targets, Run, OpsOf;
    hide ResolveEVMAddress, AfterTransfer, Distinct;
    RepeatedBatchIff(s.world.ledger, s'.world.ledger, r.value, timelock, contracts);
  }

  /** Accepts that have gone through go through again exactly if there are none. */
  lemma RepeatedBatchIff(before: Ownables, l: Ownables, txs: seq<Address>, timelock: Address, contracts: seq<Address>)
    requires Distinct(txs) && EndsOwned(before, l, txs, timelock, contracts)
    ensures
      var after := ExecuteAccepts(l, Calls(timelock, txs)).value;
      EndsOwned(after, after, txs, timelock, contracts) <==> txs == []
  {
    var calls := Calls(timelock, txs);
    CallsAre(timelock, txs);
    AcceptsOutcome(l, calls);
    var after := ExecuteAccepts(l, calls).value;
    hide ExecuteAccepts;
    OldBatchIff(after, txs, timelock, contracts);
    if txs != [] {
      var c := txs[0];
      assert calls[0] == AcceptCall(timelock, c) && calls[0] in calls && c in txs;
      assert !Awaits(after, AcceptCall(timelock, c));
    }
  }

  const TOKEN := RefKey(9, "Token", Some("1.0.0"), "")
  const ASKED := Input([TOKEN], false)
  const BEFORE := Env(9, map[TOKEN := 7], Some(1), Some(2))
  const NOW := Env(9, map[TOKEN := 8], Some(1), Some(2))
  const START := World(map[7 := Ownable(1, None, true), 8 := Ownable(1, None, true)], {})

  /** An accepted input answered for another contract: the ref stood for 7, which has
      been handed over, and now stands for 8, which the deployer owns. */
  lemma RepointedRefBreaks()
    ensures ValidContracts(BEFORE, START.ledger, ASKED)
    ensures
      var (s, r) := RunSequence(Store(START, map[]), BEFORE, ASKED);
      && r == Success([7]) && SequenceHandsOver(Store(START, map[]), BEFORE, ASKED)
      && var after := ExecuteAccepts(s.world.ledger, Calls(2, [7]));
      && after.Some?
      && var again := s.(world := s.world.(ledger := after.value));
      && ValidContracts(NOW, after.value, ASKED) && Targets(NOW, ASKED.contracts) == [8]
      && RunSequence(again, NOW, ASKED).1 == Success([7]) && !SequenceHandsOver(again, NOW, ASKED)
  {
    Validated(START.ledger);
    FirstHandOver();
    ResolvedSequence(Store(START, map[]), BEFORE, ASKED);
    var s := RunSequence(Store(START, map[]), BEFORE, ASKED).0;
    var after := ExecuteAccepts(s.world.ledger, Calls(2, [7])).value;
    Validated(after);
    hide ExecuteAccepts, TransferAll, ResolveEVMAddress, ValidContracts, EndsOwned, Run;
    var again := s.(world := s.world.(ledger := after));
    assert again.outputs == map[ASKED := [7]];
    assert 7 in [7] && 7 !in [8];
    SequenceHandsOverIff(again, NOW, ASKED);
  }

  lemma Validated(ledger: Ownables)
    requires 7 in ledger && 8 in ledger && ledger[7].owner in {1, 2} && ledger[8].owner == 1
    ensures ValidContracts(BEFORE, ledger, ASKED) && Targets(BEFORE, [TOKEN]) == [7]
    ensures ValidContracts(NOW, ledger, ASKED) && Targets(NOW, [TOKEN]) == [8]
  {
    assert Targets(BEFORE, [TOKEN]) == [7] && Targets(NOW, [TOKEN]) == [8];
  }

  lemma FirstHandOver()
    ensures
      var (w', r) := TransferAll(START, 1, 2, false, [7]);
      && r == Success([7]) && EndsOwned(START.ledger, w'.ledger, [7], 2, [7])
      && ExecuteAccepts(w'.ledger, Calls(2, [7])) == Some(map[7 := Ownable(2, None, true), 8 := Ownable(1, None, true)])
  {
    assert TransferAll(START, 1, 2, false, [7][..0]) == (START, Success([]));
    assert TransferOne(START, 1, 2, false, 7).1 == Success([7]) && [] + [7] == [7];
    var w' := TransferAll(START, 1, 2, false, [7]).0;
    assert w'.ledger == map[7 := Ownable(1, Some(2), true), 8 := Ownable(1, None, true)];
    assert Calls(2, [7]) == [AcceptCall(2, 7)] && Calls(2, [7])[1..] == [];
    var l := map[7 := Ownable(2, None, true), 8 := Ownable(1, None, true)];
    assert w'.ledger[7 := Ownable(2, None, true)] == l;
    assert ExecuteAccepts(l, []) == Some(l);
  }
}
