/** Ownable EVM contracts, one-step and two-step, and batches of
    acceptOwnership calls executed by a timelock. */
module Ownership {
  import opened Wrappers
  import opened Evm

  datatype Ownable = Ownable(owner: Address, pending: Option<Address>, twoStep: bool)

  /** transferOwnership sent by `caller`. The generated write operation sends the
      transaction only when the caller is the owner; otherwise it returns an
      unsent transaction and no error. */
  function Transfer(c: Ownable, caller: Address, to: Address): Ownable {
    if c.owner != caller then c
    else if c.twoStep then c.(pending := Some(to))
    else c.(owner := to)
  }

  /** acceptOwnership called by `caller`: None when the call reverts. */
  function Accept(c: Ownable, caller: Address): Option<Ownable> {
    if c.twoStep && c.pending == Some(caller) then Some(c.(owner := caller, pending := None)) else None
  }

  type Ownables = map<Address, Ownable>

  /** One acceptOwnership call: the timelock that makes it and its target. */
  datatype AcceptCall = AcceptCall(timelock: Address, target: Address)

  /** A batch of calls reverts as a whole when one of them does. */
  function ExecuteAccepts(l: Ownables, calls: seq<AcceptCall>): Option<Ownables> {
    if calls == [] then Some(l)
    else
      var call := calls[0];
      if call.target !in l then None else
      match Accept(l[call.target], call.timelock)
      case None => None
      case Some(c) => ExecuteAccepts(l[call.target := c], calls[1..])
  }

  predicate DistinctTargets(calls: seq<AcceptCall>) {
    forall i, j :: 0 <= i < j < |calls| ==> calls[i].target != calls[j].target
  }

  predicate Awaits(l: Ownables, call: AcceptCall) {
    call.target in l && l[call.target].twoStep && l[call.target].pending == Some(call.timelock)
  }

  /** On distinct targets a batch goes through exactly when every target awaits its
      caller; it then hands over those targets and touches nothing else. The
      outcome does not mention the order of the calls. */
  lemma {:induction false} AcceptsOutcome(l: Ownables, calls: seq<AcceptCall>)
    requires DistinctTargets(calls)
    ensures ExecuteAccepts(l, calls).Some? <==> forall call :: call in calls ==> Awaits(l, call)
    ensures ExecuteAccepts(l, calls).Some? ==>
      var l' := ExecuteAccepts(l, calls).value;
      && l'.Keys == l.Keys
      && (forall call :: call in calls ==> call.target in l' && l'[call.target] == Ownable(call.timelock, None, true))
      && (forall a :: a in l && (forall call :: call in calls ==> call.target != a) ==> l'[a] == l[a])
  {
    if calls != [] {
      var call, rest := calls[0], calls[1..];
      assert calls == [call] + rest;
      if Awaits(l, call) {
        var l1 := l[call.target := Ownable(call.timelock, None, true)];
        AcceptsOutcome(l1, rest);
        forall c | c in rest
          ensures Awaits(l1, c) <==> Awaits(l, c)
        {
          var i :| 0 <= i < |rest| && rest[i] == c;
          assert calls[i + 1] == c;
        }
        if ExecuteAccepts(l1, rest).Some? {
          assert forall c :: c in rest ==> c.target != call.target by {
            forall c | c in rest
              ensures c.target != call.target
            {
              var i :| 0 <= i < |rest| && rest[i] == c;
              assert calls[i + 1] == c;
            }
          }
        }
      }
    }
  }
}
