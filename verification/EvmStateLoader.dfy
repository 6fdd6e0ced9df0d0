/** The legacy EVM state loader: it ranges over a Go map from address text to
    type and version, and fills five fields. */
module EvmStateLoader {
  import opened Wrappers
  import opened MapOrder

  type Address = nat

  datatype Field = Timelock | CallProxy | Proposer | Bypasser | Canceller

  /** A contract type: specific to a field, the generic multisig, or another one. */
  datatype Kind = For(field: Field) | Generic | Other

  /** `current` says that the version is 1.0.0; `roles` are the labels that name a role
      of a multisig, `extra` the other labels; `address` is the parsed address text,
      None when it is not a valid non-zero address. */
  datatype Entry = Entry(kind: Kind, current: bool, roles: set<Field>, extra: set<string>, address: Option<Address>)

  /** Fields that are set; the others are nil. */
  type State = map<Field, Address>

  datatype Error = Duplicated | InvalidAddress

  predicate Specific(e: Entry, f: Field) {
    e.current && e.kind == For(f)
  }

  /** A generic multisig labelled for a multisig field. */
  predicate Labelled(e: Entry, f: Field) {
    e.current && e.kind.Generic? && f in {Proposer, Bypasser, Canceller} && f in e.roles
  }

  /** Type, version and exact labels of one of the eight contracts of the bundle: the
      five specific ones without labels, the generic multisig with one role. */
  predicate InBundle(e: Entry) {
    && e.current && e.extra == {}
    && ((e.kind.For? && e.roles == {}) || (e.kind.Generic? && e.roles in {{Proposer}, {Bypasser}, {Canceller}}))
  }

  /** What the framework's duplicate check counts as one contract. */
  predicate SameContract(e: Entry, e': Entry) {
    e.kind == e'.kind && e.current == e'.current && e.roles == e'.roles && e.extra == e'.extra
  }

  /** The framework's check: no contract of the bundle occurs twice. */
  predicate Deduped(entries: map<string, Entry>) {
    forall key, key' :: key in entries && key' in entries && key != key' && InBundle(entries[key]) ==>
      !SameContract(entries[key], entries[key'])
  }

  predicate Relevant(e: Entry) {
    e.current && !e.kind.Other?
  }

  predicate IsMcm(f: Field) {
    f.Proposer? || f.Bypasser? || f.Canceller?
  }

  /** What one entry does to one field: a specific one takes it, a labelled generic
      one only fills it when it is nil. */
  function Fill(current: Option<Address>, e: Entry, f: Field): Option<Address> {
    if !e.current then current
    else
      match e.kind
      case For(field) => if f == field then e.address else current
      case Generic => if IsMcm(f) && f in e.roles && current.None? then e.address else current
      case Other => current
  }

  /** The field after visiting `order`. */
  function FieldAfter(entries: map<string, Entry>, order: seq<string>, f: Field): Option<Address>
    requires forall key :: key in order ==> key in entries
  {
    if order == [] then None
    else Fill(FieldAfter(entries, order[..|order| - 1], f), entries[order[|order| - 1]], f)
  }

  predicate AllParse(entries: map<string, Entry>, keys: seq<string>)
    requires forall key :: key in keys ==> key in entries
  {
    forall key :: key in keys && Relevant(entries[key]) ==> entries[key].address.Some?
  }

  function Look(state: State, f: Field): Option<Address> {
    if f in state then Some(state[f]) else None
  }

  method Load(entries: map<string, Entry>, order: seq<string>) returns (r: Result<State, Error>)
    requires Enumerates(order, entries.Keys)
    ensures r.Success? <==>
      && Deduped(entries)
      && forall key :: key in entries && entries[key].current && entries[key].kind != Other ==>
           entries[key].address.Some?
    ensures r.Success? ==> forall f: Field :: Look(r.value, f) == FieldAfter(entries, order, f)
  {
    if !Deduped(entries) {
      return Failure(Duplicated);
    }
    hide Deduped;
    var state: State := map[];
    for i := 0 to |order|
      invariant forall j :: 0 <= j < i ==> order[j] in entries.Keys
      invariant AllParse(entries, order[..i])
      invariant forall f: Field :: Look(state, f) == FieldAfter(entries, order[..i], f)
    {
      var e := entries[order[i]];
      assert order[..i + 1][..i] == order[..i] && order[..i + 1][i] == order[i];
      ghost var before := state;
      if e.current && e.kind.For? {
        if e.address.None? {
          return Failure(InvalidAddress);
        }
        state := state[e.kind.field := e.address.value];
      } else if e.current && e.kind.Generic? {
        if e.address.None? {
          return Failure(InvalidAddress);
        }
        if Proposer in e.roles && Proposer !in state {
          state := state[Proposer := e.address.value];
        }
        if Bypasser in e.roles && Bypasser !in state {
          state := state[Bypasser := e.address.value];
        }
        if Canceller in e.roles && Canceller !in state {
          state := state[Canceller := e.address.value];
        }
      }
      forall f: Field
        ensures Look(state, f) == Fill(Look(before, f), e, f)
      {}
      assert forall f: Field ::
        FieldAfter(entries, order[..i + 1], f) == Fill(FieldAfter(entries, order[..i], f), e, f);
    }
    assert order[..|order|] == order;
    return Success(state);
  }

  // ----- precedence

  predicate HasSpecific(entries: map<string, Entry>, f: Field) {
    exists key :: key in entries && Specific(entries[key], f)
  }

  predicate HasLabelled(entries: map<string, Entry>, f: Field) {
    exists key :: key in entries && Labelled(entries[key], f)
  }

  predicate AnySpecific(entries: map<string, Entry>, order: seq<string>, f: Field)
    requires forall key :: key in order ==> key in entries
  {
    exists i :: 0 <= i < |order| && Specific(entries[order[i]], f)
  }

  predicate AnyLabelled(entries: map<string, Entry>, order: seq<string>, f: Field)
    requires forall key :: key in order ==> key in entries
  {
    exists i :: 0 <= i < |order| && Labelled(entries[order[i]], f)
  }

  /** The field's entry: the last specific one of `order` if there is one, else the
      first labelled one. */
  lemma {:induction false} FieldOutcome(entries: map<string, Entry>, order: seq<string>, f: Field) returns (i: nat)
    requires forall key :: key in order ==> key in entries
    requires AllParse(entries, order)
    ensures AnySpecific(entries, order, f) ==>
      i < |order| && Specific(entries[order[i]], f) && FieldAfter(entries, order, f) == entries[order[i]].address
      && forall j :: i < j < |order| ==> !Specific(entries[order[j]], f)
    ensures !AnySpecific(entries, order, f) && AnyLabelled(entries, order, f) ==>
      i < |order| && Labelled(entries[order[i]], f) && FieldAfter(entries, order, f) == entries[order[i]].address
      && forall j :: 0 <= j < i ==> !Labelled(entries[order[j]], f)
    ensures !AnySpecific(entries, order, f) && !AnyLabelled(entries, order, f) ==> FieldAfter(entries, order, f) == None
  {
    i := 0;
    if order != [] {
      var n := |order| - 1;
      var rest := order[..n];
      assert order == rest + [order[n]];
      i := FieldOutcome(entries, rest, f);
      AnyOneMore(entries, order, f);
      LabelledParses(entries, order, f, i);
      FillIs(FieldAfter(entries, rest, f), entries[order[n]], f);
      hide Specific, Labelled, AnySpecific, AnyLabelled, AllParse, Fill;
      if Specific(entries[order[n]], f)
        || (Labelled(entries[order[n]], f) && !AnySpecific(entries, rest, f) && !AnyLabelled(entries, rest, f)) {
        NoneBefore(entries, rest, f);
        i := n;
      }
    }
  }

  lemma FillIs(current: Option<Address>, e: Entry, f: Field)
    ensures Fill(current, e, f) ==
      if Specific(e, f) then e.address else if Labelled(e, f) && current.None? then e.address else current
  {}

  lemma AnyOneMore(entries: map<string, Entry>, order: seq<string>, f: Field)
    requires order != [] && forall key :: key in order ==> key in entries
    ensures
      var n := |order| - 1;
      && (AnySpecific(entries, order, f) <==> AnySpecific(entries, order[..n], f) || Specific(entries[order[n]], f))
      && (AnyLabelled(entries, order, f) <==> AnyLabelled(entries, order[..n], f) || Labelled(entries[order[n]], f))
  {
    assert forall i :: 0 <= i < |order| - 1 ==> order[..|order| - 1][i] == order[i];
  }

  lemma NoneBefore(entries: map<string, Entry>, order: seq<string>, f: Field)
    requires forall key :: key in order ==> key in entries
    ensures !AnyLabelled(entries, order, f) ==> forall j :: 0 <= j < |order| ==> !Labelled(entries[order[j]], f)
  {}

  lemma LabelledParses(entries: map<string, Entry>, order: seq<string>, f: Field, i: nat)
    requires (forall key :: key in order ==> key in entries) && AllParse(entries, order)
    ensures i < |order| && (Labelled(entries[order[i]], f) || Specific(entries[order[i]], f)) ==>
      entries[order[i]].address.Some?
  {}

  /** For one field: entries that would be taken hold one address. */
  predicate OneAddress(entries: map<string, Entry>, f: Field) {
    forall key, key' :: key in entries && key' in entries ==>
      if HasSpecific(entries, f)
      then Specific(entries[key], f) && Specific(entries[key'], f) ==> entries[key].address == entries[key'].address
      else Labelled(entries[key], f) && Labelled(entries[key'], f) ==> entries[key].address == entries[key'].address
  }

  /** The specifically typed contract if present, else the labelled one, else nil. */
  predicate Precedence(entries: map<string, Entry>, f: Field, filled: Option<Address>) {
    if HasSpecific(entries, f) then exists key ::
      key in entries && Specific(entries[key], f) && filled == entries[key].address
    else if HasLabelled(entries, f) then exists key ::
      key in entries && Labelled(entries[key], f) && filled == entries[key].address
    else filled == None
  }

  lemma PrecedenceHolds(entries: map<string, Entry>, order: seq<string>, f: Field)
    requires Enumerates(order, entries.Keys) && AllParse(entries, order)
    ensures Precedence(entries, f, FieldAfter(entries, order, f))
  {
    var i := FieldOutcome(entries, order, f);
    if HasSpecific(entries, f) {
      var key :| key in entries && Specific(entries[key], f);
      var j :| 0 <= j < |order| && order[j] == key;
    } else if HasLabelled(entries, f) {
      var key :| key in entries && Labelled(entries[key], f);
      var j :| 0 <= j < |order| && order[j] == key;
    }
    assert AnySpecific(entries, order, f) ==> order[i] in entries;
  }

  /** A field comes out the same in every visiting order exactly when the entries
      that compete for it hold one address. In particular when there is at most one
      specific entry and at most one labelled generic one. */
  lemma OrderIndependentIff(entries: map<string, Entry>, f: Field)
    requires forall key :: key in entries && Relevant(entries[key]) ==> entries[key].address.Some?
    ensures
      (forall order, order' :: Enumerates(order, entries.Keys) && Enumerates(order', entries.Keys) ==>
         FieldAfter(entries, order, f) == FieldAfter(entries, order', f))
      <==> OneAddress(entries, f)
  {
    if OneAddress(entries, f) {
      forall order, order' | Enumerates(order, entries.Keys) && Enumerates(order', entries.Keys)
        ensures FieldAfter(entries, order, f) == FieldAfter(entries, order', f)
      {
        PrecedenceHolds(entries, order, f);
        PrecedenceHolds(entries, order', f);
      }
    } else {
      var key, key' :| key in entries && key' in entries && entries[key].address != entries[key'].address &&
        if HasSpecific(entries, f) then Specific(entries[key], f) && Specific(entries[key'], f)
        else Labelled(entries[key], f) && Labelled(entries[key'], f);
      var order, order' := OrderChoosing(entries, f, key), OrderChoosing(entries, f, key');
      OrderChooses(entries, f, key);
      OrderChooses(entries, f, key');
      assert FieldAfter(entries, order, f) != FieldAfter(entries, order', f);
    }
  }

  /** An order in which `key` decides the field: last when a specific entry does,
      else first. */
  ghost function OrderChoosing(entries: map<string, Entry>, f: Field, key: string): seq<string>
    requires key in entries
  {
    var rest := SomeOrder(entries.Keys - {key});
    if HasSpecific(entries, f) then rest + [key] else [key] + rest
  }

  lemma OrderChooses(entries: map<string, Entry>, f: Field, key: string)
    requires forall key :: key in entries && Relevant(entries[key]) ==> entries[key].address.Some?
    requires key in entries
    requires if HasSpecific(entries, f) then Specific(entries[key], f) else Labelled(entries[key], f)
    ensures Enumerates(OrderChoosing(entries, f, key), entries.Keys)
    ensures FieldAfter(entries, OrderChoosing(entries, f, key), f) == entries[key].address
  {
    var rest := SomeOrder(entries.Keys - {key});
    var order := OrderChoosing(entries, f, key);
    assert Enumerates([key], {key});
    assert entries.Keys == entries.Keys - {key} + {key} && entries.Keys == {key} + (entries.Keys - {key});
    hide Fill;
    if HasSpecific(entries, f) {
      Joined(rest, entries.Keys - {key}, [key], {key});
      assert order[|order| - 1] == key && order[..|order| - 1] == rest;
      FillIs(FieldAfter(entries, rest, f), entries[key], f);
    } else {
      Joined([key], {key}, rest, entries.Keys - {key});
      assert order[0] == key && Labelled(entries[order[0]], f);
      var i := FieldOutcome(entries, order, f);
    }
  }

  /** The duplicate check lets two generic multisigs with a role in common pass when
      their labels differ; then the field depends on the order. */
  lemma AcceptedButOrderDependent(a: Address, b: Address)
    requires a != b
    ensures
      var entries := map["a" := Entry(Generic, true, {Proposer}, {}, Some(a)),
                         "b" := Entry(Generic, true, {Proposer, Bypasser}, {}, Some(b))];
      && Enumerates(["a", "b"], entries.Keys) && Enumerates(["b", "a"], entries.Keys)
      && Deduped(entries) && AllParse(entries, ["a", "b"]) && AllParse(entries, ["b", "a"])
      && FieldAfter(entries, ["a", "b"], Proposer) == Some(a)
      && FieldAfter(entries, ["b", "a"], Proposer) == Some(b)
  {
    var entries := map["a" := Entry(Generic, true, {Proposer}, {}, Some(a)),
                       "b" := Entry(Generic, true, {Proposer, Bypasser}, {}, Some(b))];
    assert "a"[0] != "b"[0];
    assert Bypasser in entries["b"].roles && Bypasser !in entries["a"].roles;
    TwoVisited(entries, "a", "b", Proposer);
    TwoVisited(entries, "b", "a", Proposer);
  }

  lemma TwoVisited(entries: map<string, Entry>, x: string, y: string, f: Field)
    requires x in entries && y in entries
    ensures FieldAfter(entries, [x, y], f) == Fill(Fill(None, entries[x], f), entries[y], f)
  {
    assert [x, y][..1] == [x] && [x][..0] == [];
    assert FieldAfter(entries, [x], f) == Fill(FieldAfter(entries, [x][..0], f), entries[x], f);
    hide Fill;
  }

  /** The whole loader: with at most one specific entry per field and at most one
      generic multisig labelled per role, success or failure and every field are the
      same in any two orders, and follow the precedence. */
  lemma LoadOrderIndependent(entries: map<string, Entry>, order: seq<string>, order': seq<string>)
    requires Enumerates(order, entries.Keys) && Enumerates(order', entries.Keys)
    requires forall f: Field :: OneCandidate(entries, f)
    ensures AllParse(entries, order) <==> AllParse(entries, order')
    ensures AllParse(entries, order) ==> forall f: Field ::
      FieldAfter(entries, order, f) == FieldAfter(entries, order', f)
        && Precedence(entries, f, FieldAfter(entries, order, f))
  {
    if AllParse(entries, order) {
      forall f: Field
        ensures FieldAfter(entries, order, f) == FieldAfter(entries, order', f)
        ensures Precedence(entries, f, FieldAfter(entries, order, f))
      {
        PrecedenceHolds(entries, order, f);
        OrderIndependentIff(entries, f);
        assert OneCandidate(entries, f) ==> OneAddress(entries, f);
      }
    }
  }

  predicate OneCandidate(entries: map<string, Entry>, f: Field) {
    forall key, key' :: key in entries && key' in entries ==>
      && (Specific(entries[key], f) && Specific(entries[key'], f) ==> key == key')
      && (Labelled(entries[key], f) && Labelled(entries[key'], f) ==> key == key')
  }

  /** The duplicate check is enough for that where every contract of a type it looks
      for is labelled as the bundle has it. */
  lemma DedupedSuffices(entries: map<string, Entry>, f: Field)
    requires Deduped(entries) && forall key :: key in entries && Relevant(entries[key]) ==> InBundle(entries[key])
    ensures OneCandidate(entries, f)
  {
    forall key, key' | key in entries && key' in entries
      ensures Specific(entries[key], f) && Specific(entries[key'], f) ==> key == key'
      ensures Labelled(entries[key], f) && Labelled(entries[key'], f) ==> key == key'
    {
      assert Relevant(entries[key]) ==> InBundle(entries[key]);
      assert Relevant(entries[key']) ==> InBundle(entries[key']);
    }
  }
}
