/** Loading the Solana deployment state from the datastore. The three multisig
    instance refs are visited by ranging over a Go map, in any order. */
module SolanaAddresses {
  import opened Wrappers
  import opened MapOrder

  /** Zero is the zero key, zero the empty seed. */
  type PublicKey = nat
  type Seed = nat

  /** An address string: empty, a base58 key, a key with a seed, or neither. */
  datatype Text = Empty | Base58(key: PublicKey) | Seeded(programID: PublicKey, seed: Seed) | Garbage

  datatype ContractType =
    | AccessControllerProgram
    | ProposerAccount | ExecutorAccount | CancellerAccount | BypasserAccount
    | McmProgram | TimelockProgram
    | ProposerMcm | CancellerMcm | BypasserMcm
    | Timelock

  /** The addresses of the refs that match a type, for one chain, version and qualifier. */
  type DataStore = map<ContractType, seq<Text>>

  /** Program IDs, accounts and seeds; a missing entry is a zero value. */
  datatype DeployedAddresses = DeployedAddresses(keys: map<ContractType, PublicKey>, seeds: map<ContractType, Seed>)

  const NONE_DEPLOYED := DeployedAddresses(map[], map[])

  function KeyOf(addrs: DeployedAddresses, ct: ContractType): PublicKey {
    if ct in addrs.keys then addrs.keys[ct] else 0
  }

  datatype Error = Ambiguous | Malformed | ProgramMismatch

  /** The one matching address, the empty text when there is none. */
  function FindRef(ds: DataStore, ct: ContractType): Result<Text, Error> {
    if ct !in ds || |ds[ct]| == 0 then Success(Empty)
    else if |ds[ct]| == 1 then Success(ds[ct][0])
    else Failure(Ambiguous)
  }

  /** What an instance ref amounts to. */
  datatype Entry = Absent | Bad | Instance(programID: PublicKey, seed: Seed)

  function EntryOf(ds: DataStore, ct: ContractType): Entry {
    match FindRef(ds, ct)
    case Failure(_) => Bad
    case Success(Empty) => Absent
    case Success(Seeded(programID, seed)) => Instance(programID, seed)
    case Success(_) => Bad
  }

  /** reconcileInstanceProgramID: the program-level key afterwards. */
  function Reconcile(programLevel: PublicKey, embedded: PublicKey): Option<PublicKey> {
    if programLevel == 0 then Some(embedded)
    else if programLevel != embedded then None
    else Some(programLevel)
  }

  const PLAIN :=
    [AccessControllerProgram, ProposerAccount, ExecutorAccount, CancellerAccount, BypasserAccount, McmProgram,
      TimelockProgram]

  predicate PlainOk(ds: DataStore, ct: ContractType) {
    FindRef(ds, ct).Success? && (FindRef(ds, ct).value.Empty? || FindRef(ds, ct).value.Base58?)
  }

  predicate HasPlain(ds: DataStore, ct: ContractType) {
    FindRef(ds, ct).Success? && FindRef(ds, ct).value.Base58?
  }

  /** The keys of the first `n` plain types. */
  function PlainKeys(ds: DataStore, n: nat): map<ContractType, PublicKey>
    requires n <= |PLAIN|
  {
    map ct | ct in PLAIN[..n] && HasPlain(ds, ct) :: FindRef(ds, ct).value.key
  }

  /** One instance ref, reconciled with the program-level key of type `program`. */
  function LoadInstance(addrs: DeployedAddresses, entry: Entry, instance: ContractType, program: ContractType)
    : Option<DeployedAddresses>
  {
    match entry
    case Absent => Some(addrs)
    case Bad => None
    case Instance(programID, seed) =>
      match Reconcile(KeyOf(addrs, program), programID)
      case None => None
      case Some(key) => Some(DeployedAddresses(addrs.keys[program := key], addrs.seeds[instance := seed]))
  }

  function LoadInstances(addrs: DeployedAddresses, ds: DataStore, order: seq<ContractType>): Option<DeployedAddresses> {
    if order == [] then Some(addrs) else
    match LoadInstances(addrs, ds, order[..|order| - 1])
    case None => None
    case Some(a) => LoadInstance(a, EntryOf(ds, order[|order| - 1]), order[|order| - 1], McmProgram)
  }

  const INSTANCES := {ProposerMcm, CancellerMcm, BypasserMcm}

  predicate AllPlainOk(ds: DataStore) {
    forall i :: 0 <= i < |PLAIN| ==> PlainOk(ds, PLAIN[i])
  }

  /** The whole load, None for any error. */
  function Load(ds: DataStore, order: seq<ContractType>): Option<DeployedAddresses> {
    if !AllPlainOk(ds) then None else
    match LoadInstances(DeployedAddresses(PlainKeys(ds, |PLAIN|), map[]), ds, order)
    case None => None
    case Some(addrs) => LoadInstance(addrs, EntryOf(ds, Timelock), Timelock, TimelockProgram)
  }

  /** `order` is any order in which the loop may visit the three multisig types. */
  method LoadDeployedAddresses(ds: Option<DataStore>, order: seq<ContractType>)
    returns (r: Result<DeployedAddresses, Error>)
    requires Enumerates(order, {ProposerMcm, CancellerMcm, BypasserMcm})
    ensures ds.None? ==> r == Success(NONE_DEPLOYED)
    ensures ds.Some? ==> Load(ds.value, order) == if r.Success? then Some(r.value) else None
  {
    if ds.None? {
      return Success(NONE_DEPLOYED);
    }
    var plain := LoadPlain(ds.value);
    if plain.Failure? {
      return plain;
    }
    var addrs := plain.value;
    for i := 0 to |order|
      invariant LoadInstances(plain.value, ds.value, order[..i]) == Some(addrs)
    {
      assert order[..i + 1][..i] == order[..i] && order[..i + 1][i] == order[i];
      var loaded := LoadOne(addrs, ds.value, order[i], McmProgram);
      if loaded.Failure? {
        LoadFails(plain.value, ds.value, order, i + 1);
        return loaded;
      }
      addrs := loaded.value;
    }
    assert order[..|order|] == order;
    r := LoadOne(addrs, ds.value, Timelock, TimelockProgram);
  }

  /** The plain base58 addresses. */
  method LoadPlain(ds: DataStore) returns (r: Result<DeployedAddresses, Error>)
    ensures r.Success? <==> AllPlainOk(ds)
    ensures r.Success? ==> r.value == DeployedAddresses(PlainKeys(ds, |PLAIN|), map[])
  {
    var keys: map<ContractType, PublicKey> := map[];
    assert keys == PlainKeys(ds, 0);
    hide PlainKeys, FindRef;
    for i := 0 to |PLAIN|
      invariant keys == PlainKeys(ds, i)
      invariant forall j :: 0 <= j < i ==> PlainOk(ds, PLAIN[j])
    {
      var addr := FindRef(ds, PLAIN[i]);
      if addr.Failure? {
        assert !PlainOk(ds, PLAIN[i]);
        return Failure(addr.error);
      }
      if !addr.value.Empty? {
        if !addr.value.Base58? {
          assert !PlainOk(ds, PLAIN[i]);
          return Failure(Malformed);
        }
        keys := keys[PLAIN[i] := addr.value.key];
      }
      PlainKeysGrow(ds, i);
    }
    return Success(DeployedAddresses(keys, map[]));
  }

  lemma PlainKeysGrow(ds: DataStore, i: nat)
    requires i < |PLAIN|
    ensures
      var (ct, keys) := (PLAIN[i], PlainKeys(ds, i));
      PlainKeys(ds, i + 1) == if HasPlain(ds, ct) then keys[ct := FindRef(ds, ct).value.key] else keys
  {
    assert PLAIN[..i + 1] == PLAIN[..i] + [PLAIN[i]];
    PlainApart(i);
  }

  lemma PlainApart(i: nat)
    requires i < |PLAIN|
    ensures PLAIN[i] !in PLAIN[..i]
  {}

  /** One seed-encoded instance ref. */
  method LoadOne(addrs: DeployedAddresses, ds: DataStore, instance: ContractType, program: ContractType)
    returns (r: Result<DeployedAddresses, Error>)
    ensures LoadInstance(addrs, EntryOf(ds, instance), instance, program) == if r.Success? then Some(r.value) else None
  {
    var addr := FindRef(ds, instance);
    if addr.Failure? {
      return Failure(addr.error);
    }
    if addr.value.Empty? {
      return Success(addrs);
    }
    if !addr.value.Seeded? {
      return Failure(Malformed);
    }
    var key := Reconcile(KeyOf(addrs, program), addr.value.programID);
    if key.None? {
      return Failure(ProgramMismatch);
    }
    return Success(DeployedAddresses(addrs.keys[program := key.value], addrs.seeds[instance := addr.value.seed]));
  }

  lemma {:induction false} LoadFails(addrs: DeployedAddresses, ds: DataStore, order: seq<ContractType>, n: nat)
    requires n <= |order| && LoadInstances(addrs, ds, order[..n]).None?
    ensures LoadInstances(addrs, ds, order).None?
    decreases |order|
  {
    if n < |order| {
      assert order[..|order| - 1][..n] == order[..n];
      LoadFails(addrs, ds, order[..|order| - 1], n);
    } else {
      assert order[..n] == order;
    }
  }

  // ----- the visit, in terms of the embedded program IDs

  predicate AllDecode(ds: DataStore, order: seq<ContractType>) {
    forall ct :: ct in order ==> !EntryOf(ds, ct).Bad?
  }

  /** The embedded program IDs, in visiting order. */
  function Ids(ds: DataStore, order: seq<ContractType>): seq<PublicKey> {
    if order == [] then []
    else
      var e := EntryOf(ds, order[|order| - 1]);
      Ids(ds, order[..|order| - 1]) + if e.Instance? then [e.programID] else []
  }

  function Seeds(ds: DataStore, order: seq<ContractType>): map<ContractType, Seed> {
    map ct | ct in order && EntryOf(ds, ct).Instance? :: EntryOf(ds, ct).seed
  }

  /** Reconciling a list of IDs with the program-level key. */
  function FoldKey(pl: PublicKey, ids: seq<PublicKey>): Option<PublicKey> {
    if ids == [] then Some(pl) else
    match FoldKey(pl, ids[..|ids| - 1])
    case None => None
    case Some(key) => Reconcile(key, ids[|ids| - 1])
  }

  /** `addrs` after visiting `ids`, which left `key`. */
  function WithKey(addrs: DeployedAddresses, ids: seq<PublicKey>, key: PublicKey): map<ContractType, PublicKey> {
    if ids == [] then addrs.keys else addrs.keys[McmProgram := key]
  }

  function Folded(addrs: DeployedAddresses, ds: DataStore, order: seq<ContractType>): Option<DeployedAddresses> {
    var ids := Ids(ds, order);
    var key := FoldKey(KeyOf(addrs, McmProgram), ids);
    if !AllDecode(ds, order) || key.None? then None
    else Some(DeployedAddresses(WithKey(addrs, ids, key.value), addrs.seeds + Seeds(ds, order)))
  }

  lemma VisitOneMore(ds: DataStore, rest: seq<ContractType>, last: ContractType)
    ensures
      var order, e := rest + [last], EntryOf(ds, last);
      && (AllDecode(ds, order) <==> AllDecode(ds, rest) && !e.Bad?)
      && Ids(ds, order) == Ids(ds, rest) + (if e.Instance? then [e.programID] else [])
      && Seeds(ds, order) == if e.Instance? then Seeds(ds, rest)[last := e.seed] else Seeds(ds, rest)
  {
    hide EntryOf;
    var order := rest + [last];
    assert order[..|order| - 1] == rest;
  }

  lemma FoldOneMore(pl: PublicKey, ids: seq<PublicKey>, id: PublicKey)
    ensures FoldKey(pl, ids + [id]) == if FoldKey(pl, ids).None? then None else Reconcile(FoldKey(pl, ids).value, id)
  {
    assert (ids + [id])[..|ids|] == ids;
  }

  lemma FoldStep(addrs: DeployedAddresses, ds: DataStore, rest: seq<ContractType>, last: ContractType)
    ensures Folded(addrs, ds, rest + [last]) ==
      if Folded(addrs, ds, rest).None? then None
        else LoadInstance(Folded(addrs, ds, rest).value, EntryOf(ds, last), last, McmProgram)
  {
    VisitOneMore(ds, rest, last);
    var pl, ids, e := KeyOf(addrs, McmProgram), Ids(ds, rest), EntryOf(ds, last);
    hide Ids, EntryOf, AllDecode, Seeds;
    if e.Instance? {
      FoldOneMore(pl, ids, e.programID);
      var folded := Folded(addrs, ds, rest);
      if folded.Some? {
        var key := FoldKey(pl, ids).value;
        assert KeyOf(folded.value, McmProgram) == key;
        var next := FoldKey(pl, ids + [e.programID]);
        if next.Some? {
          assert folded.value.keys[McmProgram := next.value] == WithKey(addrs, ids + [e.programID], next.value);
        }
        assert (addrs.seeds + Seeds(ds, rest))[last := e.seed] == addrs.seeds + Seeds(ds, rest)[last := e.seed];
      }
    } else {
      assert ids + [] == ids;
    }
  }

  lemma {:induction false} LoadIsFold(addrs: DeployedAddresses, ds: DataStore, order: seq<ContractType>)
    ensures LoadInstances(addrs, ds, order) == Folded(addrs, ds, order)
  {
    if order == [] {
      assert addrs.seeds + Seeds(ds, order) == addrs.seeds;
    } else {
      var rest, last := order[..|order| - 1], order[|order| - 1];
      assert order == rest + [last];
      LoadIsFold(addrs, ds, rest);
      FoldStep(addrs, ds, rest, last);
    }
  }

  /** A list goes through when, once a key is set, every later ID equals it. */
  lemma {:induction false} FoldKeyOutcome(pl: PublicKey, ids: seq<PublicKey>)
    ensures FoldKey(pl, ids).Some? <==>
      && (forall i :: 0 <= i < |ids| && pl != 0 ==> ids[i] == pl)
      && (forall i, j :: 0 <= i < j < |ids| && ids[i] != 0 ==> ids[j] == ids[i])
    ensures FoldKey(pl, ids).Some? ==>
      var key := FoldKey(pl, ids).value;
      && (pl != 0 ==> key == pl)
      && (forall i :: 0 <= i < |ids| && ids[i] != 0 ==> key == ids[i])
      && (key != 0 ==> key == pl || key in ids)
  {
    if ids != [] {
      var rest, last := ids[..|ids| - 1], ids[|ids| - 1];
      assert ids == rest + [last];
      FoldKeyOutcome(pl, rest);
    }
  }

  // ----- order independence

  /** The program IDs embedded by the instances of `types`. */
  function Embedded(ds: DataStore, types: set<ContractType>): set<PublicKey> {
    set ct | ct in types && EntryOf(ds, ct).Instance? :: EntryOf(ds, ct).programID
  }

  lemma {:induction false} IdsAreEmbedded(ds: DataStore, order: seq<ContractType>, types: set<ContractType>)
    requires Enumerates(order, types)
    ensures forall x :: x in Ids(ds, order) <==> x in Embedded(ds, types)
  {
    if order == [] {
      assert Embedded(ds, types) == {};
    } else {
      var rest, last := order[..|order| - 1], order[|order| - 1];
      Shorter(order, types);
      IdsAreEmbedded(ds, rest, types - {last});
      var e := EntryOf(ds, last);
      assert types == types - {last} + {last};
      assert Embedded(ds, types) == Embedded(ds, types - {last}) + if e.Instance? then {e.programID} else {};
    }
  }

  /** All IDs agree with each other and with the program-level key, where that is set. */
  predicate Agree(ids: set<PublicKey>, pl: PublicKey) {
    (forall x :: x in ids && pl != 0 ==> x == pl) && (forall x, y :: x in ids && y in ids ==> x == y)
  }

  /** There is no program-level key, one ID is zero, another is not, and the
      non-zero ones agree. */
  predicate OnlyZerosDisagree(ids: set<PublicKey>, pl: PublicKey) {
    pl == 0 && 0 in ids && (exists x :: x in ids && x != 0)
      && (forall x, y :: x in ids && y in ids && x != 0 && y != 0 ==> x == y)
  }

  predicate Decodable(ds: DataStore, types: set<ContractType>) {
    forall ct :: ct in types ==> !EntryOf(ds, ct).Bad?
  }

  /** Unless zero IDs are the only ones to disagree, any order gives this outcome. */
  ghost function Outcome(addrs: DeployedAddresses, ds: DataStore, types: set<ContractType>): Option<DeployedAddresses> {
    var pl, ids := KeyOf(addrs, McmProgram), Embedded(ds, types);
    if !Decodable(ds, types) || !Agree(ids, pl) then None
    else
      Some(DeployedAddresses(if ids == {} then addrs.keys else addrs.keys[McmProgram := var x :| x in ids; x],
                             addrs.seeds + map ct | ct in types && EntryOf(ds, ct).Instance? :: EntryOf(ds, ct).seed))
  }

  lemma LoadInOrder(addrs: DeployedAddresses, ds: DataStore, types: set<ContractType>, order: seq<ContractType>)
    requires Enumerates(order, types)
    requires !OnlyZerosDisagree(Embedded(ds, types), KeyOf(addrs, McmProgram))
    ensures LoadInstances(addrs, ds, order) == Outcome(addrs, ds, types)
  {
    var pl, ids, set_ := KeyOf(addrs, McmProgram), Ids(ds, order), Embedded(ds, types);
    LoadIsFold(addrs, ds, order);
    IdsAreEmbedded(ds, order, types);
    FoldKeyOutcome(pl, ids);
    assert AllDecode(ds, order) <==> Decodable(ds, types);
    assert Seeds(ds, order) == map ct | ct in types && EntryOf(ds, ct).Instance? :: EntryOf(ds, ct).seed;
    FoldAgrees(pl, ids, set_);
    if ids == [] {
      assert set_ == {};
    } else {
      assert ids[0] in set_;
    }
  }

  lemma FoldAgrees(pl: PublicKey, ids: seq<PublicKey>, all: set<PublicKey>)
    requires forall x :: x in ids <==> x in all
    requires !OnlyZerosDisagree(all, pl)
    ensures FoldKey(pl, ids).Some? <==> Agree(all, pl)
    ensures FoldKey(pl, ids).Some? ==> forall x :: x in all ==> FoldKey(pl, ids).value == x
  {
    FoldKeyOutcome(pl, ids);
    assert forall i :: 0 <= i < |ids| ==> ids[i] in all;
    if FoldKey(pl, ids).Some? {
      forall x, y | x in all && y in all && x != 0 && y != 0
        ensures x == y
      {
        var i, j :| 0 <= i < |ids| && 0 <= j < |ids| && ids[i] == x && ids[j] == y;
      }
      forall x | x in all && pl != 0
        ensures x == pl
      {
        var i :| 0 <= i < |ids| && ids[i] == x;
      }
    }
  }

  /** Every order gives the same result exactly when some ref does not decode or
      zero IDs are not the only ones to disagree. */
  lemma OrderIndependentIff(addrs: DeployedAddresses, ds: DataStore, types: set<ContractType>)
    ensures
      (forall order, order' :: Enumerates(order, types) && Enumerates(order', types) ==>
         LoadInstances(addrs, ds, order) == LoadInstances(addrs, ds, order'))
      <==> !Decodable(ds, types) || !OnlyZerosDisagree(Embedded(ds, types), KeyOf(addrs, McmProgram))
  {
    if !Decodable(ds, types) {
      forall order | Enumerates(order, types)
        ensures LoadInstances(addrs, ds, order).None?
      {
        LoadIsFold(addrs, ds, order);
      }
    } else if !OnlyZerosDisagree(Embedded(ds, types), KeyOf(addrs, McmProgram)) {
      forall order | Enumerates(order, types)
        ensures LoadInstances(addrs, ds, order) == Outcome(addrs, ds, types)
      {
        LoadInOrder(addrs, ds, types, order);
      }
    } else {
      ZerosLastFails(addrs, ds, types);
    }
  }

  /** The instances of `types` whose embedded ID is zero, or is not. */
  function Part(ds: DataStore, types: set<ContractType>, zero: bool): set<ContractType> {
    set ct | ct in types && EntryOf(ds, ct).Instance? && (EntryOf(ds, ct).programID == 0 <==> zero)
  }

  lemma {:induction false} IdsJoin(ds: DataStore, o: seq<ContractType>, o': seq<ContractType>)
    ensures Ids(ds, o + o') == Ids(ds, o) + Ids(ds, o')
  {
    if o' == [] {
      assert o + o' == o;
    } else {
      assert (o + o')[..|o + o'| - 1] == o + o'[..|o'| - 1];
      IdsJoin(ds, o, o'[..|o'| - 1]);
    }
  }

  lemma FoldZeros(zeros: seq<PublicKey>, others: seq<PublicKey>)
    requires zeros != [] && others != []
    requires forall i :: 0 <= i < |zeros| ==> zeros[i] == 0
    requires forall i, j :: 0 <= i < |others| && 0 <= j < |others| ==> others[i] == others[j] != 0
    ensures FoldKey(0, zeros + others).Some? && FoldKey(0, others + zeros).None?
  {
    FoldKeyOutcome(0, zeros + others);
    FoldKeyOutcome(0, others + zeros);
    assert (others + zeros)[0] != 0 && (others + zeros)[|others|] == 0;
  }

  lemma NoIds(ds: DataStore, order: seq<ContractType>)
    requires forall ct :: ct in order ==> !EntryOf(ds, ct).Instance?
    ensures Ids(ds, order) == []
  {
    if order != [] {
      assert order == order[..|order| - 1] + [order[|order| - 1]];
      NoIds(ds, order[..|order| - 1]);
    }
  }

  lemma PartIds(ds: DataStore, types: set<ContractType>, zero: bool)
    ensures
      var ids := Ids(ds, SomeOrder(Part(ds, types, zero)));
      && (forall i :: 0 <= i < |ids| ==> ids[i] in Embedded(ds, types) && (ids[i] == 0 <==> zero))
      && ((exists x :: x in Embedded(ds, types) && (x == 0 <==> zero)) ==> ids != [])
  {
    var part := Part(ds, types, zero);
    var ids := Ids(ds, SomeOrder(part));
    IdsAreEmbedded(ds, SomeOrder(part), part);
    assert forall i :: 0 <= i < |ids| ==> ids[i] in Embedded(ds, part);
    if x :| x in Embedded(ds, types) && (x == 0 <==> zero) {
      assert x in Embedded(ds, part);
    }
  }

  /** Zero IDs visited first are harmless; visited after a non-zero one they fail. */
  lemma ZerosLastFails(addrs: DeployedAddresses, ds: DataStore, types: set<ContractType>)
    requires Decodable(ds, types) && OnlyZerosDisagree(Embedded(ds, types), KeyOf(addrs, McmProgram))
    ensures exists order, order' :: Enumerates(order, types) && Enumerates(order', types)
              && LoadInstances(addrs, ds, order).Some? && LoadInstances(addrs, ds, order').None?
  {
    var iz, io := Ids(ds, SomeOrder(Part(ds, types, true))), Ids(ds, SomeOrder(Part(ds, types, false)));
    PartIds(ds, types, true);
    PartIds(ds, types, false);
    var order := Arranged(ds, types, true);
    var order' := Arranged(ds, types, false);
    hide Ids, Part, Embedded;
    FoldZeros(iz, io);
    LoadIsFold(addrs, ds, order);
    LoadIsFold(addrs, ds, order');
  }

  /** An order that visits one part before the other, and absent instances last. */
  lemma Arranged(ds: DataStore, types: set<ContractType>, zerosFirst: bool) returns (order: seq<ContractType>)
    ensures Enumerates(order, types)
    ensures
      var iz, io := Ids(ds, SomeOrder(Part(ds, types, true))), Ids(ds, SomeOrder(Part(ds, types, false)));
      Ids(ds, order) == if zerosFirst then iz + io else io + iz
  {
    var p, q := Part(ds, types, zerosFirst), Part(ds, types, !zerosFirst);
    var absent := types - p - q;
    PartsOf(ds, types, zerosFirst);
    hide Part, Ids, Enumerates;
    Joined(SomeOrder(p), p, SomeOrder(q), q);
    Joined(SomeOrder(p) + SomeOrder(q), p + q, SomeOrder(absent), absent);
    IdsJoin(ds, SomeOrder(p), SomeOrder(q));
    IdsJoin(ds, SomeOrder(p) + SomeOrder(q), SomeOrder(absent));
    order := SomeOrder(p) + SomeOrder(q) + SomeOrder(absent);
    var ids := Ids(ds, SomeOrder(p)) + Ids(ds, SomeOrder(q));
    assert ids + [] == ids;
  }

  lemma PartsOf(ds: DataStore, types: set<ContractType>, zerosFirst: bool)
    ensures
      var p, q := Part(ds, types, zerosFirst), Part(ds, types, !zerosFirst);
      var absent := types - p - q;
      p + q + absent == types && p !! q && p + q !! absent && Ids(ds, SomeOrder(absent)) == []
  {
    var p, q := Part(ds, types, zerosFirst), Part(ds, types, !zerosFirst);
    var absent := types - p - q;
    assert p + q + absent == types;
    NoIds(ds, SomeOrder(absent));
  }

  /** The whole load. With non-zero embedded program IDs any visiting order gives
      the same success or failure and the same result; it succeeds exactly when
      all refs decode and all embedded IDs agree. */
  lemma LoadOrderIndependent(ds: DataStore, order: seq<ContractType>, order': seq<ContractType>)
    requires Enumerates(order, INSTANCES) && Enumerates(order', INSTANCES)
    requires 0 !in Embedded(ds, INSTANCES)
    ensures Load(ds, order) == Load(ds, order')
    ensures
      var plain := DeployedAddresses(PlainKeys(ds, |PLAIN|), map[]);
      Load(ds, order).Some? <==>
        && AllPlainOk(ds)
        && Decodable(ds, INSTANCES + {Timelock})
        && Agree(Embedded(ds, INSTANCES), KeyOf(plain, McmProgram))
        && (EntryOf(ds, Timelock).Instance? && KeyOf(plain, TimelockProgram) != 0 ==>
              EntryOf(ds, Timelock).programID == KeyOf(plain, TimelockProgram))
  {
    var plain := DeployedAddresses(PlainKeys(ds, |PLAIN|), map[]);
    LoadInOrder(plain, ds, INSTANCES, order);
    LoadInOrder(plain, ds, INSTANCES, order');
  }

  // ----- the load to the letter

  predicate IsPlain(ct: ContractType) {
    || ct.AccessControllerProgram? || ct.ProposerAccount? || ct.ExecutorAccount? || ct.CancellerAccount?
    || ct.BypasserAccount? || ct.McmProgram? || ct.TimelockProgram?
  }

  predicate IsInstance(ct: ContractType) {
    ct.ProposerMcm? || ct.CancellerMcm? || ct.BypasserMcm? || ct.Timelock?
  }

  /** No ref, or one with an empty address. */
  predicate Missing(ds: DataStore, ct: ContractType) {
    ct !in ds || ds[ct] == [] || ds[ct] == [Empty]
  }

  predicate PlainAt(ds: DataStore, ct: ContractType, key: PublicKey) {
    ct in ds && ds[ct] == [Base58(key)]
  }

  predicate InstanceAt(ds: DataStore, ct: ContractType, programID: PublicKey, seed: Seed) {
    ct in ds && ds[ct] == [Seeded(programID, seed)]
  }

  ghost predicate Plain(ds: DataStore, ct: ContractType) {
    Missing(ds, ct) || exists key :: PlainAt(ds, ct, key)
  }

  ghost predicate SeedEncoded(ds: DataStore, ct: ContractType) {
    Missing(ds, ct) || exists programID, seed :: InstanceAt(ds, ct, programID, seed)
  }

  lemma RefIs(ds: DataStore, ct: ContractType)
    ensures PlainOk(ds, ct) <==> Plain(ds, ct)
    ensures HasPlain(ds, ct) <==> exists key :: PlainAt(ds, ct, key)
    ensures HasPlain(ds, ct) ==> PlainAt(ds, ct, FindRef(ds, ct).value.key)
    ensures EntryOf(ds, ct).Absent? <==> Missing(ds, ct)
    ensures EntryOf(ds, ct).Bad? <==> !SeedEncoded(ds, ct)
    ensures forall id, seed :: EntryOf(ds, ct) == Instance(id, seed) <==> InstanceAt(ds, ct, id, seed)
  {
    if ct in ds && |ds[ct]| == 1 {
      var text := ds[ct][0];
      assert ds[ct] == [text];
      assert text.Base58? ==> PlainAt(ds, ct, text.key);
      assert text.Seeded? ==> InstanceAt(ds, ct, text.programID, text.seed);
    }
  }

  /** The plain types, and what is known of them. */
  lemma PlainKeyIs(ds: DataStore, ct: ContractType)
    requires IsPlain(ct) && AllPlainOk(ds)
    ensures Plain(ds, ct)
    ensures
      var plain := DeployedAddresses(PlainKeys(ds, |PLAIN|), map[]);
      if Missing(ds, ct) then KeyOf(plain, ct) == 0 else PlainAt(ds, ct, KeyOf(plain, ct))
  {
    PlainTypes(ct);
    RefIs(ds, ct);
    assert PLAIN[..|PLAIN|] == PLAIN;
    var i :| 0 <= i < |PLAIN| && PLAIN[i] == ct;
    assert PlainOk(ds, PLAIN[i]);
    hide PlainOk, FindRef;
  }

  lemma PlainTypes(ct: ContractType)
    ensures ct in PLAIN <==> IsPlain(ct)
  {
    assert PLAIN[0] == AccessControllerProgram && PLAIN[1] == ProposerAccount && PLAIN[2] == ExecutorAccount;
    assert PLAIN[3] == CancellerAccount && PLAIN[4] == BypasserAccount && PLAIN[5] == McmProgram;
    assert PLAIN[6] == TimelockProgram;
  }

  /** A program ID that the program's own ref or an instance of it gives. */
  ghost predicate Gives(ds: DataStore, program: ContractType, instances: set<ContractType>, id: PublicKey) {
    PlainAt(ds, program, id) || exists ct, seed :: ct in instances && InstanceAt(ds, ct, id, seed)
  }

  /** Whatever the order, what a load gives: each of the five other plain types its own
      key, each instance its own seed, and each program the one non-zero ID that its ref
      and its instances give, if any. */
  ghost predicate Loaded(ds: DataStore, addrs: DeployedAddresses) {
    && (forall ct :: IsPlain(ct) && ct != McmProgram && ct != TimelockProgram ==>
          if Missing(ds, ct) then KeyOf(addrs, ct) == 0 else PlainAt(ds, ct, KeyOf(addrs, ct)))
    && (forall ct :: IsInstance(ct) ==>
          if Missing(ds, ct) then ct !in addrs.seeds
          else ct in addrs.seeds && exists id :: InstanceAt(ds, ct, id, addrs.seeds[ct]))
    && (forall id :: id != 0 ==>
          (KeyOf(addrs, McmProgram) == id <==> Gives(ds, McmProgram, {ProposerMcm, CancellerMcm, BypasserMcm}, id)))
    && (forall id :: id != 0 ==>
          (KeyOf(addrs, TimelockProgram) == id <==> Gives(ds, TimelockProgram, {Timelock}, id)))
  }

  /** The key is the one non-zero ID among `pl` and `ids`, zero if there is none. */
  ghost predicate Fixes(key: PublicKey, pl: PublicKey, ids: set<PublicKey>) {
    forall id :: id != 0 ==> (key == id <==> pl == id || id in ids)
  }

  lemma InstancesLoaded(ds: DataStore, plain: DeployedAddresses, order: seq<ContractType>, types: set<ContractType>)
    requires Enumerates(order, types) && plain.seeds == map[]
    requires LoadInstances(plain, ds, order).Some?
    ensures
      var addrs := LoadInstances(plain, ds, order).value;
      && (forall ct :: ct in types ==> !EntryOf(ds, ct).Bad?)
      && (forall ct :: ct != McmProgram ==> KeyOf(addrs, ct) == KeyOf(plain, ct))
      && (forall ct :: ct in addrs.seeds <==> ct in types && EntryOf(ds, ct).Instance?)
      && (forall ct :: ct in addrs.seeds ==> addrs.seeds[ct] == EntryOf(ds, ct).seed)
      && Fixes(KeyOf(addrs, McmProgram), KeyOf(plain, McmProgram), Embedded(ds, types))
  {
    var pl, ids := KeyOf(plain, McmProgram), Ids(ds, order);
    LoadIsFold(plain, ds, order);
    IdsAreEmbedded(ds, order, types);
    FoldKeyOutcome(pl, ids);
    hide EntryOf, LoadInstances, Ids, Embedded, FoldKey;
    var addrs, key := LoadInstances(plain, ds, order).value, FoldKey(pl, ids).value;
    assert addrs == DeployedAddresses(WithKey(plain, ids, key), plain.seeds + Seeds(ds, order));
    assert plain.seeds + Seeds(ds, order) == Seeds(ds, order);
    NoIdsKeep(pl, ids);
    assert KeyOf(addrs, McmProgram) == key;
    forall id | id != 0
      ensures key == id <==> pl == id || id in Embedded(ds, types)
    {
      if id in Embedded(ds, types) {
        var i :| 0 <= i < |ids| && ids[i] == id;
      }
    }
  }

  lemma NoIdsKeep(pl: PublicKey, ids: seq<PublicKey>)
    ensures ids == [] ==> FoldKey(pl, ids) == Some(pl)
  {}

  lemma GivesIs(ds: DataStore, program: ContractType, instances: set<ContractType>, key: PublicKey, id: PublicKey)
    requires if Missing(ds, program) then key == 0 else PlainAt(ds, program, key)
    requires id != 0
    ensures Gives(ds, program, instances, id) <==> key == id || id in Embedded(ds, instances)
  {
    forall ct
      ensures EntryOf(ds, ct).Instance? && EntryOf(ds, ct).programID == id <==>
        exists seed :: InstanceAt(ds, ct, id, seed)
    {
      RefIs(ds, ct);
      hide FindRef;
      if EntryOf(ds, ct).Instance? && EntryOf(ds, ct).programID == id {
        assert EntryOf(ds, ct) == Instance(id, EntryOf(ds, ct).seed);
        assert InstanceAt(ds, ct, id, EntryOf(ds, ct).seed);
      }
    }
    hide EntryOf;
    assert Missing(ds, program) ==> !PlainAt(ds, program, id);
  }

  /** Every successful load, in any order, gives exactly that; and then every ref is
      missing or of its type's form. */
  lemma LoadIs(ds: DataStore, order: seq<ContractType>)
    requires Enumerates(order, {ProposerMcm, CancellerMcm, BypasserMcm}) && Load(ds, order).Some?
    ensures Loaded(ds, Load(ds, order).value)
    ensures forall ct :: (IsPlain(ct) ==> Plain(ds, ct)) && (IsInstance(ct) ==> SeedEncoded(ds, ct))
  {
    var plain, mcms := DeployedAddresses(PlainKeys(ds, |PLAIN|), map[]), {ProposerMcm, CancellerMcm, BypasserMcm};
    var before, addrs := LoadInstances(plain, ds, order).value, Load(ds, order).value;
    InstancesLoaded(ds, plain, order, mcms);
    TimelockLoaded(ds, before, addrs);
    hide FindRef, LoadInstances, PlainKeys, Embedded, EntryOf, Missing, PlainAt, InstanceAt, SeedEncoded, Plain, Gives,
      Load;
    forall ct | IsPlain(ct)
      ensures Plain(ds, ct)
      ensures if Missing(ds, ct) then KeyOf(plain, ct) == 0 else PlainAt(ds, ct, KeyOf(plain, ct))
    {
      PlainKeyIs(ds, ct);
    }
    hide AllPlainOk, KeyOf, LoadInstance, Fixes;
    SeedsLoaded(ds, before, addrs);
    assert KeyOf(addrs, McmProgram) == KeyOf(before, McmProgram);
    assert KeyOf(before, TimelockProgram) == KeyOf(plain, TimelockProgram);
    Given(ds, McmProgram, mcms, KeyOf(plain, McmProgram), KeyOf(addrs, McmProgram));
    Given(ds, TimelockProgram, {Timelock}, KeyOf(plain, TimelockProgram), KeyOf(addrs, TimelockProgram));
  }

  lemma Given(ds: DataStore, program: ContractType, instances: set<ContractType>, pl: PublicKey, key: PublicKey)
    requires if Missing(ds, program) then pl == 0 else PlainAt(ds, program, pl)
    requires Fixes(key, pl, Embedded(ds, instances))
    ensures forall id :: id != 0 ==> (key == id <==> Gives(ds, program, instances, id))
  {
    forall id | id != 0
      ensures key == id <==> Gives(ds, program, instances, id)
    {
      GivesIs(ds, program, instances, pl, id);
    }
  }

  lemma SeedsLoaded(ds: DataStore, before: DeployedAddresses, addrs: DeployedAddresses)
    requires forall ct :: ct in {ProposerMcm, CancellerMcm, BypasserMcm, Timelock} ==> !EntryOf(ds, ct).Bad?
    requires forall ct :: ct in before.seeds <==>
      ct in {ProposerMcm, CancellerMcm, BypasserMcm} && EntryOf(ds, ct).Instance?
    requires forall ct :: ct in before.seeds ==> before.seeds[ct] == EntryOf(ds, ct).seed
    requires addrs.seeds == if EntryOf(ds, Timelock).Instance? then before.seeds[Timelock := EntryOf(ds, Timelock).seed]
                            else before.seeds
    ensures forall ct :: IsInstance(ct) ==>
      && SeedEncoded(ds, ct)
      && if Missing(ds, ct) then ct !in addrs.seeds
         else ct in addrs.seeds && exists id :: InstanceAt(ds, ct, id, addrs.seeds[ct])
  {
    hide EntryOf, Missing, InstanceAt, SeedEncoded;
    forall ct | IsInstance(ct)
      ensures SeedEncoded(ds, ct)
      ensures if Missing(ds, ct) then ct !in addrs.seeds
              else ct in addrs.seeds && exists id :: InstanceAt(ds, ct, id, addrs.seeds[ct])
    {
      RefIs(ds, ct);
      if EntryOf(ds, ct).Instance? {
        assert EntryOf(ds, ct) == Instance(EntryOf(ds, ct).programID, EntryOf(ds, ct).seed);
        assert InstanceAt(ds, ct, EntryOf(ds, ct).programID, EntryOf(ds, ct).seed);
      }
    }
  }

  lemma TimelockLoaded(ds: DataStore, before: DeployedAddresses, addrs: DeployedAddresses)
    requires LoadInstance(before, EntryOf(ds, Timelock), Timelock, TimelockProgram) == Some(addrs)
    ensures !EntryOf(ds, Timelock).Bad?
    ensures forall ct :: ct != TimelockProgram ==> KeyOf(addrs, ct) == KeyOf(before, ct)
    ensures Fixes(KeyOf(addrs, TimelockProgram), KeyOf(before, TimelockProgram), Embedded(ds, {Timelock}))
    ensures addrs.seeds == if EntryOf(ds, Timelock).Instance? then before.seeds[Timelock := EntryOf(ds, Timelock).seed]
                           else before.seeds
  {
    var e := EntryOf(ds, Timelock);
    assert Embedded(ds, {Timelock}) == if e.Instance? then {e.programID} else {};
    hide EntryOf, Embedded;
  }

  const ZERO_FIRST := [ProposerMcm, CancellerMcm, BypasserMcm]
  const ZERO_LAST := [CancellerMcm, ProposerMcm, BypasserMcm]

  /** A datastore whose loading depends on the order: one embedded program ID is zero,
      another is not, and there is no program-level ref. */
  lemma ZeroIDDependsOnOrder(ds: DataStore)
    requires ds == map[ProposerMcm := [Seeded(0, 1)], CancellerMcm := [Seeded(5, 2)]]
    ensures Enumerates(ZERO_FIRST, INSTANCES) && Enumerates(ZERO_LAST, INSTANCES)
    ensures Load(ds, ZERO_FIRST).Some? && Load(ds, ZERO_LAST) == None
  {
    assert forall i :: 0 <= i < |PLAIN| ==> FindRef(ds, PLAIN[i]) == Success(Empty);
    assert PlainKeys(ds, |PLAIN|) == map[];
    assert EntryOf(ds, Timelock) == Absent;
    var p, c, b := ProposerMcm, CancellerMcm, BypasserMcm;
    assert EntryOf(ds, p) == Instance(0, 1) && EntryOf(ds, c) == Instance(5, 2) && EntryOf(ds, b) == Absent;
    VisitThree(ds, p, c, b);
    VisitThree(ds, c, p, b);
    hide EntryOf, LoadInstances, FindRef;
  }

  lemma VisitThree(ds: DataStore, x: ContractType, y: ContractType, z: ContractType)
    ensures LoadInstances(NONE_DEPLOYED, ds, [x, y, z]) ==
      match LoadInstance(NONE_DEPLOYED, EntryOf(ds, x), x, McmProgram)
      case None => None
      case Some(a) =>
        match LoadInstance(a, EntryOf(ds, y), y, McmProgram)
        case None => None
        case Some(a') => LoadInstance(a', EntryOf(ds, z), z, McmProgram)
  {
    hide LoadInstances, LoadInstance, EntryOf;
    VisitOne(NONE_DEPLOYED, ds, [], x);
    VisitOne(NONE_DEPLOYED, ds, [x], y);
    VisitOne(NONE_DEPLOYED, ds, [x, y], z);
    assert [] + [x] == [x] && [x] + [y] == [x, y] && [x, y] + [z] == [x, y, z];
  }

  lemma VisitOne(addrs: DeployedAddresses, ds: DataStore, order: seq<ContractType>, last: ContractType)
    ensures LoadInstances(addrs, ds, []) == Some(addrs)
    ensures LoadInstances(addrs, ds, order + [last]) ==
      match LoadInstances(addrs, ds, order)
      case None => None
      case Some(a) => LoadInstance(a, EntryOf(ds, last), last, McmProgram)
  {
    assert (order + [last])[..|order|] == order;
  }
}
