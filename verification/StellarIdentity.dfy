/** Deterministic Stellar deployment addresses: the salt preimage, the abstract
    contract ID and the probe over salt attempts. */
module StellarIdentity {
  import opened Wrappers
  import Text

  const DEPLOYMENT_SALT_DOMAIN := "chainlink:stellar:mcms"
  const VERSION := "1.0.0"
  const MAX_DEPLOYMENT_SALT_ATTEMPTS: nat := 1024

  /** SHA-256 and the contract-ID hash are injective abstract functions: the
      datatype constructors `Sha256`, `WasmHash` and `Contract`. */
  datatype Salt = Sha256(preimage: string)
  datatype WasmHash = WasmHash(wasm: seq<nat>)

  /** `NoAddress` is the empty address string. */
  datatype Address =
    | NoAddress
    | Account(key: string)
    | Contract(network: string, deployer: string, salt: Salt)

  /** `valid` stands for the verdict of the multisig library's own validation,
      which is not part of this model. */
  datatype Config = Config(id: nat, valid: bool)

  datatype Roles = Roles(minDelay: nat, proposers: set<Address>, cancellers: set<Address>, bypassers: set<Address>)

  /** One contract instance. `code` is None for a built-in (non-WASM) executable;
      `owner` is None until a multisig is initialised, `roles` until a timelock is. */
  datatype Instance = Instance(code: Option<WasmHash>, owner: Option<Address>, config: Config, root: nat,
                               roles: Option<Roles>)

  type Ledger = map<Address, Instance>

  /** What fixes a probe sequence. */
  datatype Site = Site(network: string, deployer: string, contractType: string, qualifier: string)

  // ----- salt preimage

  function SaltPreimage(contractType: string, qualifier: string, attempt: nat): string {
    var input := DEPLOYMENT_SALT_DOMAIN + ":" + contractType + ":" + qualifier + ":" + VERSION;
    if attempt > 0 then input + ":" + Text.Decimal(attempt) else input
  }

  function DeriveDeploymentSalt(contractType: string, qualifier: string, attempt: nat): Salt {
    Sha256(SaltPreimage(contractType, qualifier, attempt))
  }

  function Slot(site: Site, attempt: nat): Address {
    Contract(site.network, site.deployer, DeriveDeploymentSalt(site.contractType, site.qualifier, attempt))
  }

  /** The text that is hashed: the version ends it, or the attempt as a numeral. */
  lemma PreimageIs(contractType: string, qualifier: string, attempt: nat)
    ensures
      var text := SaltPreimage(contractType, qualifier, attempt);
      var base := "chainlink:stellar:mcms:" + contractType + ":" + qualifier + ":1.0.0";
      if attempt == 0 then text == base
      else
        && |text| > |base| + 1 && text[..|base| + 1] == base + ":"
        && Text.IsDigits(text[|base| + 1..]) && Text.NumberOf(text[|base| + 1..]) == attempt
        && text[|base| + 1] != '0'
  {
    var base := "chainlink:stellar:mcms:" + contractType + ":" + qualifier + ":1.0.0";
    assert DEPLOYMENT_SALT_DOMAIN + ":" == "chainlink:stellar:mcms:";
    assert qualifier + (":" + VERSION) == qualifier + ":1.0.0";
    assert SaltPreimage(contractType, qualifier, 0) == base;
    Text.DecimalIsDigits(attempt);
    Text.DecimalReadsBack(attempt);
    if attempt > 0 {
      var text := SaltPreimage(contractType, qualifier, attempt);
      assert text == base + ":" + Text.Decimal(attempt);
      assert text[|base| + 1..] == Text.Decimal(attempt);
    }
  }

  /** The preimage without its constant head: everything after the domain. */
  function Tail(qualifier: string, attempt: nat): string {
    if attempt > 0 then (qualifier + ":" + VERSION) + ":" + Text.Decimal(attempt) else qualifier + ":" + VERSION
  }

  lemma PreimageShape(contractType: string, qualifier: string, attempt: nat)
    ensures SaltPreimage(contractType, qualifier, attempt)
         == (DEPLOYMENT_SALT_DOMAIN + ":") + (contractType + ":" + Tail(qualifier, attempt))
  {
    var head, version := DEPLOYMENT_SALT_DOMAIN + ":", ":" + VERSION;
    assert head + contractType + ":" + qualifier + version == head + (contractType + ":" + (qualifier + version));
  }

  lemma PreimageTailsAgree(t: string, q: string, a: nat, t': string, q': string, a': nat)
    requires SaltPreimage(t, q, a) == SaltPreimage(t', q', a')
    ensures t + ":" + Tail(q, a) == t' + ":" + Tail(q', a')
  {
    PreimageShape(t, q, a);
    PreimageShape(t', q', a');
    var head := DEPLOYMENT_SALT_DOMAIN + ":";
    assert SaltPreimage(t, q, a)[|head|..] == t + ":" + Tail(q, a);
    assert SaltPreimage(t', q', a')[|head|..] == t' + ":" + Tail(q', a');
  }

  /** Qualifier and attempt can be read back, colons in the qualifier or not:
      the last part is a version with dots or a numeral without. */
  lemma TailInjective(q: string, a: nat, q': string, a': nat)
    requires Tail(q, a) == Tail(q', a')
    ensures q == q' && a == a'
  {
    Text.DecimalIsDigits(a);
    Text.DecimalIsDigits(a');
    var x, y := if a > 0 then q + ":" + VERSION else q, if a > 0 then Text.Decimal(a) else VERSION;
    var x', y' := if a' > 0 then q' + ":" + VERSION else q', if a' > 0 then Text.Decimal(a') else VERSION;
    assert Tail(q, a) == x + [':'] + y && Tail(q', a') == x' + [':'] + y';
    Text.LastPartUnique(x, y, x', y', ':');
    assert VERSION[1] == '.';
    if a > 0 && a' > 0 {
      Text.DecimalInjective(a, a');
      assert x[..|q|] == q && x'[..|q'|] == q';
    }
  }

  /** `t` followed by a colon opens `t'`. */
  predicate ColonPrefix(t: string, t': string) {
    t + ":" <= t'
  }

  /** Two contract types share a preimage for some qualifiers and attempts
      exactly when one continues the other past a colon. */
  lemma TypesCollideIff(t: string, t': string)
    requires t != t'
    ensures (exists q, a: nat, q', a': nat :: SaltPreimage(t, q, a) == SaltPreimage(t', q', a'))
       <==> ColonPrefix(t, t') || ColonPrefix(t', t)
  {
    forall q, a: nat, q', a': nat | SaltPreimage(t, q, a) == SaltPreimage(t', q', a')
      ensures ColonPrefix(t, t') || ColonPrefix(t', t)
    {
      PreimageTailsAgree(t, q, a, t', q', a');
      var s := t + ":" + Tail(q, a);
      assert s[..|t|] == t && s[|t|] == ':' && s[..|t'|] == t' && s[|t'|] == ':';
    }
    if ColonPrefix(t, t') {
      CollisionWitness(t, t');
    } else if ColonPrefix(t', t) {
      CollisionWitness(t', t);
    }
  }

  lemma CollisionWitness(t: string, t': string)
    requires ColonPrefix(t, t')
    ensures SaltPreimage(t, t'[|t| + 1..] + ":" + "", 0) == SaltPreimage(t', "", 0)
  {
    var r := t'[|t| + 1..];
    assert t' == t + ":" + r;
    PreimageShape(t, r + ":" + "", 0);
    PreimageShape(t', "", 0);
    assert t + ":" + (r + ":" + "" + ":" + VERSION) == t' + ":" + ("" + ":" + VERSION);
  }

  /** The preimage is injective on colon-free contract types, any qualifier, any attempt. */
  lemma PreimageInjective(t: string, q: string, a: nat, t': string, q': string, a': nat)
    requires ':' !in t && ':' !in t'
    ensures SaltPreimage(t, q, a) == SaltPreimage(t', q', a') <==> t == t' && q == q' && a == a'
  {
    if SaltPreimage(t, q, a) == SaltPreimage(t', q', a') {
      PreimageTailsAgree(t, q, a, t', q', a');
      assert t + [':'] + Tail(q, a) == t' + [':'] + Tail(q', a');
      Text.FirstPartUnique(t, Tail(q, a), t', Tail(q', a'), ':');
      TailInjective(q, a, q', a');
    }
  }

  /** Hence probe sequences of different identities never meet. */
  lemma SlotInjective(site: Site, a: nat, site': Site, a': nat)
    requires ':' !in site.contractType && ':' !in site'.contractType
    ensures Slot(site, a) == Slot(site', a') <==> site == site' && a == a'
  {
    PreimageInjective(site.contractType, site.qualifier, a, site'.contractType, site'.qualifier, a');
  }

  // ----- resolution

  predicate Foreign(ledger: Ledger, id: Address, hash: WasmHash) {
    id in ledger && ledger[id].code != Some(hash)
  }

  /** The least attempt from `from` on whose slot is not foreign, or the maximum. */
  function FirstOpen(ledger: Ledger, site: Site, hash: WasmHash, from: nat): (k: nat)
    requires from <= MAX_DEPLOYMENT_SALT_ATTEMPTS
    ensures from <= k <= MAX_DEPLOYMENT_SALT_ATTEMPTS
    ensures forall a: nat :: from <= a < k ==> Foreign(ledger, Slot(site, a), hash)
    ensures k < MAX_DEPLOYMENT_SALT_ATTEMPTS ==> !Foreign(ledger, Slot(site, k), hash)
    decreases MAX_DEPLOYMENT_SALT_ATTEMPTS - from
  {
    if from == MAX_DEPLOYMENT_SALT_ATTEMPTS || !Foreign(ledger, Slot(site, from), hash) then from
    else FirstOpen(ledger, site, hash, from + 1)
  }

  function Resolved(ledger: Ledger, site: Site, hash: WasmHash): nat {
    FirstOpen(ledger, site, hash, 0)
  }

  /** The four properties that pin the resolved attempt down. */
  lemma ResolvedIs(ledger: Ledger, site: Site, hash: WasmHash, k: nat)
    requires k <= MAX_DEPLOYMENT_SALT_ATTEMPTS
    requires forall a: nat :: a < k ==> Foreign(ledger, Slot(site, a), hash)
    requires k < MAX_DEPLOYMENT_SALT_ATTEMPTS ==> !Foreign(ledger, Slot(site, k), hash)
    ensures Resolved(ledger, site, hash) == k
  {}

  /** The ledger has at most grown: contracts keep their code. */
  predicate KeepsCode(before: Ledger, after: Ledger) {
    forall id :: id in before ==> id in after && after[id].code == before[id].code
  }

  /** Under growth the resolved attempt never moves back, and it moves exactly
      when someone else's code landed on the resolved slot. */
  lemma ResolutionUnderGrowth(before: Ledger, after: Ledger, site: Site, hash: WasmHash)
    requires KeepsCode(before, after)
    ensures
      var k, k' := Resolved(before, site, hash), Resolved(after, site, hash);
      && k <= k'
      && (k' == k <==> k == MAX_DEPLOYMENT_SALT_ATTEMPTS || !Foreign(after, Slot(site, k), hash))
  {
    var k, k' := Resolved(before, site, hash), Resolved(after, site, hash);
    forall a: nat | a < k
      ensures Foreign(after, Slot(site, a), hash)
    {
      assert Foreign(before, Slot(site, a), hash);
    }
    if k < k' {
      assert Foreign(after, Slot(site, k), hash);
    }
  }

  /** Resolve, deploy, resolve: once the expected code is deployed at a resolved
      free slot, resolution stays there, as an existing contract, forever. */
  lemma ResolveDeployResolve(before: Ledger, after: Ledger, site: Site, hash: WasmHash, deployed: Instance)
    requires Resolved(before, site, hash) < MAX_DEPLOYMENT_SALT_ATTEMPTS
    requires deployed.code == Some(hash)
    requires
      var id := Slot(site, Resolved(before, site, hash));
      id !in before && KeepsCode(before[id := deployed], after)
    ensures
      var k := Resolved(before, site, hash);
      Resolved(after, site, hash) == k && Slot(site, k) in after
  {
    var k := Resolved(before, site, hash);
    var mid := before[Slot(site, k) := deployed];
    ResolutionUnderGrowth(before, mid, site, hash);
    ResolutionUnderGrowth(mid, after, site, hash);
  }

  // ----- the probe loop

  datatype ResolveError = InvalidInput | MalformedDeployer | Unreadable(attempt: nat) | Exhausted

  datatype Identity = Identity(salt: Salt, contractID: Address, attempt: nat, existing: bool)

  /** A ledger reader; a query for an address in `unreadable` fails (RPC error or
      malformed response). */
  datatype Reader = Reader(ledger: Ledger, unreadable: set<Address>)

  datatype InstanceIdentity = Absent | NotWasm | Wasm(hash: WasmHash)

  function ReadContractInstanceIdentity(reader: Reader, id: Address): Option<InstanceIdentity> {
    if id in reader.unreadable then None
    else if id !in reader.ledger then Some(Absent)
    else match reader.ledger[id].code
         case None => Some(NotWasm)
         case Some(hash) => Some(Wasm(hash))
  }

  /** `deployerDecodes` says whether the signer address is a well-formed account. */
  function ComputeContractID(network: string, deployer: string, deployerDecodes: bool, salt: Salt)
    : Result<Address, ResolveError>
  {
    if network == "" || deployer == "" then Failure(InvalidInput)
    else if !deployerDecodes then Failure(MalformedDeployer)
    else Success(Contract(network, deployer, salt))
  }

  predicate ReadsForeign(reader: Reader, site: Site, hash: WasmHash, attempt: nat) {
    Slot(site, attempt) !in reader.unreadable && Foreign(reader.ledger, Slot(site, attempt), hash)
  }

  method ResolveDeploymentIdentity(reader: Option<Reader>, network: string, deployer: string, deployerDecodes: bool,
                                   contractType: string, qualifier: string, wasm: seq<nat>)
    returns (r: Result<Identity, ResolveError>)
    ensures r == Failure(InvalidInput)
       <==> reader.None? || network == "" || deployer == "" || contractType == "" || wasm == []
    ensures r == Failure(MalformedDeployer) <==> r != Failure(InvalidInput) && !deployerDecodes
    ensures r.Success? ==> reader.Some? && deployerDecodes
    // the least attempt that is absent or holds the expected code
    ensures r.Success? ==>
      var site, hash, k := Site(network, deployer, contractType, qualifier), WasmHash(wasm), r.value.attempt;
      && k == Resolved(reader.value.ledger, site, hash) < 1024
      && (forall a: nat :: a < k ==> ReadsForeign(reader.value, site, hash, a))
      && r.value.contractID == Slot(site, k) == Contract(network, deployer, r.value.salt)
      && Slot(site, k) !in reader.value.unreadable
      && (if r.value.existing
          then Slot(site, k) in reader.value.ledger && reader.value.ledger[Slot(site, k)].code == Some(hash)
          else Slot(site, k) !in reader.value.ledger)
    ensures r.Failure? && r.error.Unreadable? ==>
      var site, hash := Site(network, deployer, contractType, qualifier), WasmHash(wasm);
      && reader.Some? && r.error.attempt < 1024
      && Slot(site, r.error.attempt) in reader.value.unreadable
      && forall a: nat :: a < r.error.attempt ==> ReadsForeign(reader.value, site, hash, a)
    // it gives up exactly when it has read foreign contracts at all 1024 slots
    ensures reader.Some? && deployerDecodes && r != Failure(InvalidInput) ==>
      (r == Failure(Exhausted) <==>
         forall a: nat :: a < 1024 ==>
           ReadsForeign(reader.value, Site(network, deployer, contractType, qualifier), WasmHash(wasm), a))
  {
    if reader.None? || network == "" || deployer == "" || contractType == "" || |wasm| == 0 {
      return Failure(InvalidInput);
    }
    var expected := WasmHash(wasm);
    ghost var site := Site(network, deployer, contractType, qualifier);
    var attempt: nat := 0;
    while attempt < MAX_DEPLOYMENT_SALT_ATTEMPTS
      invariant attempt <= MAX_DEPLOYMENT_SALT_ATTEMPTS
      invariant attempt > 0 ==> deployerDecodes
      invariant forall a: nat :: a < attempt ==> ReadsForeign(reader.value, site, expected, a)
      invariant forall a: nat :: a < attempt ==> Foreign(reader.value.ledger, Slot(site, a), expected)
    {
      var salt := DeriveDeploymentSalt(contractType, qualifier, attempt);
      var computed := ComputeContractID(network, deployer, deployerDecodes, salt);
      if computed.Failure? {
        return Failure(computed.error);
      }
      var contractID := computed.value;
      assert contractID == Slot(site, attempt);
      var instance := ReadContractInstanceIdentity(reader.value, contractID);
      if instance.None? {
        assert !ReadsForeign(reader.value, site, expected, attempt);
        return Failure(Unreadable(attempt));
      }
      assert instance.value.Absent? || instance.value == Wasm(expected) ==>
        !ReadsForeign(reader.value, site, expected, attempt);
      if instance.value.Absent? {
        ResolvedIs(reader.value.ledger, site, expected, attempt);
        return Success(Identity(salt, contractID, attempt, false));
      }
      if instance.value == Wasm(expected) {
        ResolvedIs(reader.value.ledger, site, expected, attempt);
        return Success(Identity(salt, contractID, attempt, true));
      }
      attempt := attempt + 1;
    }
    return Failure(Exhausted);
  }
}
