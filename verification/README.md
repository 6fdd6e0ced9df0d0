# Deployment changesets: models and proofs

The repository deploys and wires MCMS contracts on several chain families: multisigs
that hold a signer config, timelocks with role tables, call proxies, and two-step
hand-over of ownership. Its guarantees have to survive kills, re-runs and the split
between "send now" and "propose now, execute later". This project models four of its
state machines over small abstract ledgers and proves those guarantees.

Every step-by-step operation of the code is written twice: as an imperative method,
mostly of a class whose fields are the ledger, the report store and the local
variables the code passes by reference, and as a pure function of the old state.
Each method's contract equates the two; the theorems are about the functions.

| files | what they cover |
|---|---|
| `StellarIdentity`, `StellarDeploy`, `StellarSequence`, `StellarRecovery` | deterministic deployment by probing, adoption and repair; any run over any datastore; crash recovery |
| `StellarSetConfig` | set-config sent directly or proposed |
| `EvmTransferToTimelock`, `EvmGrantRole`, `EvmGrantLog` | ownership transfer and role grants, sent directly or proposed; their calls, failures and reports |
| `EvmDeploy`, `EvmDeployOutcome`, `EvmDeployLog`, `EvmDeployAgain` | the fixed topology: resume from any subset over any old reports, transactions sent with their arguments, fixed point |
| `Sequences` | the report of a whole sequence |
| `SolanaAddresses`, `EvmStateLoader` | loaders that range over Go maps |
| `Topology`, `TopologyRun`, `TopologySession` | custom topology: validation, keys, one run as a list of commands and as the code's loops |
| `TopologyResume`, `TopologyOutcome`, `TopologyProgram` | interrupted runs over one report store come out as one run |
| `TopologyEffect`, `TopologyResult`, `TopologyDeployed`, `TopologyProgress` | what a completed run leaves; that it is what the configuration asks for; when a run completes |
| `TopologyRouting`, `TopologyConservation`, `TopologyMisrouting` | routing accept batches to proposals, and when it goes wrong |
| `TopologyApply`, `TopologyStored`, `TopologyChangeset`, `TopologyEndToEnd`, `TopologyCompletion` | all chains, from the changeset to executed proposals; a series can always be completed |
| `TopologyNecessity` | the conditions on claims and owners are exact |

How a custom topology proof goes: a run is a flat list of commands, each taking at most
one memoised operation. `TopologyResume.RunAgain` shows that a run killed anywhere and
repeated equals one run with both budgets, because every command already performed is
settled and nothing later unsettles it. `TopologyProgram.SeriesIsOneRun` lifts this to
series, `TopologyResult.RunOutcome` computes what one run leaves, `TopologyApply` shows
that each chain sees of a series of changesets only a series of its own runs, and
`TopologyEndToEnd.EndToEnd` executes the routed proposals on the result. What it asks of
claims and owners is needed as well (`TopologyNecessity.HandOverIff`).

## Assumptions

- SHA-256 and contract-ID derivation are injective.
- The operations framework is a memo table keyed by definition, input and idempotency
  key; performing an operation and recording its report is one atomic step; a failed
  operation leaves neither effect nor report. Where the code gives no idempotency key
  the definition and the input are the key.
- The outermost sequence of a changeset is memoised in the same way (`Sequences`), by an
  input that holds datastore refs where the code's does. The theorems on repeated runs
  cover both the case that its report is still there and the case that it is not; in the
  custom topology the two come to the same (`TopologyStored.StoredSeriesAgrees`).
- Reports are true records: what one says was deployed is on the chain, and contracts of
  different kinds, and timelocks deployed with different arguments, are different contracts. What a report says was granted, configured or
  transferred may have been undone since, and contracts handed to other owners, except in
  the custom topology, whose series start from a store that knows nothing about the chain.
- Merging sequence outputs appends them.
- A kill, and a read that fails for reasons outside the ledger, stops a run before its
  next write. A `budget` counts the writes (Stellar) or operations (custom topology) a
  run still gets, so all theorems hold for a stop at any point.
- New EVM contracts take fresh, increasing addresses, never the zero address. Addresses
  are opaque values with equality; in key strings only that their text is injective and
  free of colons is used.
- The generated write operations send a transaction only when the deployer is entitled to
  it, and otherwise return it unsent, without an error. Setting a multisig's config is not
  one of them: it is sent in any case, and fails where the sender is not the owner.
- The framework's duplicate check, which is not part of the repository, is taken to count
  entries as one contract when type, version and the exact set of labels agree
  (`EvmStateLoader.Deduped`).
- A timelock executes a batch of accept calls as a whole, or not at all.

## Findings

Each is a theorem; the properties hold exactly under the stated conditions. Where the
code fails, a lemma gives an accepted input for which it does.

- Salt preimages: two contract types collide for some qualifier and attempt exactly when
  one extends the other by a colon and more (`TypesCollideIff`). The types in use have
  no colon.
- Stellar set-config: both modes agree on every ledger exactly when no address is asked
  for two different configs (`ModesAgreeIff`). A second proposed run over old reports
  emits the old calls again unless everything was up to date from the start
  (`SecondProposalQuietIff`, `SecondProposalRepeats`). Over old reports, the sequence's
  own included, sending leaves every target as requested exactly under the condition of
  `DirectRequestedIff`, and so does proposing and executing under that of
  `ProposedRequestedIff`: one config, then another, then the first again leaves the other
  (`ConfigReverts`).
- EVM transfer-to-timelock: an old report for the same contract and timelock suppresses
  the transfer, and then the batch cannot be executed (`HandsOverIff`,
  `StaleReportBreaks`). Answered from the sequence's own report, a repeated run returns
  its old accepts, which then fail (`RepeatedRunIff`); and a ref that stands for another
  contract by now is answered for the old one (`SequenceHandsOverIff`,
  `RepointedRefBreaks`).
- EVM grant-role: likewise a stale report suppresses a direct grant
  (`SequenceGrantsAllIff`, `StaleGrantLost`), and the sequence's own report a proposed one
  (`SequenceProposesAllIff`, `StaleProposalLost`).
- EVM fixed topology: apart from ambiguous refs and an unreadable timelock, a run fails
  exactly when the reported multisig of a missing kind is no longer the deployer's and its
  config is unreported (`RunOutcome`, `HandedOverRejects`). When it succeeds, a new
  multisig has its config, and an old timelock its wiring, exactly when no stale report
  stands in for a transaction (`RunOutcome`). Over kept reports with the datastore lost a
  config can revert (`ConfigReverts`), and a revoked role stays revoked
  (`RevokedStaysRevoked`).
- Solana instance loading depends on the order exactly when all refs decode and zero
  program IDs are the only ones to disagree (`OrderIndependentIff`,
  `ZeroIDDependsOnOrder`).
- EVM state loading is order independent exactly when the entries that compete for a
  field hold one address (`OrderIndependentIff`). The duplicate check ensures that where
  all labels are as the bundle has them (`DedupedSuffices`), and not otherwise
  (`AcceptedButOrderDependent`).
- Custom topology: the reverse lookup by qualifier and type ends up at the first MCM of
  the chain that shares both (`LookupIs`, `LookupFindsIff`). So a batch goes to the
  proposal of every qualifier for which a lookup ends up at one of its contracts, whether
  that qualifier asked for the contract or not (`BelongsIff`), and to none if all its
  contracts are shadowed by earlier MCMs alike (`KeptIff`). Every batch goes to its own
  timelock's proposal and no other exactly when `RoutesOwn` holds of every chain's
  configuration and starting contracts (`HomeIff`); unique qualifiers and types suffice
  (`UniqueMcmsSuffice`). Two MCMs alike, which validation accepts, send one batch to two
  proposals and lose another (`AlikeMcmsMisroute`). A completed run can be carried
  through, by whatever accept calls, exactly when no contract is named by two timelocks
  and every contract named by address is the deployer's (`HandOverIff`); validation asks
  for neither. A validated configuration without a
  proposal input never emits a batch, so the changeset's final check for that never
  fires (`MissingInputNeverSeen`).

## Model

| member | source | states |
|---|---|---|
| StellarIdentity.PreimageIs | mcms/stellar/deploy/identity.go:41-55 | the hashed text: domain, type, qualifier and version joined by colons, followed from the second attempt on by the attempt as a numeral that reads back |
| StellarIdentity.PreimageInjective | mcms/stellar/deploy/identity.go:41-55 | for colon-free contract types the salt preimage determines type, qualifier and attempt, attempt 0 included, whatever colons the qualifier has |
| StellarIdentity.TypesCollideIff | mcms/stellar/deploy/identity.go:41-55 | without that restriction, exactly which pairs of types can collide |
| StellarIdentity.SlotInjective | mcms/stellar/deploy/identity.go:41-100 | probe sequences of different identities under one deployer are disjoint |
| StellarIdentity.ResolveDeploymentIdentity | mcms/stellar/deploy/identity.go:102-175 | the probing loop: least attempt whose slot is absent or holds the expected code, everything before it read and foreign; `existing` exactly when occupied; it gives up exactly when it has read foreign contracts at all 1024 slots; reader and encoding failures |
| StellarIdentity.ResolutionUnderGrowth | mcms/stellar/deploy/identity.go:129-167 | on a grown ledger the resolved attempt never moves back, and it moves exactly when foreign code landed on the resolved slot |
| StellarIdentity.ResolveDeployResolve | mcms/stellar/deploy/identity.go:129-167 | after deploying at a resolved free slot, and any growth that keeps the probed slots, resolution returns the same attempt, now existing |
| StellarDeploy.DeployMCMOutcome | mcms/stellar/deploy/operations.go:38-197 | from every ledger: success exactly on configurable slots; the contract is then initialised with the signer as owner, left as it was, or repaired with the root cleared, and no other contract changes; a call that fails leaves at most a bare contract |
| StellarDeploy.DeployTimelockOutcome | mcms/stellar/deploy/operations.go:218-337 | likewise for the timelock: one with roles is adopted as it is, any other gets the requested delay, the proposer as proposer, all three as cancellers and the bypasser as bypasser |
| StellarDeploy.ForeignOwnerIff | mcms/stellar/deploy/operations.go:85-197 | the foreign-owner error occurs exactly on a config mismatch under another owner, and leaves the ledger as it was |
| StellarDeploy.RepeatedDeployMCM | mcms/stellar/deploy/operations.go:38-197 | a repeat after success writes nothing and returns the same ref |
| StellarDeploy.ValidateTimelockRoleAddresses | mcms/stellar/deploy/initialize.go:152-177 | accepts exactly lists without empty or repeated addresses |
| StellarDeploy.ValidateDistinctMCMs | mcms/stellar/deploy/sequence.go:241-270 | fails exactly when two of the three refs share an address, naming such a pair |
| StellarDeploy.Session.DeployStellarMCM | mcms/stellar/deploy/operations.go:38-197 | the imperative operation equals the specification function, ledger, budget and result |
| StellarDeploy.Session.DeployStellarTimelock | mcms/stellar/deploy/operations.go:218-337 | likewise for the timelock, with adoption and initialisation |
| StellarDeploy.Session.DeployMCMSWithTimelock | mcms/stellar/deploy/sequence.go:26-223 | likewise for the sequence over datastore, reports and ledger |
| StellarSequence.RunOutcome | mcms/stellar/deploy/sequence.go:26-127 | any run, over any ledger, datastore and reports: when it completes; the refs it returns, exactly those not in the datastore, in order; each new contract as its operation leaves it, the timelock's roles being for the multisigs that the datastore, a report or the run itself gives; shared addresses fail without touching the timelock; nothing else changes |
| StellarSequence.OnlyTheTimelock | mcms/stellar/deploy/sequence.go:95-127 | for instance with the multisigs p, c and b in the datastore: one ref, and a timelock with the requested delay and the roles {p}, {p,c,b}, {b} |
| StellarRecovery.HomesApart | mcms/stellar/deploy/sequence.go:26-127 | the four contracts never compete for a slot |
| StellarRecovery.RunPart | mcms/stellar/deploy/sequence.go:26-127 | from any state of a series a run keeps the invariant, never fails, completes with eight writes, and writes nothing when all is finished |
| StellarRecovery.CrashRecovery | mcms/stellar/deploy/sequence.go:26-127 | after any series of runs killed after any write, with strangers deploying in between and any reports lost or kept, the sequence's own included, a run left alone returns four distinct refs: MCMs with their configs, timelock tables exactly {P}, {P,C,B}, {B} |
| StellarRecovery.CompletedRunIsFixedPoint | mcms/changesets/deploy/changeset.go:70-95 | repeated, with or without its metadata, a completed run writes nothing; over the merged datastore it returns the old refs if the sequence's report is still there and none otherwise, and merging them changes nothing |
| StellarSetConfig.Session.SetStellarMCMConfig | mcms/stellar/set-config/operation.go:44-184 | the skip, send or propose decision equals the specification function |
| StellarSetConfig.Session.RunStellarSetConfig | mcms/stellar/set-config/sequence.go:25-75 | the loop over targets equals the specification function, stopping at the first failure |
| StellarSetConfig.Session.SetConfigTargets | mcms/stellar/set-config/sequence.go:76-101 | resolves all refs in order, or fails exactly when one is missing or malformed |
| StellarSetConfig.Session.ExecuteSetConfig | mcms/stellar/set-config/sequence.go:18-75 | the memoised sequence, resolution included, equals the specification function |
| StellarSetConfig.CallOutcome | mcms/stellar/set-config/operation.go:44-184 | one call: a direct one succeeds exactly on a well-formed target on the ledger that is the sender's or up to date, and leaves it up to date; a failed one changes nothing; a proposing one returns a call exactly for targets not up to date |
| StellarSetConfig.RunOutcome | mcms/stellar/set-config/sequence.go:25-75 | any run in either mode over any reports: it succeeds exactly when every target is reported or its call succeeds; the calls, ledger and reports it leaves; a failed run leaves exactly what the targets before the failing one leave |
| StellarSetConfig.SequenceOutcome | mcms/stellar/set-config/sequence.go:18-75 | the same for the sequence: answered from its report it does nothing, a ref that does not resolve fails it, and only a success is recorded |
| StellarSetConfig.ConsistentTargetsAgree | mcms/stellar/set-config/operation.go:79-183 | for targets with consistent configs on fresh reports, sending as their owner and having their owner execute the proposal reach the same ledger: each target's config as requested and root clear, every other contract as it was |
| StellarSetConfig.ModesAgreeIff | mcms/stellar/set-config/operation.go:79-183 | the two modes agree on every ledger exactly when no address is asked for two configs |
| StellarSetConfig.SecondRunQuiet | mcms/stellar/set-config/operation.go:79-183 | on a ledger that has what is requested, a run without old reports writes and emits nothing |
| StellarSetConfig.SecondProposalQuietIff | mcms/stellar/set-config/sequence.go:46-74 | after propose and execute, a second proposed run is quiet exactly when the operations' and the sequence's reports are gone or nothing was stale from the start |
| StellarSetConfig.SecondProposalRepeats | mcms/stellar/set-config/sequence.go:46-74 | a contract for which the call is emitted again |
| StellarSetConfig.DirectRequestedIff | mcms/stellar/set-config/sequence.go:25-75 | over any old reports, the sequence's own included, sending leaves every target as requested exactly when each was up to date, or the sequence is unreported and some target for the same contract is |
| StellarSetConfig.ProposedRequestedIff | mcms/stellar/set-config/sequence.go:25-75 | over any true operation reports and any report of the sequence, proposing and executing: when the batch goes through, and exactly when it leaves every target as requested |
| StellarSetConfig.ConfigReverts | mcms/stellar/set-config/sequence.go:25-75 | one config, another, the first again over kept reports leaves the other, with or without the sequences' own reports |
| Ownership.AcceptsOutcome | mcms/evm/transfer-to-timelock/sequence.go:95-131 | accept calls on distinct targets go through exactly when each target awaits its caller; they hand over exactly those, in whatever order |
| EvmTransferToTimelock.ResolveIs | mcms/evm/transfer-to-timelock/addresses.go:12-30 | a ref resolves exactly when it is for this chain or for none, has a version, and is in the datastore under this chain with a non-zero address |
| EvmTransferToTimelock.ValidateContracts | mcms/evm/transfer-to-timelock/validate.go:42-103 | accepts exactly input whose refs and resolved addresses are distinct, resolvable and owned as the mode asks |
| EvmTransferToTimelock.Session.TransferContractToTimelock | mcms/evm/transfer-to-timelock/sequence.go:75-131 | read, transfer, re-read and accept equal the specification function |
| EvmTransferToTimelock.Session.RunTransferToTimelock | mcms/evm/transfer-to-timelock/sequence.go:29-73 | the sequence, resolving each ref when its turn comes, equals the specification function |
| EvmTransferToTimelock.TransferAllOutcome | mcms/evm/transfer-to-timelock/sequence.go:49-131 | each contract takes one transfer step, repeats included; the batch is one accept, in input order, for each contract the timelock does not own afterwards; exactly the operations performed are reported |
| EvmTransferToTimelock.RunOutcome | mcms/evm/transfer-to-timelock/sequence.go:29-131 | any run over any refs and reports: it succeeds exactly when all refs resolve to readable contracts, and otherwise has done exactly what it does for those before the first that does not |
| EvmTransferToTimelock.SequenceRuns | mcms/evm/transfer-to-timelock/sequence.go:22-73 | answered from its report the sequence does nothing; only a success is recorded |
| EvmTransferToTimelock.HandsOverIff | mcms/evm/transfer-to-timelock/sequence.go:75-131 | over any operation reports, run and batch leave all contracts with the timelock exactly when each is the timelock's, awaits it, or is still to be transferred and not reported |
| EvmTransferToTimelock.FullModeHandsOver | mcms/evm/transfer-to-timelock/sequence.go:29-131 | validated full-mode input over any mix of one-step and two-step contracts and any operation reports ends owned by the timelock exactly when no report suppresses a transfer still to be made; on fresh reports always |
| EvmTransferToTimelock.StaleReportBreaks | mcms/evm/transfer-to-timelock/sequence.go:95-131 | an accepted input for which it does not |
| EvmTransferToTimelock.SequenceHandsOverIff | mcms/evm/transfer-to-timelock/sequence.go:22-73 | the same with the sequence's own reports, kept by refs: old accepts hand over exactly when each is for a contract the refs still stand for and is awaited, and the rest is owned |
| EvmTransferToTimelock.RepeatedRunIff | mcms/evm/transfer-to-timelock/sequence.go:22-73 | after a hand-over, a run answered from the sequence's report returns the same accepts, which go through exactly if there are none |
| EvmTransferToTimelock.RepointedRefBreaks | mcms/evm/transfer-to-timelock/sequence.go:22-73 | an accepted input whose ref stands for another contract than when the sequence was reported |
| EvmGrantRole.ParseIgnoresCase | mcms/evm/grant-role/validate.go:98-108 | differently-cased spellings of an address parse alike |
| EvmGrantLog.ParseIs | mcms/evm/grant-role/validate.go:98-108 | the accepted texts: 40 hexadecimal digits of a non-zero number, in either case, with or without 0x; each stands for that number |
| EvmGrantRole.AddressesNeedingGrant | mcms/evm/grant-role/roles_helpers.go:16-43 | parsed addresses that are not yet members, repeats and order kept; failures |
| EvmGrantRole.DifferenceMembers | mcms/evm/grant-role/roles_helpers.go:38-43 | members of the difference are exactly the requested addresses that are not existing ones |
| EvmGrantRole.Session.RunEVMGrantRole | mcms/evm/grant-role/sequence.go:28-116 | the nested loops of both modes equal the specification function |
| EvmGrantLog.DirectCalls | mcms/evm/grant-role/sequence.go:28-116 | any direct run over any reports: exactly which calls are sent, in which order, each once; the memberships and reports it leaves; when it fails, and that a failed run keeps what the grants before the unsupported one did |
| EvmGrantLog.ProposedCalls | mcms/evm/grant-role/sequence.go:28-116 | any proposing run: exactly which calls are returned, in order, repeats included, whatever was reported; it fails exactly on an unsupported grant, and changes nothing on the chain |
| EvmGrantLog.SequenceRuns | mcms/evm/grant-role/sequence.go:21-116 | answered from its report the sequence does nothing; only a success is recorded |
| EvmGrantRole.DirectGrantsAllIff | mcms/evm/grant-role/sequence.go:47-116 | direct mode ends with every requested membership exactly when no stale report stands in for a missing one |
| EvmGrantRole.StaleGrantLost | mcms/evm/grant-role/sequence.go:69-100 | an accepted grant that is not made |
| EvmGrantRole.SequenceGrantsAllIff | mcms/evm/grant-role/sequence.go:21-116 | the same condition for direct mode with the sequence's own reports |
| EvmGrantRole.SequenceProposesAllIff | mcms/evm/grant-role/sequence.go:21-116 | proposing with the sequence's own reports: executing what is returned leaves every requested membership exactly when the sequence was not reported, or each is held or was returned then for this timelock |
| EvmGrantRole.StaleProposalLost | mcms/evm/grant-role/sequence.go:21-116 | a proposed grant that is not made: held at the first proposal, revoked since |
| EvmGrantRole.ModesAgree | mcms/evm/grant-role/sequence.go:47-116 | for any grants, repeats and letter case included, both modes end with each table equal to its old members plus the requested ones, unless answered from the sequence's own report: proposing over any reports of grants, sending over none |
| EvmGrantRole.SecondDirectRun | mcms/internal/grantrole/addresses_for_role.go:12-32 | a second direct run sends nothing except for the unqueried admin role |
| EvmDeploy.LoadDeployedAddresses | mcms/evm/deploy/addresses.go:26-87 | succeeds exactly when no type is ambiguous, and then gives every known address |
| EvmDeployLog.LookupIs | mcms/evm/deploy/addresses.go:26-87 | which refs count: chain, type, version 1.0.0 and qualifier as asked; the datastore is accepted exactly when no two count for one type, and then gives the address of the one that does |
| EvmDeploy.Deployer.DeployMissingContracts | mcms/evm/deploy/sequence.go:45-173 | deploying what is missing, one type after the other, up to a rejected config, equals the specification function |
| EvmDeploy.Deployer.GrantRolesTimelock | mcms/evm/deploy/subsequences.go:108-191 | the memoised grant sequence with its inspected members equals the specification function |
| EvmDeploy.Deployer.DeployMCMSWithTimelock | mcms/evm/deploy/sequence.go:45-89 | the sequence equals the specification function |
| EvmDeployOutcome.NewMcm | mcms/evm/deploy/subsequences.go:35-81 | over any true reports: it fails, changing nothing, exactly when the reported multisig is no longer the deployer's and its config is unreported; else the multisig has the requested config exactly when no stale report stands in for setting it, a new one is the deployer's, and other multisigs are left alone |
| EvmDeployOutcome.ConfigSet | mcms/evm/set-config/operation.go:64-95 | setting a config: fails exactly when it is unreported and the multisig is not the sender's; else when the multisig ends with it, owner and everything else as they were |
| EvmDeployOutcome.DeployMissingOutcome | mcms/evm/deploy/sequence.go:45-173 | known contracts stay; deployment stops exactly at a missing kind whose reported multisig rejects its config; otherwise missing ones get a non-zero address and one new ref each; when each new multisig has its config; a new proxy points at the timelock; no grant is sent |
| EvmDeployOutcome.GrantsOutcome | mcms/evm/deploy/sequence.go:175-232 | over any true reports exactly the missing memberships that no report stands in for are sent, each once, and become memberships; nothing else changes |
| EvmDeployOutcome.RunOutcome | mcms/evm/deploy/sequence.go:45-89 | from any subset in the datastore and any true reports: exactly when a run succeeds, rejected configs included; one ref per missing type, none for present ones; exactly when each new multisig has its config and the timelock is wired |
| EvmDeployLog.RunSends | mcms/evm/deploy/sequence.go:45-232 | the transactions of a run that succeeds, with their arguments and in order: per missing multisig its deployment and config unless reported, the timelock with the configured delay, the deployer as admin and its three role lists, the proxy for the timelock, and then each missing grant once; and the refs returned, labels included |
| EvmDeployLog.FailedRunSends | mcms/evm/deploy/sequence.go:45-89 | the transactions of a run that fails: those of the kinds before the rejected one, or of all if the timelock cannot be read |
| EvmDeployLog.RunReports | mcms/evm/deploy/sequence.go:45-232 | exactly what a run that succeeds adds to the reports |
| EvmDeployLog.NewTimelockTables | mcms/evm/deploy/sequence.go:122-232 | the exact role tables of a timelock new to the chain |
| EvmDeployLog.DelaysApart | mcms/evm/deploy/sequence.go:122-150 | two runs over kept reports that ask for different delays never end up at one timelock |
| EvmDeployAgain.SecondRunIsFixedPoint | mcms/evm/deploy/subsequences.go:108-191 | with the refs merged, over any true reports, a second run has no new ref, and deploys, sends and changes nothing exactly when no required membership is missing; so whenever the first left the timelock wired, its reports are kept, or the deployer is no admin |
| EvmDeployAgain.SecondChangeset | mcms/changesets/deploy/changeset.go:70-95 | the same with the sequence's own report kept or not, and that merging what the second changeset returns leaves every lookup as it was |
| EvmDeployAgain.ConfigReverts | mcms/evm/deploy/sequence.go:45-89 | three runs over kept reports with the datastore lost, asking for one config, another, and the first again, succeed at the same addresses; the third does nothing and leaves the second config |
| EvmDeployAgain.HandedOverRejects | mcms/evm/set-config/operation.go:64-95 | once a multisig is handed over, a run over kept reports with the datastore lost that asks for another config of it fails |
| EvmDeployAgain.RevokedStaysRevoked | mcms/evm/deploy/subsequences.go:108-191 | an executor role that a run granted and that was revoked since: the next run succeeds, does nothing and leaves the timelock without it |
| EvmDeployAgain.FirstRunSucceeds | mcms/evm/deploy/sequence.go:45-89 | on a chain without timelocks or reports a run succeeds with a new timelock, so there are such runs |
| SolanaAddresses.LoadDeployedAddresses | mcms/solana/deploy/addresses.go:46-156 | the loader with its map range in a given order equals the specification function |
| SolanaAddresses.LoadIs | mcms/solana/deploy/addresses.go:46-177 | what every successful load gives, in any order: each plain type its own key, each instance its own seed, each program the one non-zero ID that its ref and instances give |
| SolanaAddresses.OrderIndependentIff | mcms/solana/deploy/addresses.go:113-177 | instance loading is order independent exactly when some ref does not decode or zero program IDs are not the only ones to disagree |
| SolanaAddresses.ZeroIDDependsOnOrder | mcms/solana/deploy/addresses.go:158-177 | a datastore whose whole load succeeds in one order and fails in another |
| SolanaAddresses.LoadOrderIndependent | mcms/solana/deploy/addresses.go:113-177 | with non-zero embedded IDs any two orders give the same result; success exactly when all refs decode and all IDs agree |
| EvmStateLoader.Load | legacy/pkg/family/evm/state.go:259-370 | the duplicate check and the assignment loop over the map equal the per-field specification; exactly when it fails |
| EvmStateLoader.OrderIndependentIff | legacy/pkg/family/evm/state.go:290-370 | a field is order independent exactly when the competing entries hold one address |
| EvmStateLoader.AcceptedButOrderDependent | legacy/pkg/family/evm/state.go:283-370 | two generic multisigs with a role in common and different labels: accepted, and the role's contract depends on the order |
| EvmStateLoader.PrecedenceHolds | legacy/pkg/family/evm/state.go:290-370 | in any order: the specifically typed contract if present, else a labelled one, else nil |
| EvmStateLoader.LoadOrderIndependent | legacy/pkg/family/evm/state.go:290-370 | with at most one candidate per field and role any two orders give the same state |
| EvmStateLoader.DedupedSuffices | legacy/pkg/family/evm/state.go:263-288 | the duplicate check leaves one candidate per field where all labels are as the bundle has them |
| Topology.ValidateChainConfig | mcms/changesets/deploy-custom-topology/changeset.go:180-233 | accepts exactly valid configurations: non-empty unique refs, no overlap, declared holders, transfers only with a proposal input |
| Topology.ValidConfigIs | mcms/changesets/deploy-custom-topology/changeset.go:180-250 | validity spelled out over all refs and holders of the chain |
| Topology.ValidateRoleHolders | mcms/changesets/deploy-custom-topology/changeset.go:235-250 | accepts exactly holders with one of ref and address, the ref declared |
| Topology.ResolveHolders | mcms/evm/deploy-custom-topology/sequence.go:502-522 | resolves all holders in order, or fails exactly when one does not resolve |
| Topology.ResolutionStable | mcms/evm/deploy-custom-topology/sequence.go:61-82 | validated holders always resolve, and to the same addresses however the map grows with other refs |
| Topology.KeysInjective | mcms/evm/deploy-custom-topology/sequence.go:111-555 | operation, input and key string determine the execution, so distinct refs and chains never share a report |
| TopologySession.Session.DeployMCMWithConfig | mcms/evm/deploy-custom-topology/sequence.go:90-139 | deploy and configure do what their two commands say |
| TopologySession.Session.CreateTimelock | mcms/evm/deploy-custom-topology/sequence.go:202-245 | timelock and call proxy, with refs and metadata, do what their commands say |
| TopologySession.GrantOnStaleRead | mcms/evm/deploy-custom-topology/sequence.go:326-372 | skipping by the members read at the start of a role comes to the same as skipping by the current ones |
| TopologySession.Session.GrantRoles | mcms/evm/deploy-custom-topology/sequence.go:287-394 | the nested loops over roles and members do what the grant commands say |
| TopologySession.Session.TransferContractToTimelock | mcms/evm/deploy-custom-topology/sequence.go:423-476 | read, transfer, re-read, accept do what the pair of commands says |
| TopologySession.Session.TransferContractsToTimelock | mcms/evm/deploy-custom-topology/sequence.go:399-421 | the loop with its seen set does what the pairs say; the returned transactions are the accepts in order |
| TopologySession.Session.DeployTimelockAndSetRoles | mcms/evm/deploy-custom-topology/sequence.go:171-274 | one timelock does what its commands say, refs, metadata and batch included |
| TopologySession.Session.RunEVMDeployTopology | mcms/evm/deploy-custom-topology/sequence.go:42-85 | the whole sequence ends, chain, reports and outputs, as the list of commands says |
| TopologyResume.RunAgain | mcms/evm/deploy-custom-topology/sequence.go:42-476 | killed, failed or completed, a run repeated over the same reports comes out as one run with both budgets |
| TopologyResume.FoldSettles | mcms/evm/deploy-custom-topology/sequence.go:42-476 | after a completed run every command is settled: repeated without any operation it gives the same outputs |
| TopologyProgram.ClaimsClashFree | mcms/evm/deploy-custom-topology/sequence.go:254-271 | under claims made once, no two commands of different timelocks resolve to one target |
| TopologyProgram.SeriesIsOneRun | mcms/evm/deploy-custom-topology/sequence.go:42-476 | any series of interrupted runs comes out as one uninterrupted run |
| TopologyProgram.CompletedRunReplays | mcms/changesets/deploy-custom-topology/changeset.go:53-65 | a completed run repeated over its reports changes nothing and returns the same outputs, as the sequence's own report would |
| TopologyOutcome.FoldKeeps | mcms/evm/deploy-custom-topology/sequence.go:42-85 | the run invariant: predicted addresses, refs assigned in order, every report accounted for on the chain |
| TopologyEffect.RolesSection | mcms/evm/deploy-custom-topology/sequence.go:287-394 | the grants turn the constructed tables into exactly the role matrix and change no other contract |
| TopologyEffect.PairsSection | mcms/evm/deploy-custom-topology/sequence.go:399-476 | the transfers hand over every target once, and note for acceptance exactly the two-step ones, in order |
| TopologyEffect.TimelockPhase | mcms/evm/deploy-custom-topology/sequence.go:171-274 | a whole timelock: new contracts, exact role matrix, ownership, metadata and batch |
| TopologyResult.RunOutcome | mcms/evm/deploy-custom-topology/sequence.go:42-85 | chain, refs, addresses and batches of a completed run, computed from its start without its commands |
| TopologyResult.OwnershipMoves | mcms/evm/deploy-custom-topology/sequence.go:254-271 | each target is transferred by the timelock that names it and by no other |
| TopologyResult.TablesOf | mcms/evm/deploy-custom-topology/sequence.go:171-252 | each timelock has exactly its role matrix, and no table of any other contract changes |
| TopologyResult.RunEffect | mcms/evm/deploy-custom-topology/sequence.go:171-394 | one run: distinct addresses for distinct refs, configs, exact role matrices, proxies except where switched off, ownership; nothing else created; tables, configs, proxies and owners of all other contracts as they were |
| TopologyDeployed.DeployedAsAsked | mcms/evm/deploy-custom-topology/sequence.go:90-394 | after any series of interrupted runs, from the configuration alone: tables held by exactly the named holders; one new call proxy that points at the timelock and may execute, and none only where the extra arguments say false; MCMs with their configs; every deployment reported with its arguments, delay and role lists included; two addresses per timelock by default |
| TopologyResult.SeriesOutcome | mcms/evm/deploy-custom-topology/sequence.go:42-476 | the same after any series of interrupted runs: everything deployed exactly once |
| TopologyProgress.ValidRunFailures | mcms/changesets/deploy-custom-topology/changeset.go:180-250 | validation implies resolution: a run fails only for an unsupported MCM type or a target that does not exist |
| TopologyProgress.CompletesIff | mcms/evm/deploy-custom-topology/sequence.go:540-551 | with its targets there and enough operations, a run completes exactly when all MCM types are supported |
| TopologyRouting.ResolveRoleHolderAddress | mcms/changesets/deploy-custom-topology/changeset.go:319-352 | the two searches give the first spec with the ref and the first address with chain, qualifier and type |
| TopologyRouting.TransferTargetAddressesForQualifier | mcms/changesets/deploy-custom-topology/changeset.go:298-317 | exactly the looked-up targets of the qualifier's timelocks |
| TopologyRouting.BatchOpMatchesTargets | mcms/changesets/deploy-custom-topology/changeset.go:354-362 | true exactly when some transaction goes to a target |
| TopologyRouting.BatchOpsForQualifier | mcms/changesets/deploy-custom-topology/changeset.go:273-296 | the matching batches, in order |
| TopologyRouting.CollectQualifiers | mcms/changesets/deploy-custom-topology/changeset.go:254-269 | exactly the qualifiers with transfers on some chain |
| TopologyRouting.BuildProposals | mcms/changesets/deploy-custom-topology/changeset.go:104-113 | one proposal for each qualifier with batches |
| TopologyConservation.LookupIs | mcms/changesets/deploy-custom-topology/changeset.go:319-352 | over the addresses of all chains the reverse lookup ends up at the holder's address or the first MCM alike to the one named |
| TopologyConservation.LookupFindsIff | mcms/changesets/deploy-custom-topology/changeset.go:319-352 | an MCM's address is found again exactly when no earlier MCM of its chain has the same qualifier and type |
| TopologyConservation.LookupAgrees | mcms/changesets/deploy-custom-topology/changeset.go:319-352 | with unique qualifier and type the reverse lookup agrees with the run's own resolution |
| TopologyConservation.BelongsIff | mcms/changesets/deploy-custom-topology/changeset.go:273-362 | for any validated configurations a batch goes to a qualifier's proposal exactly when a lookup for something its timelocks ask for ends up at one of the batch's contracts |
| TopologyConservation.HomeIff | mcms/changesets/deploy-custom-topology/changeset.go:273-362 | every batch is in its own timelock's proposal and no other exactly when a condition holds on each chain's configuration and starting contracts |
| TopologyConservation.UniqueRoutesOwn | mcms/changesets/deploy-custom-topology/changeset.go:319-352 | unique qualifiers and types, and no target shared between qualifiers, meet that condition |
| TopologyConservation.RoutedHome | mcms/changesets/deploy-custom-topology/changeset.go:273-296 | under that condition each proposal is the subsequence of batches its own timelocks emitted, in emission order |
| TopologyConservation.Conservation | mcms/changesets/deploy-custom-topology/changeset.go:254-362 | under that condition, over all chains every emitted batch is in exactly one proposal; none is lost or repeated; no proposal is empty, and they come in the order of the qualifiers |
| TopologyConservation.KeptIff | mcms/changesets/deploy-custom-topology/changeset.go:319-362 | without uniqueness: a batch is in some proposal exactly when one of its targets is not shadowed by an earlier MCM alike |
| TopologyMisrouting.AlikeMcmsMisroute | mcms/changesets/deploy-custom-topology/changeset.go:319-362 | an accepted configuration with two MCMs alike, whose run completes: one returned batch goes to two proposals, one of which asked for none of its contracts, and another to none |
| TopologyApply.ApplyOn | mcms/changesets/deploy-custom-topology/changeset.go:38-71 | each chain gets at most one run from a changeset, exactly one if it completes, unaffected by the others |
| TopologyApply.SeriesOfApplies | mcms/changesets/deploy-custom-topology/changeset.go:38-71 | after any series of changesets each chain has what one uninterrupted run gives |
| TopologyStored.StoredSeriesAgrees | mcms/changesets/deploy-custom-topology/changeset.go:38-71 | answering chains from the reports of their sequences changes neither what a series of changesets leaves nor what the last one returns |
| TopologyChangeset.Environment.ApplyTopology | mcms/changesets/deploy-custom-topology/changeset.go:38-126 | the loop over chains, each answered from its sequence's report or run, the aggregation, the final check and the proposals equal their specification |
| TopologyChangeset.MissingInputNeverSeen | mcms/changesets/deploy-custom-topology/changeset.go:70-73 | for validated input the check for batches without a proposal input never fires |
| TopologyEndToEnd.TimelockOf | mcms/changesets/deploy-custom-topology/changeset.go:129-138 | taking the proposal builder to search as the MCM lookup does, a unique qualifier finds its own timelock among all deployed addresses |
| TopologyEndToEnd.UniqueMcmsSuffice | mcms/changesets/deploy-custom-topology/changeset.go:319-352 | with unique MCM qualifiers and types the routing condition holds of a resumable start |
| TopologyEndToEnd.ChangesetConserves | mcms/changesets/deploy-custom-topology/changeset.go:81-126 | a completed changeset's proposals, none empty and in the order of the qualifiers, hold every batch exactly once |
| TopologyEndToEnd.ExecuteInAnyOrder | mcms/evm/deploy-custom-topology/sequence.go:254-271 | one chain's accept calls go through in any order and make each target its timelock's |
| TopologyEndToEnd.EndToEnd | mcms/changesets/deploy-custom-topology/changeset.go:81-126 | after any series of interrupted changesets over any chains, executing the returned proposals in any order leaves every contract with the timelock that named it |
| TopologyNecessity.HandOverIff | mcms/evm/deploy-custom-topology/sequence.go:399-476 | a completed run can be carried through, by whatever accept calls, exactly when no contract is named by two timelocks and every contract named by address is the deployer's |
| TopologyCompletion.LastApplyCompletes | mcms/changesets/deploy-custom-topology/changeset.go:38-79 | after any series of interrupted changesets, one more with enough operations completes, if all MCM types are supported |
| TopologyCompletion.SmallTopology | mcms/changesets/deploy-custom-topology/changeset.go:180-250 | a concrete configuration that meets all hypotheses of the end-to-end result |

## Left out

- Clients, bindings, encodings, signing, confirmation, logging, gas boosting and retries: the ledgers stand for them.
- Which of several errors is reported first, and error texts.
- The verdict of an MCM config's own validation and the encoding of configs: a config is a value, valid or not.
- Parsing of extra arguments from JSON; the map of call-proxy switches is the input.
- The instance label that initialising a Stellar multisig sets: a constant per contract type, never read back.
- The partial outputs a failed custom topology run hands to the datastore: runs read only reports, never this metadata.
- TopologyRouting.CollectQualifiers: does not model the sorting; every theorem holds for any duplicate-free order.
- TopologyEndToEnd.TimelockOf: the proposal builder is not part of this model; it is taken to find a timelock by chain, type and qualifier, as the MCM lookup does.
- TopologyResult.SeriesOutcome: assumes that each target is claimed by one timelock and that targets given by address start owned by the deployer; the report store may hold anything about other chains but nothing about this one.
- EvmStateLoader.Load: the framework's duplicate check is modelled as assumed above; its code is not part of the repository.
- TopologyNecessity.HandOverIff: is about one run and one chain, and takes contracts named by address to be on the chain.
- StellarRecovery.CrashRecovery: contracts that strangers deploy never land on addresses derived from the deployer.
- EvmDeployAgain.SecondChangeset: the datastore merge is modelled as replacing refs with the same chain, type, version and qualifier.
- Stellar transfer-to-timelock in accept-only mode: it reads the pending owner only in its transfer branch, so it promises nothing unless the timelock owns the contract.
- Solana deployment itself, fire drills, Job Distributor and CRE sequences, the family registry and datastore maintenance: plumbing or easy members.
- Legacy proposal aggregation and the partial-bundle behaviour that comments in the legacy loaders describe but the code does not enforce.
