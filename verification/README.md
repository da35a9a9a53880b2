# KINIC–Base bridge: a verified model

The bridge moves KINIC between an ICP ledger and the Base chain. A canister keeps the deposits, the
withdrawals and the fee accounting; a ledger account holds the escrow; a contract on Base mints and burns
the wrapped token. Around it stand a browser-facing recovery worker, a governance relayer, and a set of
release gates written in Python. This project models the parts of that system whose correctness is hardest
to see, and proves what they promise for every input, every run and every interleaving.

`dafny verify dfyconfig.toml` checks the whole project.

**The bridge.** `Kernel`, `Deposits`, `DepositRecords`, `Withdrawals`, `BaseChain` and `Accounting` follow the
sources record by record and table by table. `BridgeWorld` puts them together as one step system: canister,
ledger and Base chain interleave freely, ledger answers may be ambiguous and transfers retried, the
unfinalized suffix of the Base chain may be reorganized, and the canister learns about the other two only
through facts that are true when it learns them. The ledger has its own clock and may execute any request
that was ever sent, as long as it accepts the age of the transfer; a transfer is declared absent only after
its window has closed. `BridgeInvariant`, `BridgeSteps`, `BridgeMoves` and `BridgeRequests` show that every
step keeps the invariant, and `BridgeSafety` states what follows: 1:1 backing seen from every Base state the
chain may still settle on, no deposit both minted and refunded, nothing executed twice, permanent solvency,
and conservation of fees. `BridgeWindow` shows that the window test is exactly what is needed and
`PayoutRefusal` when a refused payout may be given up; `BridgeRuns` builds the runs they exhibit. `Settlement`
is the reduced backing equation that the refinement harness uses.

**Recovery worker.** `RecoveryScan` models the resumable page scan as a protocol over requests with page
keys that expire at any time; `LateScan` says which scans end when every key has expired; `CursorToken`
models the base64url tokens.

**Governance relayer.** `Publication` is the step system of any number of writers publishing at one path, with
failing operations, killed processes and power loss between any two operations; `Lineage` is the order on
signed activation transactions and the concurrent runs of the replacement command.

**Source analysers.** `Lexing`, `RustStrip` and `SolidityStrip` model the two strippers: a character machine
that overwrites a list, proved equal to blanking whole comments and literals. `Brackets`, `TopLevel` and
`Cfg` are the bracket scanners, the comma splitter and the configuration evaluator.

**Framing and digests.** `ByteStrings`, `Fingerprint` and `Authorization712` are the source fingerprints and the
EIP-712 digest; hash functions are parameters, and binding is stated by exhibiting a collision.

**Release gates.** `Session` (single-execution test session), `Closures` (dependency worklists), `LocalNetwork`
(line edit of a configuration file), `Rehearsal`, `Staging` and `Boundary` (evidence manifests and the
provider quorum).

## Results that differ from what one might expect

- A request to the test session can be served after `stop`: stopping sets the failure flag without the lock.
  `Session.ServedAfterFailure` gives the exact condition, and `Session.FailureIsSticky` what holds otherwise.
  A stop keeps a process from starting only if it comes before the first check: `Session.StopPreventsStart`.
- A caller that found its evidence already published has not synced the directory. `Publication.MatchIsForever`
  shows that its success survives a power loss exactly when the publisher's sync came first, and
  `Publication.MatchBeforeSync` gives a run in which it did not.
- A recovery scan whose page key expires before every request does not always end.
  `LateScan.LateScanEndsIff` says exactly when it does, for every history, range and page size, and
  `LateScan.BusyBlockIsCrowded` gives the smallest range for which it does not. With finitely many expiries
  every scan ends: `RecoveryScan.ScanEnds`.
- The report of missing scripts can name one script twice, when it is spelled in two ways:
  `Closures.RepeatsIffSpelledTwice`, with `Closures.ReportGoneTwice` as an example.
- An ambiguous refund must not be replaced while the ledger still accepts it. The code waits; `BridgeWindow`
  proves that otherwise, and only otherwise, some run pays the refund twice (`WindowIsExact`), and that worlds
  in which a bridge that did not wait would pay twice are reached (`ExposureIsReachable`).
- A held payout is given up when sending it again is refused, although the first request may have been executed
  or still be on its way, for instance when the ledger changed its fee in between. `PayoutRefusal.RefusalIsExact`
  gives the exact condition under which this keeps backing, and `PayoutRefusal.OutstandingIsReachable` a run in
  which it does not. The other holds never do this.

## Model

| member | source | states |
|---|---|---|
| BridgeSafety.BackingTheorem | scripts/generate_refinement_harness.py:519-521 | After any run, seen from the finalized Base state and from every unfinalized state built on it, the escrow equals supply, fee reserve, open deposits and unpaid burns, net of payouts that left the escrow but are not recorded yet; any request ever sent may be executed late, as long as the ledger accepts its age |
| BridgeSafety.NeverMintedAndRefunded | canister/bridge-core/src/deposit.rs:598-840 | No deposit is both refunded on the ledger and minted in any state of the Base chain, finalized or not |
| BridgeSafety.ExecutedAtMostOnce | canister/bridge-canister/src/tasks.rs:160-168 | No two ledger blocks serve the same funding, refund, release or payout, whatever was resent or replaced after an ambiguous answer and however late a sent request is executed |
| BridgeSafety.AlwaysSolvent | canister/bridge-core/src/reconciliation.rs:292-441 | Every request ever sent that the ledger has not executed and still accepts is covered by the escrow, so the ledger can always execute it |
| BridgeSafety.PayoutAlwaysRecordable | canister/bridge-core/src/accounting.rs:43-46 | A payout found on the ledger can always be recorded: spending from the reserve cannot underflow |
| BridgeSafety.FeesConserved | canister/bridge-core/src/accounting.rs:25-46 | Reserve plus spending equals confirmed fees, and deposit fees are exactly what the signed deposits were charged |
| BridgeSafety.NextKeepsInvariant | canister/bridge-core/src/deposit.rs:211-547 | Each of the eighteen kinds of step of canister, ledger, clocks and Base chain keeps the whole invariant, requests on their way included |
| BridgeSafety.Reachable | canister/bridge-core/src/deposit.rs:211-547 | The invariant holds after every run from the empty bridge |
| BridgeRequests.LapsedIsTooOld | canister/bridge-canister/src/tasks.rs:160-168 | What the canister takes for lapsed, saturation included, the ledger no longer accepts |
| BridgeRequests.NextKeepsRequests | canister/bridge-canister/src/tasks.rs:362-480 | Every step keeps this: each request ever sent was executed, is too old, or carries the transfer its record still has in flight |
| BridgeRequests.ExecutableIsInFlight | canister/bridge-canister/src/tasks.rs:1606-1730 | Whatever the ledger can execute, however long ago it was sent, is what some record has in flight |
| BridgeWindow.WindowIsExact | canister/bridge-canister/src/tasks.rs:160-168 | After an unanswered refund was replaced, no continuation of any kind pays it twice, if and only if no request for it was sent or it is too old for the ledger by then |
| BridgeWindow.LateExecutionPaysTwice | canister/bridge-canister/src/tasks.rs:362-400 | In every other world a run is given that pays both: the old request is executed late, and then its replacement |
| BridgeWindow.ExposureIsReachable | canister/bridge-canister/src/tasks.rs:362-400 | From every start a run of true facts leads to such a world, and on to two payments of one refund |
| PayoutRefusal.RefusalIsExact | canister/bridge-canister/src/tasks.rs:1611-1643 | Recording a held payout as failed because sending it again was refused keeps backing in every continuation if and only if the first request was neither executed nor may still be |
| PayoutRefusal.OutstandingIsReachable | canister/bridge-canister/src/ledger.rs:589-605 | From every start a run leads to a held payout for which that fails, and on to a world without backing |
| BridgeSteps.FactKeepsDepositOk | canister/bridge-core/src/deposit.rs:211-547 | Applying a true fact leaves a deposit consistent with the ledger and the finalized chain |
| BridgeSteps.FactMovesOnlyFee | canister/bridge-core/src/kernel.rs:2569-2657 | A fact moves what is owed by the fee it charges and by nothing else, and never starts refunding what Base has minted |
| BridgeSteps.UnprocessedPastDeadline | canister/bridge-core/src/deposit.rs:598-840 | Once a finalized state past the deadline shows no mint, no state of the chain shows one, reorganizations included |
| BridgeSteps.KeepResolveDeposit | canister/bridge-core/src/reconciliation.rs:121-290 | Resolving a funding or refund hold by what the ledger says, absence only once the window of the transfer has closed, keeps the invariant; nothing owed moves |
| BridgeSteps.KeepResolveWithdrawal | canister/bridge-core/src/reconciliation.rs:292-441 | Resolving a release hold, absence only once the window has closed, keeps the invariant: the burn is accounted for once, with its fee margin |
| BridgeSteps.KeepWithdrawalFact | canister/bridge-core/src/withdrawal.rs:154-304 | Every release fact keeps the invariant |
| BridgeSteps.KeepObserve | canister/bridge-core/src/withdrawal.rs:110-152 | Observing a finalized burn keeps the invariant and charges nothing yet |
| BridgeMoves.MintStaysBacked | contracts/src/libraries/MintAuthorizationPolicy.sol:61-118 | An accepted mint turns what was owed for its deposit into supply, unit for unit |
| BridgeMoves.MintStaysTimely | contracts/src/libraries/MintAuthorizationPolicy.sol:61-118 | The contract mints only while the deposit is not being refunded and before its deadline |
| BridgeMoves.BurnStaysBacked | contracts/src/Bridge.sol:220-278 | A committed withdrawal turns supply into what is owed for its burn, unit for unit |
| BridgeMoves.LedgerMovesOwed | canister/bridge-canister/src/ledger.rs:81-147 | A ledger block made from one of the four requests changes what is owed by exactly what it moves in or out of the escrow |
| BridgeMoves.KeepPayoutFact | canister/bridge-canister/src/storage/mod.rs:7150-7200 | Recording a payout spends from the reserve exactly what already left the escrow |
| BridgeMoves.KeepRequestPayout | canister/bridge-canister/src/admin.rs:243-330 | A payout is admitted only out of the reserve that no open payout has claimed |
| BridgeMoves.KeepReorganize | canister/bridge-canister/src/evm_rpc.rs:1490-1522 | Records rest on finalized blocks only: dropping any unfinalized suffix of the Base chain keeps the invariant |
| Deposits.StepKeepsWellFormed | canister/bridge-core/src/deposit.rs:211-547 | Every applied fact keeps a deposit well formed and leaves its identity and amounts alone |
| Deposits.AcceptWellFormed | canister/bridge-core/src/deposit.rs:166-186 | An accepted deposit starts well formed |
| DepositRecords.KernelRefinesMatch | canister/bridge-core/src/kernel.rs:2269-2360 | On well-formed records the numeric transition table accepts exactly the facts the rich match accepts, and leads to the same phase |
| DepositRecords.EffectsConserve | canister/bridge-core/src/kernel.rs:2569-2657 | The reported amounts move the claim of the record, every unit debited goes to fee, escrow or supply, and the reservation follows |
| DepositRecords.DepositRecord.Apply | canister/bridge-core/src/deposit.rs:211-547 | The in-place update equals the specification step; refused and repeated facts change no field |
| Accounting.AccountingState.ConfirmFee | canister/bridge-core/src/accounting.rs:25-41 | All checks precede all writes: a failing call changes no field even when only the last addition overflows |
| Accounting.AccountingState.SpendFeeReserve | canister/bridge-core/src/accounting.rs:43-46 | Spending lowers the reserve alone, and fails without effect beyond it |
| Accounting.RunConserves | canister/bridge-core/src/accounting.rs:25-46 | In every run of calls reserve plus successful spending equals confirmed deposit and withdrawal fees |
| Accounting.ConfirmedNeverDecreases | canister/bridge-core/src/accounting.rs:25-46 | Confirmed totals never decrease |
| Settlement.SettleAccepts | scripts/generate_refinement_harness.py:86-119 | A settlement is accepted exactly when the state is backed and all checked arithmetic fits |
| Settlement.SettleAllKeepsBacking | scripts/generate_refinement_harness.py:519-521 | Backing survives every sequence of settlements; rejected ones change none of the four amounts |
| RecoveryScan.HandleMintRecovery | ui/recovery-worker/index.ts:220-286 | The handler with its block-check loop returns exactly the specified response or error |
| RecoveryScan.CheckBlocks | ui/recovery-worker/index.ts:258-270 | The loop accepts a page exactly when its blocks are in range and in ascending order, and yields the last of them |
| RecoveryScan.ScanCoversRange | ui/recovery-worker/index.ts:220-286 | When a run ends, every transfer of the range has been returned, however often page keys expired |
| RecoveryScan.ScanIsSound | ui/recovery-worker/index.ts:220-286 | Whatever is returned belongs to a transfer of the history whose block lies in the requested range |
| RecoveryScan.NextQuery | ui/recovery-worker/index.ts:229-256 | An issued cursor is never refused, and everything before the position it leads to has been returned |
| RecoveryScan.CheckpointAdvances | ui/recovery-worker/index.ts:229-281 | Along a run the range stays fixed and the checkpoint never moves back |
| RecoveryScan.PagesBounded | ui/recovery-worker/index.ts:229-281 | A run serves at most one pass over the history per expiry, and one more |
| RecoveryScan.ScanEnds | ui/recovery-worker/index.ts:229-281 | A scan whose requests are served is over after that many requests: finitely many expiries let it end |
| LateScan.LateScanEndsIff | ui/recovery-worker/index.ts:229-281 | For every history, range and page size, a scan whose every request comes late ends if and only if no block of the range holds a full page of transfers with another transfer of the range after them |
| LateScan.CrowdedNeverEnds | ui/recovery-worker/index.ts:229-281 | With such a block it never ends, however many requests are made |
| LateScan.LateRunsExist | ui/recovery-worker/index.ts:229-239 | Runs in which every request comes late exist, of every length |
| LateScan.LateAdvance | ui/recovery-worker/index.ts:258-281 | A late request ends the scan or moves the restart to the block of the last transfer of its page |
| LateScan.BusyBlockIsCrowded | ui/recovery-worker/index.ts:229-281 | The smallest such range: two transfers in one block and pages of one |
| CursorToken.Base64UrlRoundTrip | ui/recovery-worker/index.ts:48-57 | Unpadded base64url decodes to what was encoded, for every byte string |
| CursorToken.EncodeIsUrlText | ui/recovery-worker/index.ts:48-52 | The encoding contains only URL-safe characters, and never a dot |
| CursorToken.SignedTokenOpens | ui/recovery-worker/index.ts:58-84 | A signed token splits into exactly two parts and opens to the payload that was signed |
| Publication.NextKeepsInv | tools/governance-relayer/cli.ts:434-477 | Every operation of every writer, failure, kill and power loss keeps the invariant, and only a loss before the directory sync can remove the target |
| Publication.TargetIsWhole | tools/governance-relayer/cli.ts:434-477 | In every interleaving the target is absent or holds one writer's complete body |
| Publication.TargetNeverChanges | tools/governance-relayer/cli.ts:434-477 | Once present the target never changes, unless a power loss takes an entry that was not synced |
| Publication.DurableForever | tools/governance-relayer/cli.ts:479-495 | A synced directory entry survives every continuation, power loss included |
| Publication.SuccessesAgree | tools/governance-relayer/cli.ts:524-579 | All callers that return success agree with the stored value; one that published is stored durably |
| Publication.PublisherIsUnique | tools/governance-relayer/cli.ts:434-477 | At most one caller publishes |
| Publication.MatchIsForever | tools/governance-relayer/cli.ts:516-579 | A caller that matched keeps agreeing in every continuation if and only if the directory entry was on disk when it matched |
| Publication.MatchBeforeSync | tools/governance-relayer/cli.ts:516-579 | A run in which a caller matches before the publisher has synced the directory |
| Publication.EarliestConfirmationIsStored | tools/governance-relayer/cli.ts:552-579 | Successful confirmations differ only in time, and a publisher's time is the earliest of them |
| Lineage.PrecedesIsPartialOrder | tools/governance-relayer/cli.ts:720-751 | The lineage test is reflexive exactly on activation artifacts with positive signing time, antisymmetric and transitive |
| Lineage.ChainPrecedes | tools/governance-relayer/cli.ts:701-751 | In a chain of replacement steps every artifact precedes every later one |
| Lineage.NextKeepsInv | canister/bridge-canister/src/base_governance.rs:678-790 | Every step of concurrent replacements keeps one chain of signed transactions and what each run knows about it |
| Lineage.SameReplacement | tools/governance-relayer/cli.ts:231-270 | However runs of the command interleave, all that succeed for one stored artifact return the same replacement, at the requested fees |
| Lineage.IssuedAtMostOnce | canister/bridge-canister/src/base_governance.rs:678-790 | At most one run issues that replacement |
| Lineage.RetryFindsReplacement | tools/governance-relayer/cli.ts:231-270 | A retry with the same artifact and fees finds the pending replacement and signs nothing |
| Lineage.PendingLineage | tools/governance-relayer/cli.ts:720-751 | Every artifact ever signed precedes the pending one |
| Lineage.ReplacementsAreBounded | canister/bridge-canister/src/base_governance.rs:678-790 | However many runs there are, an operation is replaced at most as often as configured, within the fee ceiling |
| Lineage.BumpKeepsOrder | canister/bridge-canister/src/base_governance.rs:2116-2122 | A fee that passes the minimum bump is never lower than the current one, saturation included |
| RustStrip.StripCommentsAndStrings | scripts/check_transition_manifest.py:36-117 | The character machine over one overwritten list equals blanking whole comments and literals, and fails exactly when one never ends |
| RustStrip.StepRefines | scripts/check_transition_manifest.py:43-114 | Each turn of the machine emits the next part of that result |
| RustStrip.BlockEndNests | scripts/check_transition_manifest.py:84-97 | Block comments nest: closing m + n levels is closing m and then n |
| RustStrip.StripIsIdempotent | scripts/check_transition_manifest.py:36-117 | Equal length, each character kept or blanked, no string quote and no comment opener left, and stripping again changes nothing |
| Lexing.QuoteEndIsFirstUnescaped | scripts/check_transition_manifest.py:98-105 | Quoted text ends at the first quote with an even number of backslashes before it |
| SolidityStrip.StripCommentsAndStrings | scripts/check_claim_manifest.py:146-193 | The Solidity machine equals blanking whole comments and strings, and fails exactly when one never ends |
| SolidityStrip.StripIsIdempotent | scripts/check_claim_manifest.py:146-193 | The same for Solidity, where neither quote survives |
| SolidityStrip.FunctionBody | scripts/check_claim_manifest.py:196-213 | There is a body exactly when a brace, with no semicolon before it, is matched; it is unique and is what is returned |
| Brackets.Balanced | scripts/rust_canonical_calls.py:54-65 | The scan returns the group that starts here, whose inside pairs up and whose last character closes it, and fails exactly when no group does |
| Brackets.GroupIffPaired | scripts/rust_canonical_calls.py:54-65 | A bracketed stretch is what the scan finds if and only if its inside pairs up |
| TopLevel.SplitTopLevel | scripts/rust_canonical_calls.py:68-87 | The loop fails exactly on badly nested text and otherwise returns the tidied pieces between top-level commas |
| TopLevel.JoinOfPieces | scripts/rust_canonical_calls.py:68-87 | The pieces of nested text have no top-level comma and join back to the text |
| TopLevel.PiecesOfJoin | scripts/rust_canonical_calls.py:68-87 | Pieces joined by commas are found again: they are the only such list |
| Cfg.SplitOfList | scripts/rust_canonical_calls.py:68-87 | A comma-separated list of trimmed arguments splits into exactly those arguments |
| Cfg.EvaluateRender | scripts/check_verus_manifest.py:179-197 | A written predicate evaluates to its meaning in the Rust Reference, and is refused exactly when a leaf is unknown or a negation lacks its one argument |
| Cfg.LeafMeans | scripts/check_verus_manifest.py:191-196 | A recognised leaf is answered exactly by whether its option is set |
| Cfg.RecognisedIsLeafy | scripts/check_verus_manifest.py:191-196 | Every recognised leaf can be written, so the theorem covers all trees over them |
| Fingerprint.FeedDigest | scripts/proof_fingerprint.py:145-154 | The digest loop feeds the framed stream, and fails exactly when a length does not fit eight bytes |
| Fingerprint.UnframeStream | scripts/proof_fingerprint.py:145-154 | A decoder recovers the exact list of paths and contents |
| Fingerprint.EnumerationUnique | scripts/proof_fingerprint.py:135-141 | Sorting leaves one list per map |
| Fingerprint.StreamIdentifiesMap | scripts/certora_fingerprint.py:129-140 | Two file sets give the same stream if and only if they are the same map |
| Fingerprint.ProofStreamIdentifiesMap | scripts/proof_fingerprint.py:135-154 | For the logical paths sorted as strings, equal streams are equal maps, and conversely |
| Fingerprint.CertoraStreamIdentifiesMap | scripts/certora_fingerprint.py:128-140 | The same for paths sorted component by component |
| Fingerprint.PathRankOrdersComponents | scripts/certora_fingerprint.py:128-134 | Comparing paths component by component is comparing their bytes with the separator ranked lowest |
| Fingerprint.DigestCollision | scripts/proof_fingerprint.py:145-154 | Different maps with equal digests give two different strings with one digest |
| Fingerprint.CollectInputs | scripts/proof_fingerprint.py:135-141 | The dictionary of logical paths is filled exactly when no two files share a logical path, and inverts the naming |
| Authorization712.PadLeft | canister/bridge-canister/src/mint_authorization.rs:41-51 | The buffer filling of both padding helpers: zeros on the left, the given bytes on the right |
| Authorization712.MakeUintWord | canister/bridge-canister/src/mint_authorization.rs:41-45 | Filling the buffer gives the word of the number, whose value is recovered by BigEndianValue |
| Authorization712.MakeAddressWord | canister/bridge-canister/src/mint_authorization.rs:47-51 | Filling the buffer gives the word of the address |
| Authorization712.Digest | canister/bridge-canister/src/mint_authorization.rs:8-35 | The digest is the hash of the 66-byte input built from the two inner hashes |
| Authorization712.DigestBinding | canister/bridge-canister/src/mint_authorization.rs:8-35 | Equal digests bind domain and authorization, or two strings hashed at the same place differ and collide |
| Authorization712.DomainFollowsType | canister/bridge-canister/src/mint_authorization.rs:4-19 | Reading the domain type string yields its members; word by word the encoding is the type hash followed by the value each member names, encoded as its declared type demands |
| Authorization712.AuthorizationFollowsType | canister/bridge-canister/src/mint_authorization.rs:6-29 | The same for the eight words of the authorization |
| Authorization712.TypeStringReads | canister/bridge-canister/src/mint_authorization.rs:4-6 | A type string written from a name and members is read back to those members |
| Authorization712.DomainTypeIs | canister/bridge-canister/src/mint_authorization.rs:4-5 | The literal text of the domain type is the encoding of its name and four members |
| Authorization712.AuthorizationTypeIs | canister/bridge-canister/src/mint_authorization.rs:6-6 | The literal text of the authorization type is the encoding of its name and seven members |
| ByteStrings.BigEndianValue | canister/bridge-canister/src/mint_authorization.rs:41-45 | A number that fits its width is recovered from its big-endian digits |
| Session.TestSession.Run | scripts/execution_session.py:265-321 | Execution under the lock, with a stop possible at four moments, equals the specification step |
| Session.TestSession.ConsumeArtifacts | scripts/execution_session.py:253-263 | The artifact loop keeps the first digest of each artifact and fails the session on a change |
| Session.TestSession.Handle | scripts/execution_session.py:334-352 | Dispatch of the three requests |
| Session.StartedAtMostOnce | scripts/execution_session.py:265-321 | In every run of requests each unit starts at most one process |
| Session.ServedIsFirstRecorded | scripts/execution_session.py:265-321 | Whatever is served for a unit is what was recorded first, under the baseline fingerprint |
| Session.FailureIsSticky | scripts/execution_session.py:119-122 | After a failure nothing starts and nothing is served |
| Session.ServedAfterFailure | scripts/execution_session.py:323-332 | For every request in every reached state: it is served although the session failed meanwhile if and only if a stop arrived after its last check and it would have been served without that stop |
| Session.SnapshotAfterStop | scripts/execution_session.py:323-352 | The simplest case: a snapshot served by a new session that was stopped while it was taken |
| Session.StopPreventsStart | scripts/execution_session.py:265-321 | A stop keeps the process from starting if it comes before the first check; at any later moment the same processes start as without it |
| Closures.DependencyClosure | scripts/check_no_obsolete_release_dependencies.py:104-134 | The worklist visits exactly what the entry points reach and reports exactly the broken references of it; a report repeats if and only if a visited script spells one broken path twice |
| Closures.Expand | scripts/check_no_obsolete_release_dependencies.py:114-133 | One script: which references are followed, and how often each broken path is reported, once per spelling |
| Closures.RepeatsIffSpelledTwice | scripts/check_no_obsolete_release_dependencies.py:59-67 | Reports made once per spelling repeat exactly when two spellings of one script resolve to one broken path |
| Closures.ReportGoneTwice | scripts/check_no_obsolete_release_dependencies.py:104-134 | A repository whose closure reports one missing path twice |
| Closures.PythonDependencies | scripts/certora_fingerprint.py:67-103 | The import closure is what the seeds reach, and fails if and only if something they reach is missing, unparsable, ambiguous or unresolved |
| Closures.ClosedHoldsReachable | scripts/certora_fingerprint.py:67-103 | Reachability is the least closed set |
| LocalNetwork.RenderConfig | scripts/prepare_local_network.py:36-110 | The scanning loops and in-place edits equal the specification, inline gateways refused |
| LocalNetwork.RenderSetsPort | scripts/prepare_local_network.py:36-110 | Afterwards the local network's port line is the one written, in all five cases |
| LocalNetwork.RenderTwice | scripts/prepare_local_network.py:36-110 | Rendering twice is rendering once with the last port |
| LocalNetwork.RenderSamePort | scripts/prepare_local_network.py:36-110 | Rendering the port already set keeps every line |
| LocalNetwork.OtherLinesKept | scripts/prepare_local_network.py:47-110 | All other lines stay, in order |
| LocalNetwork.FindsLocates | scripts/prepare_local_network.py:47-104 | The selected port line is the last one before the dedent after the last gateway of the last local network |
| LocalNetwork.SplitOfText | scripts/prepare_local_network.py:39-39 | Splitting joined lines gives them back |
| LocalNetwork.PortLineInjective | scripts/prepare_local_network.py:106-108 | Different ports are written differently |
| Rehearsal.ManifestFile.Add | scripts/evm-rpc-rehearsal/rehearsal.py:1245-1283 | The dictionary update equals the specification; a refused record changes nothing |
| Rehearsal.RunAdvances | scripts/evm-rpc-rehearsal/rehearsal.py:1245-1310 | In every run the verifier accepts the manifest, evidence is write-once, progress never goes back, and a launch-ready manifest no longer changes |
| Rehearsal.LaunchReadyIsFinal | scripts/evm-rpc-rehearsal/rehearsal.py:1224-1283 | A rehearsal that was launch ready without the extended scenarios never becomes extended complete |
| Rehearsal.FlagsMeanCompletion | scripts/evm-rpc-rehearsal/rehearsal.py:1224-1242 | The flags hold exactly when the launch scenarios, or all scenarios, are recorded |
| Staging.Validate | scripts/plan007/sepolia_e2e.py:1787-1825 | The validator loop accepts exactly a valid prefix of the stages with matching flags |
| Staging.RecordStage | scripts/plan007/sepolia_e2e.py:2120-2149 | Recording succeeds exactly for the next missing stage of a valid manifest with evidence that passes its checks; it fills that stage alone and the validator accepts the result |
| Staging.RunExtends | scripts/plan007/sepolia_e2e.py:2120-2149 | In every run the stages are a growing prefix of the fixed order, evidence is never replaced, and the validator accepts |
| Staging.RecordAcceptsNext | scripts/plan007/sepolia_e2e.py:2120-2149 | A reached manifest takes exactly its next stage, with evidence that passes its checks |
| Staging.ReachedIsPrefix | scripts/plan007/sepolia_e2e.py:1787-1825 | Every manifest reached from the empty one is a prefix of the fixed order that the validator accepts, with files or without |
| Boundary.ValidateBoundary | scripts/plan007/sepolia_e2e.py:548-582 | The loop accepts exactly the boundaries that two configured providers confirm |
| Boundary.QuorumsIntersect | scripts/plan007/sepolia_e2e.py:548-582 | Two accepted boundaries share a provider whose own observations confirm both |
| Boundary.BoundaryIsUnique | scripts/plan007/sepolia_e2e.py:778-780 | If providers report one hash and minimum per block, equal checkpoints mean equal boundaries |

## Left out

- HTTP, RPC, Candid, HMAC, ECDSA, zod, viem and JSON libraries: parameters or functions with stated behaviour.
- Hash functions: parameters; nothing assumes that keccak or SHA-256 has no collisions. Ledger memos, which are
  hashes of identities, are identity tags; transfer hashes in the recovery scan are numbers; different signed
  governance transactions are taken to have different hashes.
- Deposits are numbered by acceptance and withdrawals by burn; hashes of requests, log indexes, audit records,
  counters, payload digests and last-error fields of the stored records are dropped.
- Withdrawal records, holds and payouts are updated on values, not in place; aliasing between stored copies is
  not modelled.
- BridgeRequests.NextKeepsRequests: takes the clock of the ledger not to be behind the canister's, a definitive
  refusal to mean that no earlier request for the same transfer is still on its way, and a resent transfer that
  was executed to be answered as a duplicate; changes of the ledger fee are not modelled. What a payout loses
  when a refusal means less is stated by `PayoutRefusal.RefusalIsExact`.
- Funding attempts made before a deposit is accepted are deposits in their funding phase; leases, page-wise
  progress of a reconciliation scan and the second, final absence scan are one step that learns a true fact.
- Per-holder balances of the wrapped token, approvals and roles on Base: only supply, processed deposits and
  burns are kept, and the burner's balance is an input of the burn.
- Pausing, proposals, upgrades, cycles management and controller checks of the canister.
- The canister acts on true facts: what the ledger and the finalized Base chain answer is not forged. Provider
  quorums that establish those facts are modelled only as `Boundary`.
- BridgeSafety.AlwaysSolvent: covers the amounts the bridge itself moves; transfers into the escrow account from
  outside would only add to it and are not modelled.
- Publication.SuccessesAgree: takes reading back a complete body as returning the value written, for one format at
  a time; symbolic links, permissions and a target that is not a regular file are not modelled.
- Publication.EarliestConfirmationIsStored: times are integers; a candidate whose time is not a number is not
  modelled.
- Lineage.SameReplacement: artifact fields other than generation, time, fees, hash, operation and kind are one
  serialized text; validating stored artifacts, binding files and authorization may end a run at any point.
- Session.TestSession.Run: plans, tool versions, process output, report parsing and selector matching are inputs of
  a request; a stop lands at one of four moments, between which the code does not read the failure flag.
- Closures.DependencyClosure: the spellings a script contains, resolving a spelling and the optional-helper
  classifier are functions; a file that cannot be decoded is not modelled.
- Closures.PythonDependencies: resolving one import statement is an input.
- Fingerprint.CollectInputs: which files are collected is an input; sorting itself is described by its result.
- RustStrip.StripCommentsAndStrings: the test for a letter or digit before a raw string is a parameter.
- Cfg.EvaluateRender: covers predicates as they are written, with comma and one space; other spacing is accepted by
  the evaluator but not described by the tree.
- SolidityStrip.FunctionBody: finding the text that names the function is an input, as is the signature scan of
  the Rust counterpart, which uses the same brace scan.
- Rehearsal.RunAdvances: the artifact root is always supplied and files do not change; validators of one piece of
  evidence are one predicate.
- Staging.RunExtends: validators of one stage are one predicate that looks at files or not, and looking at files is
  taken never to accept more.
- Boundary.ValidateBoundary: field formats, chain id and address checks are left out.
- LocalNetwork.RenderConfig: choosing a free port is left out.
- Removing configuration-dependent items from Rust source, call-site resolution, manifest parsers, coverage
  checks, proof drivers, UI and generated code: long checklists or pattern matching without a law to prove.
