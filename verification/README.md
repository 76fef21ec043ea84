# The DeploymentController journal, verified

The DeploymentController of Paraegox keeps one crash-safe journal: the committed
deployment plan and its operation ledger, writer-tenure transactions, the binding to
one Runtime, the current rollout with its append-only query attempts, and the archived
rollouts. Fourteen mutators build the next state; the store accepts it only if an
independently written successor relation holds; the query, reconcile, apply and tenure
orchestrators commit a snapshot before and after every network exchange.

This project models that protocol in Dafny 4.11 and proves what it is for: the two
specifications agree, every mutator does exactly what it is for, validity is kept by the
guards and not merely re-checked, and the
guarantees that exist only over whole runs (tenure fencing, the plan-advance gate, the
compare-and-swap chain, at-most-once sends, frozen conflicts, stable replay) hold over
every run, including runs with crashes and uncertain commits. The snapshot codec is
proved to be a bijection between the states it can write and the bytes it accepts.

`dafny verify dfyconfig.toml` checks everything.

## How the model is laid out

| file | holds |
|---|---|
| `Types.dfy`, `Tables.dfy` | entities; tables kept sorted by a key |
| `Allocation.dfy` | the planner's delta and the journal's own replay of it |
| `Operations.dfy`, `Tenures.dfy`, `Rollouts.dfy` | ledger, tenure table, one rollout |
| `Sizes.dfy`, `Journal.dfy` | the length predictor; validity and the fourteen mutators |
| `Revalidation.dfy` | what the validation at the end of a mutator can still object to |
| `Successor.dfy` | the store's successor relation, and its agreement with the mutators |
| `Runs.dfy`, `Mutations.dfy` | chains of accepted states; runs of mutators |
| `Outcomes.dfy`, `Progress.dfy` | what each mutator is for, and that it does exactly that; calls along the normal course |
| `Validators.dfy`, `EvidenceChecks.dfy`, `Mutators.dfy` | the validator's loops, proved to decide validity |
| `Classifier.dfy` | the reconcile classifier and its agreement with the journal |
| `World.dfy` | disk, handle, tokens and sends under crashes |
| `Store.dfy`, `Queries.dfy`, `Reconcile.dfy`, `Applying.dfy`, `Tenancy.dfy` | the store handle and the orchestrators |
| `Codecs.dfy`, `Layout.dfy`, `Embedded.dfy`, `Payload.dfy`, `Body.dfy`, `Envelope.dfy`, `Snapshots.dfy`, `Disk.dfy`, `Archive.dfy`, `Encoder.dfy` | the codec, the version-7 migration and the encoder as it runs |
| `Durability.dfy` | whatever a run reaches can be written and read back |

A mutator is a `Move` (keep, go to a new state, refuse) followed by validation of the
new state (`Journal.Apply`). The proofs about whole runs are about chains of states
related by `Successors.Successor`, which every mutator run is (`Mutations.RunIsChain`),
so they hold of every sequence of snapshots the store would accept.

Digests, signatures and the PXAR, PXQR, PXQS, PXRT, bootstrap, manifest and tenure wires
are foreign. Digest builders and the manifest's verdict on a request are an arbitrary
record of functions (`Types.Hashes`); the wire decoders are an arbitrary record
(`Layout.Wires`) of which canonicity is assumed, accepted bytes being the value's own
wire, and for `Durability.dfy` that the fields they read have their fixed widths. Identities and digests are numbers, because big-endian byte order and numeric order
agree; their widths appear in the codec. Network replies, fresh identities and the fate
of each commit (published, rejected before publication, published and then uncertain) are
method parameters, so every contract holds for every choice the environment makes. A
store object carries, as ghost state, the trace of everything that happened to it; every
method extends that trace by enabled events, so the theorems about crashing worlds hold
of every store object.

## Model

| member | source | states |
|---|---|---|
| Allocations.DeltaIsSuccessor | crates/paraegox-deployment/src/planner.rs:459-586 | an applied delta is exactly what the journal rebuilds from the two snapshots, is a legal successor, moves the generation by at most one, and is recognised as already applied |
| Allocations.UnchangedIsSuccessor | crates/paraegox-deployment/src/planner.rs:546-586 | the allocation successor check is reflexive on valid allocations |
| Operations.CommitAdvancesLedger | crates/paraegox-deployment/src/controller_journal.rs:1867-1890 | committing the only unresolved row turns a valid ledger into a valid ledger of the next revision exactly when no earlier commit has the same plan digest |
| Operations.RevisionOfKept | crates/paraegox-deployment/src/controller_journal.rs:3662-3677 | an archived plan digest keeps naming the same revision in every ledger that keeps its commit |
| Operations.LedgerSize | crates/paraegox-deployment/src/controller_journal.rs:3382-3387 | a ledger has at least as many rows as revisions, and one more while any row is uncommitted |
| Tenures.GlobalLatest | crates/paraegox-deployment/src/controller_journal.rs:2886-2918 | the selection loop returns the row with the highest epoch and never reports a tie on a valid table |
| Tenures.EpochsDistinct | crates/paraegox-deployment/src/controller_journal.rs:3455-3522 | in every valid table committed epochs are pairwise distinct, although the check only forbids equal epochs with different proofs |
| Tenures.FencingStep | crates/paraegox-deployment/src/controller_journal.rs:3524-3588 | one accepted step drops no proof and commits at most one, above every earlier proof and explicitly superseding it |
| Tenures.Fencing | crates/paraegox-deployment/src/controller_journal.rs:2045-2092 | over any chain proofs are permanent and each later proof outranks and supersedes every earlier one |
| Tenures.CommitOrderIsEpochOrder | crates/paraegox-deployment/src/controller_journal.rs:3524-3588 | rows are sorted by operation id, yet of two proofs the one committed later has the higher epoch |
| Tenures.SupersededForever | crates/paraegox-deployment/src/controller_journal.rs:2872-2941 | a proof that is not the live one now is never live again, and at most one writer has a live proof |
| Tenures.LiveProofIff | crates/paraegox-deployment/src/controller_journal.rs:2868-2883 | in a valid table a writer's live proof is its committed proof exactly when no committed proof of any writer has a higher epoch |
| Rollouts.GateSettles | crates/paraegox-deployment/src/controller_journal.rs:1378-1435 | a rollout the gate lets go is unconflicted and settled in the binding's current epoch, by a successful direct receipt or a terminal decision, with no query left open |
| Rollouts.GateIff | crates/paraegox-deployment/src/controller_journal.rs:1378-1552 | the gate errs exactly on conflicting evidence, and otherwise opens exactly when the last query alone, the successful receipt of the current epoch (with no query, or a decided one seen strictly earlier in it), or receipt and matching terminal decision together settle the rollout; receipt and attempt are spelled out field by field |
| Rollouts.TerminalSliceIsIntentSlice | crates/paraegox-deployment/src/controller_journal.rs:2802-2830 | the terminal slice of an unconflicted rollout is the intent's own slice exactly when the rollout is settled |
| Rollouts.ConflictIsLastAndUndecided | crates/paraegox-deployment/src/controller_journal.rs:1283-1348 | in a valid rollout conflicting evidence can only sit in the last attempt, which is undecided and not closed |
| Revalidation.Revalidated | crates/paraegox-deployment/src/controller_journal.rs:1765-2500 | from a valid state, for all fourteen mutators, the final validation succeeds exactly when the residual condition holds: size, the shared ledger bound when a row is added, planner coherence and a fresh plan digest for a plan commit, decided evidence against a late receipt, the plan context of a terminal decision |
| Revalidation.CallConcludes | crates/paraegox-deployment/src/controller_journal.rs:2481-2499 | a call whose guards pass ends in the new state or in the validator's refusal, as the residual condition on that state says |
| Revalidation.CommitPlanResidual | crates/paraegox-deployment/src/controller_journal.rs:1822-1902 | after the guards of a plan commit only size, planner coherence or a plan-digest collision can fail it, and no rollout is lost |
| Revalidation.HistoryAppended | crates/paraegox-deployment/src/controller_journal.rs:3625-3725 | appending the gated rollout keeps archived plans one-to-one with commits of strictly increasing revisions below the current one |
| Revalidation.HistoryCapacityUnreachable | crates/paraegox-deployment/src/controller_journal.rs:2546-2548 | the history-capacity error inside a plan commit cannot occur from a valid ledger with a prepared operation |
| Revalidation.HistoryBoundImplied | crates/paraegox-deployment/src/controller_journal.rs:69-75 | the 256-record bound, one commit per revision and fewer archives than revisions already force at most 127 archives |
| Revalidation.LineageUnderRefresh | crates/paraegox-deployment/src/controller_journal.rs:2096-2129 | stored query lineage survives every legal binding refresh, epoch advance included |
| Revalidation.HighWaterCoversPrior | crates/paraegox-deployment/src/controller_journal.rs:2361-2371 | a response at or above the journal-wide high water cannot regress behind its own rollout: the second regression test never fires alone |
| Progress.InitialIsValid | crates/paraegox-deployment/src/controller_journal.rs:1716-1743 | a first state is fresh, and valid exactly when the manifest fits |
| Progress.PreparedPlanCommits | crates/paraegox-deployment/src/controller_journal.rs:1822-1902 | a plan prepared with nothing else pending commits exactly when no unreleased rollout stands in its way, revision and content are in bounds, the result fits, the content describes the new allocation and no earlier plan has the same digest; what it leaves is given in full |
| Progress.PreparedTenureCommits | crates/paraegox-deployment/src/controller_journal.rs:2045-2092 | after a tenure was prepared, the commit call with an answer whose proof outranks and supersedes the committed ones succeeds exactly when the result fits |
| Progress.PreparedTenureMarks | crates/paraegox-deployment/src/controller_journal.rs:2012-2043 | after a tenure was prepared, the call that marks it uncertain succeeds exactly when the result fits |
| Progress.FreshQueryAdmissible | crates/paraegox-deployment/src/controller_query.rs:504-547 | a freshly built query is admissible exactly when it binds the request digest, speaks for the apply's principal with the pinned Ed25519 key, and fits |
| Progress.FreshQueryAccepted | crates/paraegox-deployment/src/controller_journal.rs:2237-2326 | a freshly built query under unused identities is accepted exactly when it speaks for the apply, the last query is resolved and not terminal for the current epoch, there is room for one more and the result fits; and then it leads nowhere but to that query appended |
| Progress.OpenQueryCloses | crates/paraegox-deployment/src/controller_journal.rs:2384-2423 | the call that closes an open query succeeds, for every closure, exactly when the result fits |
| Progress.OpenQueryAnswers | crates/paraegox-deployment/src/controller_journal.rs:2330-2382 | the call that records a valid answer to an open query succeeds exactly when the answer is at or above the journal-wide high water and the result fits |
| Outcomes.CallsAsIntended | crates/paraegox-deployment/src/controller_journal.rs:1765-2499 | from every valid state, for each of the fourteen mutators, a call succeeds with a result exactly when that result is the intended one: when it is accepted, final validation included, and the state it leaves, row by row and field by field |
| Outcomes.CommitBlocked | crates/paraegox-deployment/src/controller_journal.rs:2533-2559 | a plan commit that only the current rollout holds up fails with the conflict error on conflicting evidence, and as blocked by a rollout that is not settled otherwise |
| Successors.MutatorsSucceed | crates/paraegox-deployment/src/controller_journal.rs:3162-3243 | every successful mutator call, idempotent ones included, yields a state the successor relation accepts |
| Successors.MutatorsCommit | crates/paraegox-deployment/src/controller_journal.rs:4167-4212 | its snapshot is accepted too, exactly unless the sequence is exhausted or authentication is rotated on a still fresh state |
| Successors.FreshStep | crates/paraegox-deployment/src/controller_journal.rs:2973-2984 | only rotating authentication leaves a fresh state fresh |
| Runs.ArchiveExact | crates/paraegox-deployment/src/controller_journal.rs:3910-3957 | although the relation only asks that archived rollouts be retained somewhere, a step that changes the plan appends exactly the current rollout to the archive |
| Runs.ConflictAbsorbing | crates/paraegox-deployment/src/controller_journal.rs:2425-2436 | once evidence conflicts, no continuation of any length changes that rollout, the plan or the archive |
| Runs.EveryArchiveWasSettled | crates/paraegox-deployment/src/controller_journal.rs:2533-2559 | every rollout archived along a chain was the current one at some step and was then settled in the binding's epoch of that moment, all its queries resolved |
| Runs.ExpectationOfSettled | crates/paraegox-deployment/src/controller_journal.rs:2782-2831 | in any valid state the expected slice is the last archived slice exactly when that rollout was settled |
| Runs.CompareAndSwapChain | crates/paraegox-deployment/src/controller_journal.rs:2782-2831 | from an empty archive on, the expectation is always the slice archived last, and none only when nothing is archived |
| Runs.OneIntentPerRevision | crates/paraegox-deployment/src/controller_journal.rs:2501-2531 | one plan revision has at most one apply intent over any chain |
| Runs.TerminalLost | crates/paraegox-deployment/src/controller_journal.rs:1350-1357 | a rollout stops being terminal only without a direct receipt, by a query prepared after the epoch left its observation behind |
| Runs.FencedForever | crates/paraegox-deployment/src/controller_journal.rs:2872-2941 | fencing for whole journals: proofs stay, superseded proofs are never live again, one writer at a time |
| Mutations.Idempotent | crates/paraegox-deployment/src/controller_journal.rs:1765-2479 | repeating any successful mutator on its own result succeeds and changes nothing |
| Mutations.RunIsChain | crates/paraegox-deployment/src/controller_journal.rs:1765-2479 | every run of mutators from a valid state is a chain the store accepts |
| Mutations.DeltaAppliedOnce | crates/paraegox-deployment/src/controller_journal.rs:1858-1866 | however late a plan commit is retried, its allocation delta is not applied again |
| Mutations.QueryHistory | crates/paraegox-deployment/src/controller_journal.rs:2330-2382 | along any mutator run observed sequences never regress across rollouts, and ids, digests and nonces are never reused |
| Mutations.HighWaterIsLast | crates/paraegox-deployment/src/controller_journal.rs:3721-3723 | in such a history the stored high water is the last observed sequence |
| Mutations.QueryReopens | crates/paraegox-deployment/src/controller_journal.rs:2294-2326 | preparing a query leaves the rollout terminal exactly when a direct receipt is durable |
| Validators.CheckOperations | crates/paraegox-deployment/src/controller_journal.rs:3347-3407 | the sort, count and contiguity passes accept exactly the ledgers with one commit per revision, distinct plan digests and generations rising by at most one |
| Validators.CheckTenures | crates/paraegox-deployment/src/controller_journal.rs:3455-3522 | the pass over tenure rows decides exactly the table condition |
| EvidenceChecks.CheckRollout | crates/paraegox-deployment/src/controller_journal.rs:1283-1339 | the pass with one last sequence and one id set decides exactly rollout validity |
| EvidenceChecks.CheckLineage | crates/paraegox-deployment/src/controller_journal.rs:3832-3891 | the pass decides query lineage and freshness against everything seen before, and carries the maximum |
| EvidenceChecks.CheckEvidence | crates/paraegox-deployment/src/controller_journal.rs:3625-3725 | neighbour comparisons and collected sets decide exactly the archive order, apply identities, query identities and high water of the whole journal |
| Mutators.PredictLength | crates/paraegox-deployment/src/controller_journal.rs:4610-4763 | the accumulated length is the sum of the record lengths |
| Mutators.Validate | crates/paraegox-deployment/src/controller_journal.rs:3016-3160 | the whole validator decides exactly validity |
| Mutators.Mutate | crates/paraegox-deployment/src/controller_journal.rs:2481-2499 | the executed call, with the validator's loops, ends on a valid state with the intended result if there is one, and with an error otherwise |
| Mutators.Succeed | crates/paraegox-deployment/src/controller_journal.rs:4167-4212 | the next snapshot exists exactly for legal, non-fresh successors below the last sequence |
| Classifier.ErrorsExactlyOnConflict | crates/paraegox-deployment/src/controller_reconcile.rs:332-352 | the classifier errs exactly when the journal sees conflicting evidence |
| Classifier.FollowsMeansLater | crates/paraegox-deployment/src/controller_journal.rs:1520-1552 | in a valid state a receipt follows the observation exactly when it completed strictly later in the same epoch |
| Classifier.ClassifierAgrees | crates/paraegox-deployment/src/controller_reconcile.rs:314-543 | for every valid state with an undecided observation the journal commits the verdict, refusing only a Prepared that a standing receipt rules out |
| Classifier.TerminalVerdictIff | crates/paraegox-deployment/src/controller_reconcile.rs:353-543 | a terminal verdict is reported exactly when the journal would record it, the observation is of the current epoch, and the signed request is exactly the plan's |
| Classifier.SettledVerdictIff | crates/paraegox-deployment/src/controller_reconcile.rs:353-543 | Active or Retired is reported exactly when the stored request is the plan's, the Runtime has reached it in the current epoch, reports its terminal result, is live or at zero as the shape asks, and no receipt says otherwise |
| Classifier.PreparedVerdictIff | crates/paraegox-deployment/src/controller_reconcile.rs:386-543 | Prepared is reported exactly when the stored request is the plan's, the Runtime has reached it in the current epoch, and knows the apply in one of the three phases before the terminal one |
| Classifier.DecisionReplays | crates/paraegox-deployment/src/controller_reconcile.rs:266-300 | committing a terminal verdict leaves a state that classifies to that verdict again |
| Classifier.TerminalReplayStable | crates/paraegox-deployment/src/controller_journal.rs:1503-1518 | until plan or epoch moves, every later state keeps the same attempts and the same verdict, even after a direct receipt arrives |
| Classifier.BlockedStep | crates/paraegox-deployment/src/controller_journal.rs:2425-2479 | a rollout whose Prepared verdict a standing receipt rules out takes no closure, query, other receipt or plan commit: only a decision on that very observation can change it |
| Classifier.BlockedUntilEpochPasses | crates/paraegox-deployment/src/controller_reconcile.rs:314-543 | over every chain that leaves it undecided, that refusal is met again exactly until the binding's epoch passes the observation's, and the verdict is then Uncertain and accepted |
| Worlds.AtMostOnce | crates/paraegox-deployment/src/controller_query.rs:353-393 | over any run with crashes, rejected and uncertain commits no query identity reaches the exchange twice, and only while its exact request is durable, current and open |
| Worlds.NeverSentAfterResolved | crates/paraegox-deployment/src/controller_query.rs:653-682 | no query is sent after it has been closed, answered or archived |
| Worlds.OneRequestPerRevision | crates/paraegox-deployment/src/controller_apply.rs:334-357 | whatever is sent to apply one plan revision, over any crashing run, is the same bytes |
| Worlds.NoApplyAfterReceipt | crates/paraegox-deployment/src/controller_apply.rs:334-357 | no apply exchange starts once a direct receipt is durable |
| Worlds.NoTenureSendAfterProof | crates/paraegox-deployment/src/controller_tenure.rs:96-211 | over any crashing run a tenure request is sent only while it is durable and unanswered, and never after a proof is committed under its operation |
| Stores.Store.Commit | crates/paraegox-deployment/src/controller_store.rs:656-703 | publishes exactly legal successors; every failure stops the handle, with the disk unchanged or, when uncertain, possibly advanced |
| Stores.Store.CrashAndReopen | crates/paraegox-deployment/src/controller_store.rs:573-620 | reopening starts from the durable snapshot with nothing left in memory |
| Stores.Store.SentOnce | crates/paraegox-deployment/src/controller_query.rs:353-393 | on any store object, after any calls and crashes, no query identity has been sent twice |
| Queries.PrepareFresh | crates/paraegox-deployment/src/controller_query.rs:463-502 | a token is returned only after its exact request, under the offered identity, is durable and open; an unresolved query is never replaced; it is prepared whenever nothing objects, the journal takes it and the commit goes through |
| Queries.PrepareAllowed | crates/paraegox-deployment/src/controller_query.rs:463-612 | in a valid state a fresh query may be prepared exactly by the store's owner with the pinned key, about a rollout whose last query is resolved and its own |
| Queries.QueryOnce | crates/paraegox-deployment/src/controller_query.rs:353-393 | a token that stands is sent once, a stale one not at all; an answer is recorded on the token's own query, a failure closes it with its own kind and a foreign answer as rejected; that is reported only when durable, always when the journal takes it and the commit goes through, and nothing else reaches the disk |
| Queries.TokenStands | crates/paraegox-deployment/src/controller_query.rs:653-682 | a token stands exactly while its query is the open one, in its store, under the channel, key and baseline it was prepared with |
| Queries.CommitResponse | crates/paraegox-deployment/src/controller_query.rs:405-461 | an answer is durable before it is returned, one already there is returned again, and a foreign one closes the query as rejected; success and disk contents are exact |
| Queries.CommitClosure | crates/paraegox-deployment/src/controller_query.rs:370-390 | the very closure is durable when reported, is reported whenever the journal takes it and the commit goes through, and nothing else reaches the disk |
| Queries.PreparedIsDurable | crates/paraegox-deployment/src/controller_query.rs:492-501 | a freshly prepared query always passes the checks made when it is read back |
| Reconciling.CloseRecovered | crates/paraegox-deployment/src/controller_query.rs:234-337 | success means the loss of the send permission is durable; an open query the caller saw is closed whenever the journal takes it and the commit goes through, and one closed since is accepted as it is |
| Reconciling.RecoverAllowed | crates/paraegox-deployment/src/controller_query.rs:311-337 | recovery works exactly for the store's owner who made the undecided query with the key it still holds, and shows that query as it is |
| Reconciling.CommitDecision | crates/paraegox-deployment/src/controller_reconcile.rs:266-300 | a verdict is returned only when it is the durable decision, and always when it is the classifier's, the journal takes it and the commit goes through; a terminal one will be replayed; a refused one changes nothing |
| Reconciling.DecideAnswer | crates/paraegox-deployment/src/controller_reconcile.rs:194-300 | the classifier's verdict on the durable answer and no other is decided, on the disk as well; it is returned whenever no standing receipt rules it out, it fits and the commit goes through; a blocked or conflicting one is an error and changes nothing |
| Reconciling.Reconcile | crates/paraegox-deployment/src/controller_reconcile.rs:100-200 | one invocation makes at most one exchange and three commits; a terminal decision is replayed without send or change; an answer left over is decided as the classifier says, an unanswered query closed; otherwise a fresh query is sent and its answer decided, or its failure closed as Uncertain; each of these always succeeds when the journal takes the steps and the commits go through, and no decision but the classifier's ever reaches the disk |
| Reconciling.ReplayPersists | crates/paraegox-deployment/src/controller_reconcile.rs:100-200 | a verdict replayable at any durable state of a store object's past is replayable now, through any calls and crashes, while plan revision and epoch are the same |
| Reconciling.ReconcileLater | crates/paraegox-deployment/src/controller_reconcile.rs:100-200 | every later invocation by the same owner in the same revision and epoch returns the terminal verdict again, with no send and no change |
| Reconciling.ReconcileTwice | crates/paraegox-deployment/src/controller_reconcile.rs:100-200 | two invocations in a row agree on a terminal verdict, whatever replies, identities and commit outcomes they meet |
| Applying.PrepareApply | crates/paraegox-deployment/src/controller_apply.rs:414-462 | returns the durable request's own bytes, only while it stands and is the plan's own and the bootstrap evidence shows the pinned manifest, profile, admission policy and a ready Runtime; with a durable request nothing changes; otherwise a fresh one is recorded and returned, whenever it can be built and signed, the journal takes it and the commit goes through |
| Applying.FreshRequestAsks | crates/paraegox-deployment/src/controller_apply.rs:464-557 | a fresh request asks for exactly the execution of the committed plan, for a loop the instance and domain of the one active allocation record, with every other field as plan, binding, live tenure, archive and offered identity say |
| Applying.ReplayAllowed | crates/paraegox-deployment/src/controller_apply.rs:295-316 | for the provisioned owner with the right key and a ready Runtime, and nobody else, a standing request is replayed as it is, and without one a fresh request may be made |
| Applying.StandsIffRebuilt | crates/paraegox-deployment/src/controller_apply.rs:588-651 | a stored request stands exactly when building it again now, under its own identity and key, gives the same request |
| Applying.PreparedStands | crates/paraegox-deployment/src/controller_apply.rs:752-774 | a prepared request may be sent exactly while its store still has that very request as the current one |
| Applying.ApplyOnce | crates/paraegox-deployment/src/controller_apply.rs:334-411 | at most one exchange and one commit, none of either when terminal; a foreign channel, target or peer is refused with nothing changed; any other receipt is durable when returned, is returned whenever the journal takes it and the commit goes through, and nothing else reaches the disk |
| Applying.FreshRequestStands | crates/paraegox-deployment/src/controller_apply.rs:464-651 | a fresh request read back stands exactly when the pinned key is Ed25519 and the manifest admits it, and is then the request the classifier expects for the plan |
| Applying.FreshRequestSwapsLast | crates/paraegox-deployment/src/controller_apply.rs:491-498 | a fresh request expects exactly the slice of the apply archived before it |
| Applying.ReplayStopsForever | crates/paraegox-deployment/src/controller_apply.rs:628-633 | once a newer tenure proof is committed, a request under an older one is never replayed again |
| Tenancy.AcquireOnce | crates/paraegox-deployment/src/controller_tenure.rs:96-211 | at most one exchange, logged in the world, and two commits; success means the proof is durable, and it is a replay exactly when nothing was sent; an answer the journal takes is committed and its proof returned, an uncertain delivery is marked before it is reported, whenever the commits go through |
| Codecs.ValueOfDigits | crates/paraegox-deployment/src/controller_journal.rs:5527-5548 | reading a big-endian field gives back the number written |
| Codecs.ListLawful | crates/paraegox-deployment/src/controller_journal.rs:5550-5557 | counted sequences of lawful codecs are lawful |
| Codecs.BlobLawful | crates/paraegox-deployment/src/controller_journal.rs:5559-5567 | bounded length-prefixed bytes are lawful |
| Embedded.TenureLawful | crates/paraegox-deployment/src/controller_journal.rs:4947-5028 | tenure rows round-trip, and a row whose redundant facts differ from its request is refused |
| Payload.RolloutLawful | crates/paraegox-deployment/src/controller_journal.rs:5239-5431 | rollouts with receipts and attempts round-trip, and only valid ones are read |
| Body.PredictedLength | crates/paraegox-deployment/src/controller_journal.rs:4610-4763 | the independently written predictor is the real payload length for every state, over any record codecs of the predicted lengths |
| Body.HeldStates | crates/paraegox-deployment/src/controller_journal.rs:4792-4945 | a body can be written exactly when every field fits its width, every record can be written, the manifest is its wire's and the allocation is canonical |
| Snapshots.StorableStates | crates/paraegox-deployment/src/controller_journal.rs:4792-4945 | the format writes exactly the states whose fields fit their widths and whose embedded messages decode to what the state says |
| Snapshots.JournalFormatSound | crates/paraegox-deployment/src/controller_journal.rs:4792-5431 | the journal's format is lawful and measured by its capacity check, for every choice of canonical decoders, digests and checksum |
| Encoder.EncodeJournal | crates/paraegox-deployment/src/controller_journal.rs:4253-5500 | the encoder as it runs, appending field after field with its own codes for every enumeration, writes exactly the encoding the format describes |
| Envelope.ReadSnapshot | crates/paraegox-deployment/src/controller_journal.rs:4292-4340 | the cursor reads exactly what the fixed header positions say |
| Envelope.RoundTrip | crates/paraegox-deployment/src/controller_journal.rs:4253-4340 | decoding inverts encoding |
| Envelope.AcceptedIsCanonical | crates/paraegox-deployment/src/controller_journal.rs:4292-4340 | every accepted byte string is the encoding of its result |
| Disk.Write | crates/paraegox-deployment/src/controller_journal.rs:4249-4285 | writes exactly the valid states whose encoding fits, as that encoding |
| Disk.OpenBytes | crates/paraegox-deployment/src/controller_journal.rs:4292-4340 | opening reads the header by cursor and validates the result, and so computes exactly the open relation |
| Disk.MigrateBytes | crates/paraegox-deployment/src/controller_journal.rs:4342-4413 | the migration computes exactly the migration relation: no query evidence, and the payload read is the payload re-encoded |
| Disk.NeverTooLarge | crates/paraegox-deployment/src/controller_journal.rs:4253-4285 | encoding a validated snapshot can never fail for size |
| Disk.MigrationExact | crates/paraegox-deployment/src/controller_journal.rs:4342-4413 | version-7 bytes migrate to that very snapshot exactly when it has zero query high water and no attempts, and the normal open path refuses them |
| Disk.MigrationRewrites | crates/paraegox-deployment/src/controller_journal.rs:4350-4413 | the version-8 re-encoding differs only in the two version fields and the checksum |
| Archive.JournalOnDisk | crates/paraegox-deployment/src/controller_journal.rs:4249-4413 | for the journal's own format: every valid storable snapshot survives the disk, every file that opens is the encoding of the storable snapshot it opens to, and version-7 files migrate exactly without query evidence |
| Durability.InitialStorable | crates/paraegox-deployment/src/controller_journal.rs:1716-1743 | a first state can be written exactly when its identities are in width and its manifest is what its own wire decodes to |
| Durability.FirstKeepable | crates/paraegox-deployment/src/controller_journal.rs:4156-4165 | the first snapshot of a store, over a storable first state, is valid, in width and storable |
| Durability.CallsKeepStorable | crates/paraegox-deployment/src/controller_journal.rs:1765-2499 | each of the fourteen mutators, given in-width inputs whose messages are what their bytes decode to, leads from a storable state only to storable states |
| Durability.EverySnapshotSurvives | crates/paraegox-deployment/src/controller_journal.rs:4167-4413 | so every snapshot a store commits along a run of such calls, written in the journal's format and opened again, is the same snapshot |

## Left out

- Ed25519, SHA-256, key fingerprints and domain-separated digest builders: arbitrary functions; signature checks and the channel-binding digest check are not modelled, nor is the derivation of allocation identities from their keys.
- The inner layout of the PXAR, PXQR, PXQS, PXRT, bootstrap, manifest and tenure wires, and of plan content: only the facts the journal reads.
- Checks that an identity or digest is not all zero: folded into the types.
- The validator's error taxonomy: whatever it objects to is `InvalidState`; decoding errors are an absent result; a transition of an operation that its record constructor refuses is `InvalidOperationTransition`.
- 64-bit `usize` overflow inside length arithmetic: lengths are unbounded numbers, and every counter compared with a bound is bounded by it.
- Files, locks, temporary names, directory synchronisation and the re-reading of the active file: a commit has its three outcomes and the disk is one snapshot.
- Sockets, timeouts, randomness: replies and fresh identities are parameters.
- The bootstrap and initializer orchestrators, the command line, manifest ingress, the SDK stubs and repository tooling: provisioning and plumbing around this protocol.
- Accessors derived from the modelled ones, such as the active slice offered for a plan advance: projections of facts that are modelled.
- The payload decoder is a composition of pure decoders; the mutable cursor is modelled for the envelope header, where each of its reads is proved against a slice.
- Codecs.Map: a record's decoder checks its embedded facts after its fields have been read, not in between; acceptance and result are the same.
- Stores.Store.Commit: does not model the interval between re-reading the active file and replacing it, because one locked handle owns the store.
