/**
 The values a DeploymentController keeps in its journal, and the facts it reads
 off the wire messages it stores.

 Opaque 16-byte identities and 32-byte digests are compared, never computed
 with, so they are natural numbers: big-endian bytes and numbers have the same
 order. Their widths matter only to the codec.
 */
module Types {

  type Id = nat
  type Digest = nat
  type byte = n: nat | n < 256
  type Bytes = seq<byte>

  datatype Option<+T> = None | Some(value: T)

  datatype Result<+T> = Ok(value: T) | Err(error: Error)

  /** The rejections the journal's mutators and its orchestrators distinguish.
      Everything the state validator can object to is `InvalidState`. */
  datatype Error =
    | InvalidState
    // plan operations
    | OperationConflict
    | OperationCapacityExceeded
    | MissingPreparedOperation
    | InvalidOperationTransition
    | OperationFactChanged
    | StalePlanOperation
    | UnresolvedPlanOperationBlocksCommit
    | NonTerminalRolloutBlocksPlanCommit
    | InvalidAllocationTransition
    | RevisionExhausted
    | CandidateTargetMismatch
    | CandidateManifestMismatch
    | PlanContentDigestMismatch
    | PlanContentSize
    // tenure
    | TenureScopeMismatch
    | TenureAuthorityDomainMismatch
    | TenureTransactionConflict
    | TenureCapacityExceeded
    | UnresolvedTenureTransactionExists
    | MissingTenureTransaction
    | InvalidTenureTransition
    | InvalidTenureTransaction
    | TenureEpochConflict
    | TenureEpochNotMonotonic
    | TenureSupersessionGap
    // binding and request authentication
    | TargetBindingWithoutPlan
    | TargetMismatch
    | ManifestBindingMismatch
    | TargetBindingChanged
    | AuthRotationRegression
    // rollout
    | DanglingRollout
    | SignedRequestSize
    | RolloutBindingMismatch
    | ApplyOperationConflict
    | CurrentRolloutExists
    | ApplyHistoryCapacityExceeded
    | InvalidDirectTerminalReceipt
    | DirectTerminalReceiptChanged
    | ConflictingTerminalEvidence
    // queries
    | InvalidQueryRequest
    | InvalidQueryResponse
    | QueryIdentityConflict
    | QueryAlreadyClosed
    | DanglingQueryObservation
    | EvidenceAfterTerminalDecision
    | ReconcileCapacityExceeded
    | MissingPreparedQuery
    | QueryEvidenceChanged
    | QuerySequenceRegression
    | InvalidQueryClosure
    | QueryClosureChanged
    | DanglingRolloutDecision
    | QueryNotCommittedBeforeDecision
    | InvalidRolloutEvidence
    | RolloutDecisionAlreadyCommitted
    // store, orchestrators
    | StoreStopped
    | InvalidSuccessor
    | PublishRejected
    | PublishUncertain
    | OwnerIdentityMismatch
    | SigningKeyMismatch
    | StoredRequestMismatch
    | MissingDurableQuery
    | DurableQueryAwaitingDecision
    | UnresolvedQueryUncertain
    | PreparedAttemptMismatch
    | PreparedAttemptNoLongerOpen
    | ExchangeFailed(closure: Closure)
    | RecoveredQueryEvidenceChanged
    | DecisionPersistenceMismatch
    | MissingCommittedTenureProof
    | BootstrapBindingMismatch
    | TenureExchangeFailed
    | UncertainPersistence
    | ReceiptMismatch
    | InvalidControllerIdentity
    | InvalidCommittedPlanShape
    | MissingDurableIntent
    // snapshots
    | SnapshotSequenceExhausted
    | FreshStateAfterInitialization

  // ---------------------------------------------------------------- planner

  datatype Shape = OneSourceLoop | EmptyTarget | Omitted

  datatype Subject = Subject(key: Id, instance: Id, domain: Id)

  datatype Content = Content(target: Id, shape: Shape, manifest: Digest,
                             subject: Option<Subject>, budgets: Option<nat>, bytes: Bytes)

  datatype AllocationState = Active | Tombstone

  datatype AllocationRecord =
    AllocationRecord(key: Id, ordinal: nat, instance: Id, domain: Id, state: AllocationState)

  /** Records are kept sorted by key. */
  datatype Allocation =
    Allocation(target: Id, generation: nat, highWater: nat, records: seq<AllocationRecord>)

  datatype Delta =
    Delta(base: nat, next: nat, highWater: nat, records: seq<AllocationRecord>)

  datatype Candidate = Candidate(content: Content, delta: Delta, contentDigest: Digest)

  datatype Manifest = Manifest(wire: Bytes, target: Id, digest: Digest, profile: Digest)

  /** The digest builders and the manifest's verdict on an apply request, which
      the model leaves uninterpreted. Every result holds for every choice of
      them; a result that needs two digests to differ says so. */
  datatype Hashes = Hashes(
    content: Content -> Digest,
    storage: Bytes -> Digest,
    plan: (Id, Id, nat, Content) -> Digest,
    intent: (Id, Id, nat, Candidate) -> Digest,
    admits: (Manifest, ApplyRequest) -> bool)

  datatype Plan = Plan(scope: Id, lineage: Id, revision: nat, target: Id, content: Content,
                       contentDigest: Digest, planDigest: Digest, storageChecksum: Digest,
                       operation: Id, intent: Digest)

  datatype OperationPhase = OpPrepared | OpCommitted | OpUncertain | OpTerminal {
    predicate Permits(next: OperationPhase) {
      match this
      case OpPrepared => true
      case OpCommitted => next.OpCommitted?
      case OpUncertain => next.OpUncertain? || next.OpTerminal?
      case OpTerminal => next.OpTerminal?
    }
  }

  datatype Operation = Operation(id: Id, intent: Digest, expected: nat, phase: OperationPhase,
                                 result: Option<Id>, generation: Option<nat>,
                                 planDigest: Option<Digest>)

  // ----------------------------------------------------------------- tenure

  /** `supersedes` is the highest epoch the proof fences explicitly. */
  datatype Proof = Proof(scope: Id, writer: Id, epoch: nat, supersedes: nat, nonce: Bytes,
                         envelope: Bytes)

  datatype TenureRequest = TenureRequest(wire: Bytes, operation: Id, scope: Id, writer: Id,
                                         intent: Digest, digest: Digest, nonce: Bytes, maxResponse: nat)

  datatype TenureResponse = TenureResponse(wire: Bytes, operation: Id, requestDigest: Digest,
                                           nonce: Bytes, proof: Proof, proofDigest: Digest,
                                           digest: Digest)

  datatype TenurePhase = TenurePrepared | TenureUncertain | TenureCommitted {
    predicate Permits(next: TenurePhase) {
      match this
      case TenurePrepared => true
      case TenureUncertain => !next.TenurePrepared?
      case TenureCommitted => next.TenureCommitted?
    }
  }

  datatype Tenure = Tenure(request: TenureRequest, domain: Digest, phase: TenurePhase,
                           response: Option<TenureResponse>)

  // ------------------------------------------------- authentication, binding

  datatype AuthPin = AuthPin(key: Id, algorithm: nat, version: nat, fingerprint: Digest,
                             generation: nat)

  datatype Channel = Channel(target: Id, peer: Id, endpoint: Digest, credentials: Digest)

  datatype RuntimeAuth = RuntimeAuth(bootstrapDigest: Digest, peer: Id, endpoint: Digest,
                                     credentials: Digest, key: Id, algorithm: nat, version: nat) {
    function ChannelTo(target: Id): Channel { Channel(target, peer, endpoint, credentials) }
  }

  datatype Serving = Serving(target: Id, store: Digest, sequence: nat, epoch: nat,
                             clockDomain: Id, clockGeneration: nat)

  /** What the Runtime answered when it was bound: which store and epoch serve, under
      which manifest, profile and admission policy, and whether it is ready. */
  datatype Bootstrap = Bootstrap(wire: Bytes, digest: Digest, serving: Serving, manifest: Digest,
                                 profile: Digest, policy: Digest, ready: bool)

  datatype Binding = Binding(target: Id, store: Digest, channelFingerprint: Digest,
                             manifest: Digest, firstEpoch: nat, lastEpoch: nat,
                             bootstrap: Bootstrap, runtimeAuth: RuntimeAuth)

  // ------------------------------------------------------------------ apply

  datatype Mode = LoopMode | DeactivateMode

  datatype LoopFacts = LoopFacts(instance: Id, domain: Id, budgets: nat)

  /** The facts of a decoded PXAR. `expectedActive` is the compare-and-swap
      guard, `proof` the writer tenure proof it carries. */
  datatype ApplyRequest = ApplyRequest(
    target: Id, slice: Digest, digest: Digest, store: Digest,
    scope: Id, lineage: Id, revision: nat, planDigest: Digest,
    operation: Id, expectedActive: Option<Digest>, proof: Proof,
    mode: Mode, executionTarget: Id, manifest: Digest, loop: Option<LoopFacts>,
    principal: Id, key: Id, algorithm: nat, version: nat, nonce: Bytes)

  /** Stored request bytes together with what the PXAR decoder makes of them. */
  datatype SignedRequest = SignedRequest(bytes: Bytes, decoded: Option<ApplyRequest>)

  datatype Intent = Intent(target: Id, planDigest: Digest, slice: Digest, operation: Id,
                           digest: Digest, request: SignedRequest, auth: AuthPin, store: Digest,
                           channelFingerprint: Digest, manifest: Digest, runtimeAuth: RuntimeAuth)

  datatype Outcome = LoopActive | DeactivatedExactZero | Unsuccessful(code: nat)

  datatype Lifecycle = ProvenNotStarted | MayHaveStarted

  datatype TerminalHead = PreservedNone | PreservedExisting(slice: Digest)
                        | CommittedIncoming(slice: Digest) {
    function Desired(): Option<Digest> { if PreservedNone? then None else Some(slice) }
  }

  /** A decoded PXRT: the Runtime's direct answer to one apply request. */
  datatype Receipt = Receipt(wire: Bytes, target: Id, store: Digest, scope: Id, operation: Id,
                             requestDigest: Digest, nonce: Bytes,
                             outcome: Outcome, lifecycle: Lifecycle, head: TerminalHead,
                             epoch: nat, sequence: nat, resultRef: Id,
                             peer: Id, key: Id, algorithm: nat, version: nat)

  // ---------------------------------------------------------------- queries

  /** A decoded PXQR. */
  datatype QueryRequest = QueryRequest(wire: Bytes, id: Id, digest: Digest, nonce: Bytes,
                                       target: Id, scope: Id, store: Digest, operation: Id,
                                       expectedDigest: Option<Digest>, principal: Id, key: Id,
                                       algorithm: nat, version: nat, maxResponse: nat)

  datatype OwnerState = Operational | ApplyDisabled | OwnershipUncertain

  datatype DurablePhase = PreparedNoEffects | FirstActionIntent | HeadCommittedRetiringOld
                        | TerminalPhase

  datatype Lookup = Known(requestDigest: Digest, phase: DurablePhase, result: Option<Id>)
                  | Conflict(existing: Digest) | Unknown | Indeterminate

  datatype DesiredHead = NoHead
                       | LoopHead(revision: nat, slice: Digest, manifest: Digest)
                       | EmptyHead(revision: nat, slice: Digest, manifest: Digest)

  datatype LiveState = LiveReady | ExactZero | OtherLive(code: nat)

  datatype QueryFacts = QueryFacts(serving: Serving, owner: OwnerState, lookup: Lookup,
                                   head: DesiredHead, revisionHighWater: nat, live: LiveState)

  /** A decoded PXQS. */
  datatype QueryResponse = QueryResponse(wire: Bytes, digest: Digest, id: Id,
                                         requestDigest: Digest, nonce: Bytes, facts: QueryFacts,
                                         peer: Id, key: Id, algorithm: nat, version: nat)

  datatype Prepared = Prepared(request: QueryRequest, auth: AuthPin, channel: Channel,
                               runtimeAuth: RuntimeAuth, baseline: Serving)

  datatype Observation = Observation(response: QueryResponse, channel: Channel) {
    function Sequence(): nat { response.facts.serving.sequence }
    function Epoch(): nat { response.facts.serving.epoch }
  }

  datatype Observed = ObservedPrepared | ObservedActive | ObservedRetired | ObservedUncertain

  datatype Decision = Decision(query: Id, sequence: nat, observed: Observed, receipt: Option<Id>) {
    predicate IsTerminal() { (observed.ObservedActive? || observed.ObservedRetired?) && receipt.Some? }
  }

  datatype Closure = NotSent | DeliveryUncertain | ResidentAuthorityLost | ResponseRejected

  datatype Attempt = Attempt(prepared: Prepared, observation: Option<Observation>,
                             closure: Option<Closure>, decision: Option<Decision>) {
    predicate Open() { observation.None? && closure.None? && decision.None? }
    predicate Resolved() { closure.Some? || (observation.Some? && decision.Some?) }
    predicate DecidedTerminal() { decision.Some? && decision.value.IsTerminal() }
  }

  datatype Rollout = Rollout(intent: Intent, direct: Option<Receipt>, attempts: seq<Attempt>) {
    function Last(): Option<Attempt> {
      if attempts == [] then None else Some(attempts[|attempts| - 1])
    }
  }

  // ------------------------------------------------------------------ state

  datatype State = State(
    scope: Id, lineage: Id, allocation: Allocation, manifest: Manifest,
    plan: Option<Plan>, operations: seq<Operation>, tenures: seq<Tenure>, auth: AuthPin,
    binding: Option<Binding>, highWater: nat, rollout: Option<Rollout>, history: seq<Rollout>)
  {
    /** The committed plan revision, zero before the first commit. */
    function Revision(): nat { if plan.Some? then plan.value.revision else 0 }

    /** Every rollout the journal retains, oldest first, the current one last. */
    function Records(): seq<Rollout> {
      history + (if rollout.Some? then [rollout.value] else [])
    }
  }

  datatype Snapshot = Snapshot(store: Digest, owner: Digest, sequence: nat, state: State)

  const U64_MAX: nat := 0xFFFF_FFFF_FFFF_FFFF
  const MAX_ALLOCATION_RECORDS: nat := 4096
  const MAX_LEDGER_RECORDS: nat := 256
  const MAX_TENURES: nat := 256
  const MAX_HISTORY: nat := (MAX_LEDGER_RECORDS - 1) / 2
  const MAX_ATTEMPTS: nat := 256
  const MAX_CONTENT_BYTES: nat := 4 * 1024 * 1024
  const MAX_SIGNED_REQUEST_BYTES: nat := 4 * 1024 * 1024
  const ED25519: nat := 1
}
