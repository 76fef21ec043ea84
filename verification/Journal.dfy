/**
 The Controller journal: which states are valid, and the fourteen mutators.

 A mutator decides on a `Move`: keep the state, go to a new one, or refuse. The
 new state is then validated as a whole, exactly as the journal does; what that
 last validation can still object to is the subject of `Revalidation.dfy`.
 */
module Journal {
  import opened Types
  import opened Tables
  import opened Operations
  import Tenures
  import opened Rollouts
  import opened Allocations
  import opened Sizes

  // ------------------------------------------------------------------- validity

  predicate Coherent(c: Content, a: Allocation) {
    match (c.shape, c.subject)
    case (EmptyTarget, None) => forall r :: r in a.records ==> r.state.Tombstone?
    case (OneSourceLoop, Some(s)) =>
      exists r :: r in a.records && r.state.Active?
                  && r.key == s.key && r.instance == s.instance && r.domain == s.domain
                  && forall q :: q in a.records && q.state.Active? ==> q == r
    case _ => false
  }

  predicate Capacity(s: State) {
    && |s.operations| <= MAX_LEDGER_RECORDS
    && |s.tenures| <= MAX_TENURES
    && |s.history| <= MAX_HISTORY
    && |s.operations| + |s.history| + Flag(s.rollout.Some?) <= MAX_LEDGER_RECORDS
    && |s.history| <= (if s.Revision() == 0 then 0 else s.Revision() - 1)
  }

  /** The committed plan agrees with the ledger row that committed it. */
  predicate PlanFits(p: Plan, scope: Id, lineage: Id, a: Allocation, m: Manifest, ops: seq<Operation>) {
    && 0 < p.revision
    && p.scope == scope && p.lineage == lineage && p.target == a.target
    && p.content.manifest == m.digest
    && (exists o :: o in Committed(ops) && o.id == p.operation && o.intent == p.intent
                    && o.expected + 1 == p.revision && o.generation == Some(a.generation)
                    && o.planDigest == Some(p.planDigest))
    && Coherent(p.content, a)
  }

  predicate NothingCommitted(a: Allocation, ops: seq<Operation>) {
    && a.generation == 0 && a.highWater == 0 && a.records == []
    && Committed(ops) == {}
  }

  predicate BindingFits(b: Binding, a: Allocation, m: Manifest, plan: Option<Plan>) {
    && BindingWellFormed(b)
    && plan.Some?
    && b.target == a.target && b.target == m.target && b.target == plan.value.target
    && b.manifest == m.digest && b.manifest == plan.value.content.manifest
  }

  predicate IntentBound(i: Intent, target: Id, b: Option<Binding>) {
    && b.Some?
    && i.target == target && i.target == b.value.target && i.store == b.value.store
    && i.channelFingerprint == b.value.channelFingerprint && i.manifest == b.value.manifest
  }

  predicate ArchivedFits(r: Rollout, revision: nat, scope: Id, lineage: Id, target: Id, b: Option<Binding>,
                         current: nat) {
    var valid :=
      && RolloutValid(r) && !Conflicted(r) && IsTerminal(r)
      && IntentBound(r.intent, target, b)
      && Lineage(r, b.value, scope)
      && 0 < revision < current
      && Context(r, scope, lineage, revision, None);
    valid
  }

  /** Archived rollouts belong to distinct committed plans of strictly
      increasing revisions, all below the current one. */
  predicate HistoryFits(history: seq<Rollout>, ops: seq<Operation>, scope: Id, lineage: Id, target: Id,
                        b: Option<Binding>, current: nat) {
    var valid :=
      && (forall k :: 0 <= k < |history| ==>
            ArchivedFits(history[k], RevisionOf(ops, history[k].intent.planDigest), scope, lineage, target, b, current))
      && (forall j, k :: 0 <= j < k < |history| ==>
            RevisionOf(ops, history[j].intent.planDigest) < RevisionOf(ops, history[k].intent.planDigest));
    valid
  }

  predicate CurrentFits(r: Rollout, plan: Option<Plan>, scope: Id, lineage: Id, target: Id, b: Option<Binding>) {
    var valid :=
      && plan.Some?
      && RolloutValid(r)
      && IntentBound(r.intent, target, b)
      && Lineage(r, b.value, scope)
      && Context(r, scope, lineage, plan.value.revision, Some(plan.value.content.shape))
      && r.intent.planDigest == plan.value.planDigest
      && r.intent.target == plan.value.target
      && r.intent.manifest == plan.value.content.manifest;
    valid
  }

  predicate DistinctApplies(records: seq<Rollout>) {
    forall j, k :: 0 <= j < k < |records| ==>
      && records[j].intent.operation != records[k].intent.operation
      && records[j].intent.digest != records[k].intent.digest
  }

  predicate HasAttempt(records: seq<Rollout>, r: nat, i: nat) { r < |records| && i < |records[r].attempts| }

  function AttemptAt(records: seq<Rollout>, r: nat, i: nat): Attempt
    requires HasAttempt(records, r, i)
  {
    records[r].attempts[i]
  }

  /** No query id, digest or nonce is used twice anywhere in the journal. */
  ghost predicate DistinctQueries(records: seq<Rollout>) {
    forall r: nat, i: nat, q: nat, j: nat ::
      HasAttempt(records, r, i) && HasAttempt(records, q, j) && (r != q || i != j) ==>
        !SameQuery(AttemptAt(records, r, i).prepared.request, AttemptAt(records, q, j).prepared.request)
  }

  predicate ObservedAt(records: seq<Rollout>, r: nat, i: nat, sequence: nat) {
    && HasAttempt(records, r, i)
    && AttemptAt(records, r, i).observation.Some?
    && AttemptAt(records, r, i).observation.value.Sequence() == sequence
  }

  /** `high` is the highest observed snapshot sequence, or zero. */
  ghost predicate HighWater(records: seq<Rollout>, high: nat) {
    && (forall r: nat, i: nat, n: nat :: ObservedAt(records, r, i, n) ==> n <= high)
    && (high == 0 || exists r: nat, i: nat :: ObservedAt(records, r, i, high))
  }

  predicate LedgerValid(s: State) {
    var valid :=
      && AllocationValid(s.allocation)
      && s.allocation.target == s.manifest.target
      && Capacity(s)
      && OperationsValid(s.operations, s.Revision(), s.allocation.generation)
      && (s.plan.Some? ==> PlanFits(s.plan.value, s.scope, s.lineage, s.allocation, s.manifest, s.operations))
      && (s.plan.None? ==> NothingCommitted(s.allocation, s.operations))
      && (s.binding.Some? ==> BindingFits(s.binding.value, s.allocation, s.manifest, s.plan));
    valid
  }

  predicate EvidenceValid(s: State) {
    var valid :=
      && HistoryFits(s.history, s.operations, s.scope, s.lineage, s.allocation.target, s.binding, s.Revision())
      && (s.rollout.Some? ==>
            CurrentFits(s.rollout.value, s.plan, s.scope, s.lineage, s.allocation.target, s.binding));
    valid
  }

  ghost predicate IdentitiesValid(records: seq<Rollout>, high: nat) {
    var valid :=
      && DistinctApplies(records)
      && DistinctQueries(records)
      && HighWater(records, high);
    valid
  }

  ghost predicate Valid(s: State) {
    var valid :=
      && LedgerValid(s)
      && Tenures.TenuresValid(s.tenures, s.scope)
      && EvidenceValid(s)
      && IdentitiesValid(s.Records(), s.highWater)
      && SizeFits(s);
    valid
  }

  // ------------------------------------------------------------------- commands

  datatype IntentInput = IntentInput(target: Id, planDigest: Digest, slice: Digest, operation: Id,
                                     digest: Digest, request: SignedRequest)

  datatype Command =
    | PreparePlan(op: Id, candidate: Candidate)
    | CommitPlan(op: Id, candidate: Candidate)
    | TransitionOperation(op: Id, phase: OperationPhase, result: Option<Id>)
    | PrepareTenure(tenureRequest: TenureRequest, domain: Digest)
    | MarkTenureUncertain(tenureRequest: TenureRequest)
    | CommitTenure(tenureRequest: TenureRequest, tenureResponse: TenureResponse)
    | RecordBinding(binding: Binding)
    | RotateAuth(auth: AuthPin)
    | RecordIntent(input: IntentInput)
    | RecordDirect(receipt: Receipt)
    | PrepareQuery(query: QueryRequest)
    | RecordResponse(response: QueryResponse, channel: Channel)
    | CloseQuery(closure: Closure)
    | Decide(observed: Observed, terminal: Option<Id>)

  datatype Move = Same | Next(state: State) | Refuse(error: Error)

  /** Inputs carry the invariants their constructors enforce. */
  predicate WellFormed(c: Command) { c.RecordBinding? ==> BindingWellFormed(c.binding) }

  function CandidateObjection(h: Hashes, s: State, c: Candidate): Option<Error> {
    if || c.content.target != s.allocation.target || c.content.target != s.manifest.target
       || (s.binding.Some? && s.binding.value.target != c.content.target)
    then Some(CandidateTargetMismatch)
    else if || c.content.manifest != s.manifest.digest
            || (s.binding.Some? && s.binding.value.manifest != c.content.manifest)
    then Some(CandidateManifestMismatch)
    else if h.content(c.content) != c.contentDigest then Some(PlanContentDigestMismatch)
    else None
  }

  function IntentDigest(h: Hashes, s: State, revision: nat, c: Candidate): Digest {
    h.intent(s.scope, s.lineage, revision, c)
  }

  function PreparePlanMove(h: Hashes, s: State, op: Id, c: Candidate): Move {
    var objection := CandidateObjection(h, s, c);
    if objection.Some? then Refuse(objection.value)
    else match Find(s.operations, OpKey, op)
      case Some(k) =>
        if s.operations[k].intent == IntentDigest(h, s, s.operations[k].expected, c) then Same
        else Refuse(OperationConflict)
      case None =>
        if ApplyDelta(s.allocation, c.delta).None? then Refuse(InvalidAllocationTransition)
        else if |s.operations| == MAX_LEDGER_RECORDS then Refuse(OperationCapacityExceeded)
        else
          var o := Operation(op, IntentDigest(h, s, s.Revision(), c), s.Revision(), OpPrepared, None, None, None);
          Next(s.(operations := Insert(s.operations, OpKey, o)))
  }

  function CandidatePlan(h: Hashes, s: State, o: Operation, c: Candidate): Plan {
    Plan(s.scope, s.lineage, o.expected + 1, c.content.target, c.content, c.contentDigest,
         h.plan(s.scope, s.lineage, o.expected + 1, c.content), h.storage(c.content.bytes), o.id, o.intent)
  }

  /** The history a plan commit leaves: the current rollout is archived, if the
      gate lets it go. */
  function ArchiveForCommit(s: State): Result<seq<Rollout>> {
    if s.rollout.None? then Ok(s.history)
    else if s.binding.None? then Err(DanglingRollout)
    else
      match PermitsAdvance(s.rollout.value, s.binding.value)
      case Err(e) => Err(e)
      case Ok(permitted) =>
        if !permitted then Err(NonTerminalRolloutBlocksPlanCommit)
        else if |s.history| == MAX_HISTORY then Err(ApplyHistoryCapacityExceeded)
        else if exists r :: r in s.history
                            && (r.intent.operation == s.rollout.value.intent.operation
                                || r.intent.digest == s.rollout.value.intent.digest)
        then Err(ApplyOperationConflict)
        else Ok(s.history + [s.rollout.value])
  }

  function CommittedAs(o: Operation, generation: nat, digest: Digest): Operation {
    o.(phase := OpCommitted, generation := Some(generation), planDigest := Some(digest))
  }

  /** The state a plan commit leaves: row `k` committed under the new plan. */
  function AfterCommit(s: State, k: nat, allocation: Allocation, plan: Plan, history: seq<Rollout>): State
    requires k < |s.operations|
  {
    var o := CommittedAs(s.operations[k], allocation.generation, plan.planDigest);
    s.(allocation := allocation, plan := Some(plan), operations := s.operations[k := o],
       rollout := None, history := history)
  }

  function CommitPlanMove(h: Hashes, s: State, op: Id, c: Candidate): Move {
    var objection := CandidateObjection(h, s, c);
    var found := Find(s.operations, OpKey, op);
    if objection.Some? then Refuse(objection.value)
    else if found.None? then Refuse(MissingPreparedOperation)
    else
      var k := found.value;
      var o := s.operations[k];
      if IntentDigest(h, s, o.expected, c) != o.intent then Refuse(OperationConflict)
      else if o.expected >= U64_MAX then Refuse(RevisionExhausted)
      else if !(0 < |c.content.bytes| <= MAX_CONTENT_BYTES) then Refuse(PlanContentSize)
      else
        var plan := CandidatePlan(h, s, o, c);
        if !o.phase.OpPrepared? then
          if s.Revision() == plan.revision && s.plan == Some(plan) && MatchesDelta(s.allocation, c.delta)
          then Same else Refuse(InvalidOperationTransition)
        else if s.Revision() != o.expected then Refuse(StalePlanOperation)
        else if exists p :: p in s.operations && p.id != op && p.expected == s.Revision()
                            && (p.phase.OpPrepared? || p.phase.OpUncertain?)
        then Refuse(UnresolvedPlanOperationBlocksCommit)
        else
          match ArchiveForCommit(s)
          case Err(e) => Refuse(e)
          case Ok(history) =>
            match ApplyDelta(s.allocation, c.delta)
            case None => Refuse(InvalidAllocationTransition)
            case Some(allocation) =>
              Next(AfterCommit(s, k, allocation, plan, history))
  }

  function TransitionMove(s: State, op: Id, phase: OperationPhase, result: Option<Id>): Move {
    match Find(s.operations, OpKey, op)
    case None => Refuse(MissingPreparedOperation)
    case Some(k) =>
      var o := s.operations[k];
      var o' := o.(phase := phase, result := result);
      if !o.phase.Permits(phase) || !OperationValid(o') then Refuse(InvalidOperationTransition)
      else if o.result.Some? && o.result != result then Refuse(OperationFactChanged)
      else Next(s.(operations := s.operations[k := o']))
  }

  function PrepareTenureMove(s: State, q: TenureRequest, domain: Digest): Move {
    if q.scope != s.scope then Refuse(TenureScopeMismatch)
    else match FirstTenureCollision(s.tenures, q)
      case Some(t) =>
        if t.request.wire == q.wire then
          if t.domain == domain then Same else Refuse(TenureAuthorityDomainMismatch)
        else Refuse(TenureTransactionConflict)
      case None =>
        if |s.tenures| == MAX_TENURES then Refuse(TenureCapacityExceeded)
        else if exists t :: t in s.tenures && Tenures.Unresolved(t)
        then Refuse(UnresolvedTenureTransactionExists)
        else Next(s.(tenures := Insert(s.tenures, Tenures.TenureKey, Tenure(q, domain, TenurePrepared, None))))
  }

  function FirstTenureCollision(ts: seq<Tenure>, q: TenureRequest): (r: Option<Tenure>)
    ensures r.None? <==> forall t :: t in ts ==> !Tenures.SameIdentity(t.request, q)
    ensures r.Some? ==> r.value in ts && Tenures.SameIdentity(r.value.request, q)
  {
    if ts == [] then None
    else if Tenures.SameIdentity(ts[0].request, q) then Some(ts[0])
    else FirstTenureCollision(ts[1..], q)
  }

  function MarkUncertainMove(s: State, q: TenureRequest): Move {
    match Find(s.tenures, Tenures.TenureKey, q.operation)
    case None => Refuse(MissingTenureTransaction)
    case Some(k) =>
      var t := s.tenures[k];
      if t.request.wire != q.wire then Refuse(TenureTransactionConflict)
      else match t.phase
        case TenurePrepared => Next(s.(tenures := s.tenures[k := t.(phase := TenureUncertain)]))
        case TenureUncertain => Same
        case TenureCommitted => Refuse(InvalidTenureTransition)
  }

  function CommitTenureMove(s: State, q: TenureRequest, r: TenureResponse): Move {
    if !Tenures.Answers(r, q) then Refuse(InvalidTenureTransaction)
    else match Find(s.tenures, Tenures.TenureKey, q.operation)
      case None => Refuse(MissingTenureTransaction)
      case Some(k) =>
        var t := s.tenures[k];
        // canonical bytes determine the request
        if t.request.wire != q.wire || t.request != q then Refuse(TenureTransactionConflict)
        else if t.phase.TenureCommitted? then
          if t.response == Some(r) then Same else Refuse(TenureTransactionConflict)
        else
          var objection := Tenures.ProofObjection(s.tenures, q.operation, r.proof);
          if objection.Some? then Refuse(objection.value)
          else Next(s.(tenures := s.tenures[k := t.(phase := TenureCommitted, response := Some(r))]))
  }

  /** A binding keeps its identity, its epoch never goes back, and within one
      epoch its evidence is immutable. */
  predicate BindingSuccessor(b: Binding, was: Binding) {
    && b.target == was.target && b.store == was.store && b.channelFingerprint == was.channelFingerprint
    && b.manifest == was.manifest && b.firstEpoch == was.firstEpoch
    && was.lastEpoch <= b.lastEpoch
    && (b.lastEpoch == was.lastEpoch ==> b.bootstrap == was.bootstrap && b.runtimeAuth == was.runtimeAuth)
  }

  function RecordBindingMove(s: State, b: Binding): Move {
    if s.plan.None? then Refuse(TargetBindingWithoutPlan)
    else if b.target != s.allocation.target || b.target != s.manifest.target || b.target != s.plan.value.target
    then Refuse(TargetMismatch)
    else if b.manifest != s.manifest.digest || b.manifest != s.plan.value.content.manifest
    then Refuse(ManifestBindingMismatch)
    else if s.binding.Some? && !BindingSuccessor(b, s.binding.value) then Refuse(TargetBindingChanged)
    else Next(s.(binding := Some(b)))
  }

  predicate AuthSuccessor(a: AuthPin, was: AuthPin) {
    was.generation < a.generation || a == was
  }

  function RotateAuthMove(s: State, a: AuthPin): Move {
    if !AuthSuccessor(a, s.auth) then Refuse(AuthRotationRegression) else Next(s.(auth := a))
  }

  function NewIntent(input: IntentInput, b: Binding, auth: AuthPin): Intent {
    Intent(input.target, input.planDigest, input.slice, input.operation, input.digest, input.request,
           auth, b.store, b.channelFingerprint, b.manifest, b.runtimeAuth)
  }

  predicate SameApply(i: Intent, j: Intent) { i.operation == j.operation || i.digest == j.digest }

  function FirstApplyCollision(rs: seq<Rollout>, i: Intent): (r: Option<Rollout>)
    ensures r.None? <==> forall x :: x in rs ==> !SameApply(x.intent, i)
    ensures r.Some? ==> r.value in rs && SameApply(r.value.intent, i)
  {
    if rs == [] then None
    else if SameApply(rs[0].intent, i) then Some(rs[0])
    else FirstApplyCollision(rs[1..], i)
  }

  /** Whether this very apply is already recorded; a different one under the
      same identity, or any other current one, is an error. */
  function ApplyExists(s: State, i: Intent): Result<bool> {
    if s.rollout.Some? then
      if !SameApply(s.rollout.value.intent, i) then Err(CurrentRolloutExists)
      else if s.rollout.value.intent == i then Ok(true)
      else Err(ApplyOperationConflict)
    else
      match FirstApplyCollision(s.history, i)
      case None => Ok(false)
      case Some(r) => if r.intent == i then Ok(true) else Err(ApplyOperationConflict)
  }

  function RecordIntentMove(s: State, input: IntentInput): Move {
    if s.plan.None? || s.binding.None? then Refuse(DanglingRollout)
    else if !(0 < |input.request.bytes| <= MAX_SIGNED_REQUEST_BYTES) then Refuse(SignedRequestSize)
    else
      var i := NewIntent(input, s.binding.value, s.auth);
      match ApplyExists(s, i)
      case Err(e) => Refuse(e)
      case Ok(true) => Same
      case Ok(false) =>
        if || i.target != s.allocation.target || i.target != s.plan.value.target
           || i.target != s.binding.value.target
           || i.planDigest != s.plan.value.planDigest
           || i.manifest != s.plan.value.content.manifest
           || i.manifest != s.manifest.digest
        then Refuse(RolloutBindingMismatch)
        else Next(s.(rollout := Some(Rollout(i, None, []))))
  }

  function RecordDirectMove(s: State, receipt: Receipt): Move {
    if s.rollout.None? then Refuse(DanglingRollout)
    else
      var r := s.rollout.value;
      if !ReceiptAnswers(receipt, r.intent) then Refuse(InvalidDirectTerminalReceipt)
      else if r.direct.Some? then
        if r.direct.value == receipt then Same else Refuse(DirectTerminalReceiptChanged)
      else if r.Last().Some? && r.Last().value.DecidedTerminal()
              && !DirectMatches(receipt, r.Last().value.decision.value)
      then Refuse(ConflictingTerminalEvidence)
      else Next(s.(rollout := Some(r.(direct := Some(receipt)))))
  }

  function FirstQueryCollision(attempts: seq<Attempt>, q: QueryRequest): (r: Option<nat>)
    ensures r.None? <==> forall a :: a in attempts ==> !SameQuery(a.prepared.request, q)
    ensures r.Some? ==> r.value < |attempts| && SameQuery(attempts[r.value].prepared.request, q)
  {
    if attempts == [] then None
    else if SameQuery(attempts[0].prepared.request, q) then Some(0)
    else match FirstQueryCollision(attempts[1..], q)
         case None => None
         case Some(i) => Some(i + 1)
  }

  predicate QueryArchived(history: seq<Rollout>, q: QueryRequest) {
    exists r :: r in history && exists a :: a in r.attempts && SameQuery(a.prepared.request, q)
  }

  function PrepareQueryMove(s: State, q: QueryRequest): Move {
    if s.binding.None? || s.rollout.None? then Refuse(DanglingRollout)
    else
      var r := s.rollout.value;
      var b := s.binding.value;
      var p := NewPrepared(q, b, s.auth);
      if !PreparedValid(p, b, s.scope, r.intent) then Refuse(InvalidQueryRequest)
      else if QueryArchived(s.history, q) then Refuse(QueryIdentityConflict)
      else
        match FirstQueryCollision(r.attempts, q)
        case Some(i) =>
          var a := r.attempts[i];
          if a.prepared.request.wire != q.wire then Refuse(QueryIdentityConflict)
          else if a.closure.Some? then Refuse(QueryAlreadyClosed)
          else if i + 1 == |r.attempts| && a.observation.None? && a.decision.None? then Same
          else Refuse(QueryIdentityConflict)
        case None =>
          if r.Last().Some? && !r.Last().value.Resolved() then Refuse(DanglingQueryObservation)
          else if r.Last().Some? && DecidedCurrent(r.Last().value, b) then Refuse(EvidenceAfterTerminalDecision)
          else if |r.attempts| == MAX_ATTEMPTS then Refuse(ReconcileCapacityExceeded)
          else Next(s.(rollout := Some(r.(attempts := r.attempts + [Attempt(p, None, None, None)]))))
  }

  /** The latest query about the current rollout. */
  function LastAttempt(s: State): Option<Attempt> { if s.rollout.Some? then s.rollout.value.Last() else None }

  /** The current rollout with its last attempt replaced. */
  function WithLast(s: State, a: Attempt): State
    requires s.rollout.Some? && s.rollout.value.attempts != []
  {
    var r := s.rollout.value;
    s.(rollout := Some(r.(attempts := r.attempts[|r.attempts| - 1 := a])))
  }

  /** The most recent observation before the last attempt. */
  function PriorSequence(attempts: seq<Attempt>): Option<nat> {
    if attempts == [] then None
    else if attempts[|attempts| - 1].observation.Some? then
      Some(attempts[|attempts| - 1].observation.value.Sequence())
    else PriorSequence(attempts[..|attempts| - 1])
  }

  function RecordResponseMove(s: State, response: QueryResponse, channel: Channel): Move {
    if s.rollout.None? then Refuse(DanglingRollout)
    else if s.rollout.value.attempts == [] then Refuse(MissingPreparedQuery)
    else
      var attempts := s.rollout.value.attempts;
      var a := attempts[|attempts| - 1];
      var o := Observation(response, channel);
      var prior := PriorSequence(attempts[..|attempts| - 1]);
      if a.closure.Some? then Refuse(QueryAlreadyClosed)
      else if a.prepared.request.id != response.id then Refuse(QueryIdentityConflict)
      else if !ObservationValid(o, a.prepared) then Refuse(InvalidQueryResponse)
      else if a.observation.Some? then
        if a.observation.value == o then Same else Refuse(QueryEvidenceChanged)
      else if o.Sequence() < s.highWater then Refuse(QuerySequenceRegression)
      else if prior.Some? && o.Sequence() < prior.value then Refuse(QuerySequenceRegression)
      else Next(WithLast(s, a.(observation := Some(o))).(highWater := o.Sequence()))
  }

  function CloseQueryMove(s: State, closure: Closure): Move {
    if s.rollout.None? then Refuse(DanglingRollout)
    else if s.rollout.value.attempts == [] then Refuse(MissingPreparedQuery)
    else
      var a := s.rollout.value.Last().value;
      if a.observation.Some? || a.decision.Some? then Refuse(InvalidQueryClosure)
      else if a.closure.Some? then
        if a.closure.value == closure then Same else Refuse(QueryClosureChanged)
      else Next(WithLast(s, a.(closure := Some(closure))))
  }

  function DecideMove(s: State, observed: Observed, receipt: Option<Id>): Move {
    if s.rollout.None? then Refuse(DanglingRollout)
    else if Conflicted(s.rollout.value) then Refuse(ConflictingTerminalEvidence)
    else if s.rollout.value.attempts == [] then Refuse(DanglingRolloutDecision)
    else
      var r := s.rollout.value;
      var a := r.Last().value;
      if a.closure.Some? then Refuse(InvalidQueryClosure)
      else if a.observation.None? then Refuse(QueryNotCommittedBeforeDecision)
      else
        var o := a.observation.value;
        var d := Decision(o.response.id, o.Sequence(), observed, receipt);
        if !DecisionShape(observed, receipt) || (d.IsTerminal() && !TerminalMatches(o, observed, receipt.value))
        then Refuse(InvalidRolloutEvidence)
        else if r.direct.Some? && !DirectAllows(r.direct.value, a, d) then Refuse(ConflictingTerminalEvidence)
        else if a.decision.Some? then
          if a.decision.value == d then Same else Refuse(RolloutDecisionAlreadyCommitted)
        else Next(WithLast(s, a.(decision := Some(d))))
  }

  function MoveOf(h: Hashes, s: State, c: Command): Move {
    match c
    case PreparePlan(op, candidate) => PreparePlanMove(h, s, op, candidate)
    case CommitPlan(op, candidate) => CommitPlanMove(h, s, op, candidate)
    case TransitionOperation(op, phase, result) => TransitionMove(s, op, phase, result)
    case PrepareTenure(q, domain) => PrepareTenureMove(s, q, domain)
    case MarkTenureUncertain(q) => MarkUncertainMove(s, q)
    case CommitTenure(q, r) => CommitTenureMove(s, q, r)
    case RecordBinding(b) => RecordBindingMove(s, b)
    case RotateAuth(a) => RotateAuthMove(s, a)
    case RecordIntent(input) => RecordIntentMove(s, input)
    case RecordDirect(receipt) => RecordDirectMove(s, receipt)
    case PrepareQuery(q) => PrepareQueryMove(s, q)
    case RecordResponse(response, channel) => RecordResponseMove(s, response, channel)
    case CloseQuery(closure) => CloseQueryMove(s, closure)
    case Decide(observed, receipt) => DecideMove(s, observed, receipt)
  }

  /** How a call ends, given the verdict of the final validation on a new state. */
  function Concluded(m: Move, s: State, valid: bool): Result<State> {
    match m
    case Same => Ok(s)
    case Refuse(e) => Err(e)
    case Next(n) => if valid then Ok(n) else Err(InvalidState)
  }

  /** One mutator call: the move, then validation of the rebuilt state. */
  ghost function Apply(h: Hashes, s: State, c: Command): Result<State> {
    var m := MoveOf(h, s, c);
    Concluded(m, s, m.Next? && Valid(m.state))
  }

  lemma ApplyNext(h: Hashes, s: State, c: Command, m: State, valid: bool)
    requires MoveOf(h, s, c) == Next(m) && valid == Valid(m)
    ensures Apply(h, s, c) == Concluded(Next(m), s, valid)
  {
  }

  predicate Fresh(s: State) {
    && s.plan.None? && s.operations == [] && s.tenures == [] && s.binding.None? && s.highWater == 0
    && s.rollout.None? && s.history == []
    && s.allocation.generation == 0 && s.allocation.highWater == 0 && s.allocation.records == []
  }
}
