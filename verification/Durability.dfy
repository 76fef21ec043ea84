/**
 What a run reaches can be written: from a storable state, calls whose inputs are
 canonical and within their widths lead only to storable states, so every snapshot
 they commit survives the disk.
 */
module Durability {
  import opened Types
  import opened Tables
  import opened Operations
  import Tenures
  import opened Rollouts
  import opened Allocations
  import opened Journal
  import opened Revalidation
  import opened Successors
  import Mutations
  import Progress
  import opened Codecs
  import opened Layout
  import opened Embedded
  import opened Payload
  import opened Body
  import opened Envelope
  import opened Disk
  import opened Snapshots
  import opened Archive

  // ------------------------------------------------------------------- what comes in

  /** Digests have 32 bytes. */
  ghost predicate HashesInWidth(h: Hashes) {
    var wide :=
      && (forall c :: Wide(h.content(c), 32))
      && (forall b :: Wide(h.storage(b), 32))
      && (forall s, l, r, c :: Wide(h.plan(s, l, r, c), 32))
      && (forall s, l, r, c :: Wide(h.intent(s, l, r, c), 32));
    wide
  }

  /** The facts that decoders read have fixed widths. */
  ghost predicate WiresInWidth(w: Wires) {
    var wide :=
      && (forall b :: w.bootstrap(b).Some? ==> ServingStorable(w.bootstrap(b).value.serving))
      && (forall b :: w.queryResponse(b).Some? ==>
            var r := w.queryResponse(b).value;
            Wide(r.id, 16) && Wide(r.digest, 32) && Wide(r.facts.serving.sequence, 8));
    wide
  }

  predicate IntentInWidth(w: Wires, i: IntentInput) {
    && Wide(i.target, 16) && Wide(i.planDigest, 32) && Wide(i.slice, 32) && Wide(i.operation, 16) && Wide(i.digest, 32)
    && i.request.decoded == w.apply(i.request.bytes)
  }

  predicate CandidateInWidth(w: Wires, c: Candidate) {
    && w.content(c.content.target, c.content.bytes) == Some(c.content)
    && forall i :: 0 <= i < |c.delta.records| ==> AllocationStorable(c.delta.records[i])
  }

  predicate AnswerInWidth(w: Wires, r: TenureResponse) {
    && Wide(r.digest, 32) && Wide(r.proofDigest, 32) && |r.wire| <= MAX_TENURE_RESPONSE_BYTES
    && w.tenureResponse(r.wire) == Some(r)
  }

  /** The call's inputs are within their widths, and every message among them is what
      its bytes decode to. */
  predicate InputInWidth(w: Wires, c: Command) {
    match c
    case PreparePlan(op, candidate) => Wide(op, 16)
    case CommitPlan(op, candidate) => CandidateInWidth(w, candidate)
    case TransitionOperation(op, phase, result) => OptWide(result, 16)
    case PrepareTenure(q, domain) => TenureStorable(w, Tenure(q, domain, TenurePrepared, None))
    case MarkTenureUncertain(q) => true
    case CommitTenure(q, r) => AnswerInWidth(w, r)
    case RecordBinding(b) => BindingStorable(w, b)
    case RotateAuth(a) => AuthStorable(a)
    case RecordIntent(input) => IntentInWidth(w, input)
    case RecordDirect(receipt) => |receipt.wire| <= MAX_RECEIPT_BYTES && w.receipt(receipt.wire) == Some(receipt)
    case PrepareQuery(q) => w.queryRequest(q.wire) == Some(q)
    case RecordResponse(response, channel) => w.queryResponse(response.wire) == Some(response)
    case CloseQuery(closure) => true
    case Decide(observed, receipt) => OptWide(receipt, 16)
  }

  lemma U64Wide(n: nat)
    ensures Wide(n, 8) <==> n <= U64_MAX
  {
    assert Pow256(8) == U64_MAX + 1;
  }

  // --------------------------------------------------------------- one table at a time

  lemma HeldOperations(m: Bytes -> Option<Manifest>, k: Contents, s: State, ops: seq<Operation>)
    requires Held(m, k, s) && |ops| <= MAX_LEDGER_RECORDS && forall o :: o in ops ==> k.operation(o)
    ensures Held(m, k, s.(operations := ops))
  {
  }

  lemma HeldTenures(m: Bytes -> Option<Manifest>, k: Contents, s: State, ts: seq<Tenure>)
    requires Held(m, k, s) && |ts| <= MAX_TENURES && forall t :: t in ts ==> k.tenure(t)
    ensures Held(m, k, s.(tenures := ts))
  {
  }

  lemma HeldBindingAuth(m: Bytes -> Option<Manifest>, k: Contents, s: State, b: Option<Binding>, a: AuthPin)
    requires Held(m, k, s) && k.auth(a) && (b.Some? ==> k.binding(b.value))
    ensures Held(m, k, s.(binding := b, auth := a))
  {
  }

  lemma HeldRollout(m: Bytes -> Option<Manifest>, k: Contents, s: State, r: Rollout, high: nat)
    requires Held(m, k, s) && k.rollout(r) && Wide(high, 8)
    ensures Held(m, k, WithRollout(s, r, high))
  {
  }

  predicate AllocationHeld(k: Contents, a: Allocation) {
    && Wide(a.target, 16) && Wide(a.generation, 8) && Wide(a.highWater, 8) && AllocationValid(a)
    && forall r :: r in a.records ==> k.allocation(r)
  }

  lemma HeldCommit(m: Bytes -> Option<Manifest>, k: Contents, s: State, n: State)
    requires Held(m, k, s) && n == s.(allocation := n.allocation, plan := n.plan, operations := n.operations,
                                      rollout := None, history := n.history)
    requires AllocationHeld(k, n.allocation) && n.plan.Some? && k.plan(n.plan.value)
    requires |n.operations| <= MAX_LEDGER_RECORDS && forall o :: o in n.operations ==> k.operation(o)
    requires |n.history| <= MAX_HISTORY && forall r :: r in n.history ==> k.rollout(r)
    ensures Held(m, k, n)
  {
  }

  lemma HeldRows(m: Bytes -> Option<Manifest>, k: Contents, s: State)
    requires Held(m, k, s)
    ensures forall o :: o in s.operations ==> k.operation(o)
    ensures forall t :: t in s.tenures ==> k.tenure(t)
    ensures forall r :: r in s.Records() ==> k.rollout(r)
    ensures AllocationHeld(k, s.allocation)
  {
  }

  // ------------------------------------------------------------------ plan operations

  lemma InsertedOperation(h: Hashes, s: State, op: Id, c: Candidate)
    requires HashesInWidth(h) && Wide(op, 16) && Wide(s.Revision(), 8)
    ensures OperationStorable(Operation(op, IntentDigest(h, s, s.Revision(), c), s.Revision(), OpPrepared, None, None, None))
  {
  }

  lemma RevisionHeld(w: Wires, h: Hashes, s: State)
    requires Storable(w, h, s)
    ensures Wide(s.Revision(), 8)
  {
    U64Wide(0);
  }

  lemma PreparePlanStored(w: Wires, h: Hashes, s: State, op: Id, c: Candidate, n: State)
    requires HashesInWidth(h) && Storable(w, h, s) && PreparePlanMove(h, s, op, c) == Next(n) && Wide(op, 16)
    requires |n.operations| <= MAX_LEDGER_RECORDS
    ensures Storable(w, h, n)
  {
    var k := JournalContents(w, h);
    var o := Operation(op, IntentDigest(h, s, s.Revision(), c), s.Revision(), OpPrepared, None, None, None);
    PreparePlanGuards(h, s, op, c, n);
    HeldRows(w.manifest, k, s);
    RevisionHeld(w, h, s);
    InsertedOperation(h, s, op, c);
    InsertMembers(s.operations, OpKey, o);
    HeldOperations(w.manifest, k, s, n.operations);
  }

  lemma TransitionRow(s: State, op: Id, phase: OperationPhase, result: Option<Id>, n: State)
    requires TransitionMove(s, op, phase, result) == Next(n) && OptWide(result, 16)
    requires forall o :: o in s.operations ==> OperationStorable(o)
    ensures n == s.(operations := n.operations) && |n.operations| == |s.operations|
    ensures forall o :: o in n.operations ==> OperationStorable(o)
  {
    var k := Find(s.operations, OpKey, op).value;
    assert s.operations[k] in s.operations;
  }

  lemma TransitionStored(w: Wires, h: Hashes, s: State, op: Id, phase: OperationPhase, result: Option<Id>, n: State)
    requires Storable(w, h, s) && TransitionMove(s, op, phase, result) == Next(n) && OptWide(result, 16)
    requires |n.operations| <= MAX_LEDGER_RECORDS
    ensures Storable(w, h, n)
  {
    HeldRows(w.manifest, JournalContents(w, h), s);
    TransitionRow(s, op, phase, result, n);
    HeldOperations(w.manifest, JournalContents(w, h), s, n.operations);
  }

  lemma {:induction false} MergeMembers(rs: seq<AllocationRecord>, cs: seq<AllocationRecord>, ordinal: nat)
    requires Merge(rs, cs, ordinal).Some?
    ensures forall r :: r in Merge(rs, cs, ordinal).value.0 ==> r in rs || r in cs
    decreases |rs| + |cs|
  {
    if cs != [] {
      if rs != [] && rs[0].key < cs[0].key { MergeMembers(rs[1..], cs, ordinal); }
      else {
        var known := rs != [] && rs[0].key == cs[0].key;
        var retires := known && SameIdentity(rs[0], cs[0]);
        MergeMembers(if known then rs[1..] else rs, cs[1..], if retires then ordinal else ordinal + 1);
      }
    }
  }

  /** The allocation a delta leaves can be written. */
  lemma DeltaHeld(k: Contents, a: Allocation, d: Delta, b: Allocation)
    requires AllocationHeld(k, a) && ApplyDelta(a, d) == Some(b)
    requires forall r :: r in d.records ==> k.allocation(r)
    ensures AllocationHeld(k, b)
  {
    MergeMembers(a.records, d.records, a.highWater);
    U64Wide(a.generation);
    U64Wide(b.generation);
    U64Wide(b.highWater);
  }

  /** The plan a candidate becomes can be written. */
  lemma CandidatePlanStored(w: Wires, h: Hashes, s: State, o: Operation, c: Candidate)
    requires HashesInWidth(h) && CandidateInWidth(w, c) && CandidateObjection(h, s, c).None?
    requires Wide(s.scope, 16) && Wide(s.lineage, 16) && Wide(s.allocation.target, 16)
    requires OperationStorable(o) && o.expected < U64_MAX && 0 < |c.content.bytes| <= MAX_CONTENT_BYTES
    ensures PlanStorable(w, h, CandidatePlan(h, s, o, c))
  {
    U64Wide(o.expected + 1);
  }

  lemma CommittedRows(ops: seq<Operation>, k: nat, generation: nat, digest: Digest)
    requires k < |ops| && ops[k].phase.OpPrepared? && Wide(generation, 8) && Wide(digest, 32)
    requires forall o :: o in ops ==> OperationStorable(o)
    ensures forall o :: o in ops[k := CommittedAs(ops[k], generation, digest)] ==> OperationStorable(o)
  {
    assert ops[k] in ops;
  }

  lemma CommitHistory(s: State, history: seq<Rollout>)
    requires ArchiveForCommit(s) == Ok(history)
    ensures forall r :: r in history ==> r in s.Records()
  {
  }

  lemma CommitPlanStored(w: Wires, h: Hashes, s: State, op: Id, c: Candidate, n: State)
    requires HashesInWidth(h) && Storable(w, h, s) && CommitPlanMove(h, s, op, c) == Next(n) && CandidateInWidth(w, c)
    requires |n.operations| <= MAX_LEDGER_RECORDS && |n.history| <= MAX_HISTORY
    ensures Storable(w, h, n)
  {
    var k := JournalContents(w, h);
    CommitGuards(h, s, op, c, n);
    Mutations.CommitInputs(h, s, op, c, n);
    HeldRows(w.manifest, k, s);
    var i := Find(s.operations, OpKey, op).value;
    assert s.operations[i] in s.operations;
    DeltaHeld(k, s.allocation, c.delta, n.allocation);
    CandidatePlanStored(w, h, s, s.operations[i], c);
    CommittedRows(s.operations, i, n.allocation.generation, n.plan.value.planDigest);
    CommitHistory(s, n.history);
    HeldCommit(w.manifest, k, s, n);
  }

  // ------------------------------------------------------------------------- tenures

  lemma TenureRowStored(w: Wires, s: State, c: Command, h: Hashes, n: State)
    requires c.MarkTenureUncertain? || c.CommitTenure?
    requires MoveOf(h, s, c) == Next(n) && InputInWidth(w, c)
    requires forall t :: t in s.tenures ==> TenureStorable(w, t)
    ensures n == s.(tenures := n.tenures) && forall t :: t in n.tenures ==> TenureStorable(w, t)
  {
    var k := Find(s.tenures, Tenures.TenureKey, c.tenureRequest.operation).value;
    assert s.tenures[k] in s.tenures;
    assert TenureStorable(w, n.tenures[k]);
  }

  lemma TenureAdded(w: Wires, s: State, q: TenureRequest, domain: Digest, n: State)
    requires PrepareTenureMove(s, q, domain) == Next(n)
    requires TenureStorable(w, Tenure(q, domain, TenurePrepared, None))
    requires forall t :: t in s.tenures ==> TenureStorable(w, t)
    ensures n == s.(tenures := n.tenures) && forall t :: t in n.tenures ==> TenureStorable(w, t)
  {
    InsertMembers(s.tenures, Tenures.TenureKey, Tenure(q, domain, TenurePrepared, None));
  }

  lemma TenureStored(w: Wires, h: Hashes, s: State, c: Command, n: State)
    requires c.PrepareTenure? || c.MarkTenureUncertain? || c.CommitTenure?
    requires Storable(w, h, s) && MoveOf(h, s, c) == Next(n) && InputInWidth(w, c) && |n.tenures| <= MAX_TENURES
    ensures Storable(w, h, n)
  {
    HeldRows(w.manifest, JournalContents(w, h), s);
    if c.PrepareTenure? { TenureAdded(w, s, c.tenureRequest, c.domain, n); }
    else { TenureRowStored(w, s, c, h, n); }
    HeldTenures(w.manifest, JournalContents(w, h), s, n.tenures);
  }

  // ------------------------------------------------------------------------ rollouts

  predicate AttemptsStorable(w: Wires, attempts: seq<Attempt>) {
    forall i :: 0 <= i < |attempts| ==> AttemptStorable(w, attempts[i])
  }

  lemma RolloutParts(w: Wires, r: Rollout)
    requires RolloutValid(r) && IntentStorable(w, r.intent) && AttemptsStorable(w, r.attempts)
    requires r.direct.Some? ==>
               |r.direct.value.wire| <= MAX_RECEIPT_BYTES && w.receipt(r.direct.value.wire) == Some(r.direct.value)
    ensures RolloutStorable(w, r)
  {
  }

  lemma IntentStored(w: Wires, s: State, input: IntentInput, n: State)
    requires RecordIntentMove(s, input) == Next(n) && IntentInWidth(w, input)
    requires AuthStorable(s.auth) && s.binding.Some? && BindingStorable(w, s.binding.value)
    requires n.rollout.Some? && RolloutValid(n.rollout.value)
    ensures RolloutStorable(w, n.rollout.value)
  {
    RolloutParts(w, n.rollout.value);
  }

  lemma DirectStored(w: Wires, s: State, receipt: Receipt, n: State)
    requires RecordDirectMove(s, receipt) == Next(n) && InputInWidth(w, RecordDirect(receipt))
    requires s.rollout.Some? && RolloutStorable(w, s.rollout.value) && n.rollout.Some? && RolloutValid(n.rollout.value)
    ensures RolloutStorable(w, n.rollout.value)
  {
    RolloutParts(w, n.rollout.value);
  }

  lemma NewAttemptStored(w: Wires, q: QueryRequest, b: Binding, auth: AuthPin, scope: Id, i: Intent)
    requires WiresInWidth(w) && w.queryRequest(q.wire) == Some(q)
    requires PreparedValid(NewPrepared(q, b, auth), b, scope, i) && AuthStorable(auth) && BindingStorable(w, b)
    ensures AttemptStorable(w, Attempt(NewPrepared(q, b, auth), None, None, None))
  {
    assert w.bootstrap(b.bootstrap.wire).Some?;
  }

  lemma QueryStored(w: Wires, s: State, q: QueryRequest, n: State)
    requires WiresInWidth(w) && PrepareQueryMove(s, q) == Next(n) && w.queryRequest(q.wire) == Some(q)
    requires AuthStorable(s.auth) && s.binding.Some? && BindingStorable(w, s.binding.value)
    requires s.rollout.Some? && RolloutStorable(w, s.rollout.value) && n.rollout.Some? && RolloutValid(n.rollout.value)
    ensures RolloutStorable(w, n.rollout.value)
  {
    NewAttemptStored(w, q, s.binding.value, s.auth, s.scope, s.rollout.value.intent);
    RolloutParts(w, n.rollout.value);
  }

  lemma AnsweredStored(w: Wires, a: Attempt, o: Observation)
    requires WiresInWidth(w) && w.queryResponse(o.response.wire) == Some(o.response)
    requires AttemptStorable(w, a) && a.Open() && ObservationValid(o, a.prepared)
    requires a.prepared.request.maxResponse <= MAX_QUERY_RESPONSE_BYTES
    ensures AttemptStorable(w, a.(observation := Some(o))) && Wide(o.Sequence(), 8)
  {
  }

  lemma ClosedStored(w: Wires, a: Attempt, closure: Closure)
    requires AttemptStorable(w, a) && a.Open()
    ensures AttemptStorable(w, a.(closure := Some(closure)))
  {
  }

  lemma DecidedStored(w: Wires, a: Attempt, d: Decision)
    requires WiresInWidth(w) && AttemptStorable(w, a) && a.observation.Some? && OptWide(d.receipt, 16)
    requires d.query == a.observation.value.response.id && d.sequence == a.observation.value.Sequence()
    requires AttemptValid(a.(decision := Some(d)))
    ensures AttemptStorable(w, a.(decision := Some(d)))
  {
    assert w.queryResponse(a.observation.value.response.wire).Some?;
  }

  lemma LastStored(w: Wires, r: Rollout, a: Attempt)
    requires RolloutStorable(w, r) && r.attempts != [] && AttemptStorable(w, a)
    requires RolloutValid(ReplaceLast(r, a))
    ensures RolloutStorable(w, ReplaceLast(r, a))
  {
    RolloutParts(w, ReplaceLast(r, a));
  }

  /** What the three commands about the last query find and leave. */
  predicate LastChanges(s: State, c: Command, a: Attempt, a': Attempt, high: nat) {
    match c
    case RecordResponse(response, channel) =>
      var o := Observation(response, channel);
      a.Open() && ObservationValid(o, a.prepared) && a' == a.(observation := Some(o)) && high == o.Sequence()
    case CloseQuery(closure) => a.Open() && a' == a.(closure := Some(closure)) && high == s.highWater
    case Decide(observed, receipt) =>
      && a.observation.Some? && high == s.highWater
      && a' == a.(decision := Some(Decision(a.observation.value.response.id, a.observation.value.Sequence(), observed, receipt)))
    case _ => false
  }

  lemma LastCommand(h: Hashes, s: State, c: Command, n: State)
    requires c.RecordResponse? || c.CloseQuery? || c.Decide?
    requires MoveOf(h, s, c) == Next(n)
    requires s.rollout.Some? && RolloutValid(s.rollout.value)
    ensures s.rollout.value.attempts != [] && n.rollout.Some? && n.rollout.value.attempts != []
    ensures var r := s.rollout.value; var a' := n.rollout.value.Last().value;
            && n == WithRollout(s, ReplaceLast(r, a'), n.highWater)
            && LastChanges(s, c, r.Last().value, a', n.highWater)
  {
    var r := s.rollout.value;
    assert r.Last().value in r.attempts;
  }

  lemma AttemptStored(w: Wires, s: State, c: Command, a: Attempt, a': Attempt, high: nat)
    requires WiresInWidth(w) && InputInWidth(w, c) && LastChanges(s, c, a, a', high)
    requires AttemptStorable(w, a) && a.prepared.request.maxResponse <= MAX_QUERY_RESPONSE_BYTES && AttemptValid(a')
    requires Wide(s.highWater, 8)
    ensures AttemptStorable(w, a') && Wide(high, 8)
  {
    match c
    case RecordResponse(response, channel) => AnsweredStored(w, a, Observation(response, channel));
    case CloseQuery(closure) => ClosedStored(w, a, closure);
    case Decide(observed, receipt) => DecidedStored(w, a, a'.decision.value);
  }

  lemma LastCommandStored(w: Wires, h: Hashes, s: State, c: Command, n: State)
    requires WiresInWidth(w) && InputInWidth(w, c) && (c.RecordResponse? || c.CloseQuery? || c.Decide?)
    requires MoveOf(h, s, c) == Next(n) && n.rollout.Some? && RolloutValid(n.rollout.value)
    requires s.rollout.Some? && RolloutStorable(w, s.rollout.value) && Wide(s.highWater, 8)
    requires forall a :: a in s.rollout.value.attempts ==> a.prepared.request.maxResponse <= MAX_QUERY_RESPONSE_BYTES
    ensures n == WithRollout(s, n.rollout.value, n.highWater)
    ensures RolloutStorable(w, n.rollout.value) && Wide(n.highWater, 8)
  {
    LastCommand(h, s, c, n);
    var r, a' := s.rollout.value, n.rollout.value.Last().value;
    assert r.Last().value in r.attempts && a' in n.rollout.value.attempts;
    AttemptStored(w, s, c, r.Last().value, a', n.highWater);
    LastStored(w, r, a');
  }

  lemma FirstCommandFinds(h: Hashes, s: State, c: Command, n: State)
    requires c.RecordIntent? || c.RecordDirect? || c.PrepareQuery?
    requires MoveOf(h, s, c) == Next(n)
    ensures n.rollout.Some? && n == WithRollout(s, n.rollout.value, s.highWater)
    ensures c.RecordIntent? || s.rollout.Some?
    ensures c.RecordDirect? || s.binding.Some?
  {
  }

  lemma FirstCommandStored(w: Wires, h: Hashes, s: State, c: Command, n: State)
    requires WiresInWidth(w) && InputInWidth(w, c) && (c.RecordIntent? || c.RecordDirect? || c.PrepareQuery?)
    requires MoveOf(h, s, c) == Next(n) && n.rollout.Some? && RolloutValid(n.rollout.value)
    requires AuthStorable(s.auth) && (s.binding.Some? ==> BindingStorable(w, s.binding.value))
    requires s.rollout.Some? ==> RolloutStorable(w, s.rollout.value)
    ensures RolloutStorable(w, n.rollout.value)
  {
    FirstCommandFinds(h, s, c, n);
    match c
    case RecordIntent(input) => IntentStored(w, s, input, n);
    case RecordDirect(receipt) => DirectStored(w, s, receipt, n);
    case PrepareQuery(q) => QueryStored(w, s, q, n);
  }

  lemma HeldEvidence(m: Bytes -> Option<Manifest>, k: Contents, s: State)
    requires Held(m, k, s)
    ensures k.auth(s.auth) && (s.binding.Some? ==> k.binding(s.binding.value)) && Wide(s.highWater, 8)
    ensures s.rollout.Some? ==> k.rollout(s.rollout.value)
  {
  }

  /** What validity says about the current rollout, in small. */
  predicate CurrentSound(s: State) {
    s.rollout.Some? ==>
      && RolloutValid(s.rollout.value)
      && forall a :: a in s.rollout.value.attempts ==> a.prepared.request.maxResponse <= MAX_QUERY_RESPONSE_BYTES
  }

  lemma RolloutStored(w: Wires, h: Hashes, s: State, c: Command, n: State)
    requires c.RecordIntent? || c.RecordDirect? || c.PrepareQuery? || c.RecordResponse? || c.CloseQuery? || c.Decide?
    requires WiresInWidth(w) && InputInWidth(w, c) && Storable(w, h, s) && CurrentSound(s)
    requires MoveOf(h, s, c) == Next(n) && CurrentSound(n)
    ensures Storable(w, h, n)
  {
    HeldEvidence(w.manifest, JournalContents(w, h), s);
    RolloutCommandHasRollout(h, s, c, n);
    if c.RecordIntent? || c.RecordDirect? || c.PrepareQuery? {
      FirstCommandFinds(h, s, c, n);
      FirstCommandStored(w, h, s, c, n);
    } else {
      LastCommandStored(w, h, s, c, n);
    }
    HeldRollout(w.manifest, JournalContents(w, h), s, n.rollout.value, n.highWater);
  }

  // ------------------------------------------------------------------------ every call

  lemma BindingAuthStored(w: Wires, h: Hashes, s: State, c: Command, n: State)
    requires c.RecordBinding? || c.RotateAuth?
    requires InputInWidth(w, c) && Storable(w, h, s) && MoveOf(h, s, c) == Next(n)
    ensures Storable(w, h, n)
  {
    HeldEvidence(w.manifest, JournalContents(w, h), s);
    HeldBindingAuth(w.manifest, JournalContents(w, h), s, n.binding, n.auth);
  }

  /** Bounds that a valid state keeps. */
  predicate Bounded(s: State) {
    |s.operations| <= MAX_LEDGER_RECORDS && |s.tenures| <= MAX_TENURES && |s.history| <= MAX_HISTORY && CurrentSound(s)
  }

  lemma CurrentIsSound(s: State)
    requires EvidenceValid(s)
    ensures CurrentSound(s)
  {
    if s.rollout.Some? {
      var r := s.rollout.value;
      forall a | a in r.attempts ensures a.prepared.request.maxResponse <= MAX_QUERY_RESPONSE_BYTES {
        var i :| 0 <= i < |r.attempts| && r.attempts[i] == a;
        assert AttemptLineage(r, i, s.binding.value, s.scope);
      }
    }
  }

  lemma ValidIsBounded(s: State)
    requires Valid(s)
    ensures Bounded(s)
  {
    CurrentIsSound(s);
  }

  lemma MoveStored(w: Wires, h: Hashes, s: State, c: Command, n: State)
    requires HashesInWidth(h) && WiresInWidth(w) && InputInWidth(w, c) && Storable(w, h, s) && Bounded(s)
    requires MoveOf(h, s, c) == Next(n) && Bounded(n)
    ensures Storable(w, h, n)
  {
    if c.PreparePlan? { PreparePlanStored(w, h, s, c.op, c.candidate, n); }
    else if c.CommitPlan? { CommitPlanStored(w, h, s, c.op, c.candidate, n); }
    else if c.TransitionOperation? { TransitionStored(w, h, s, c.op, c.phase, c.result, n); }
    else if c.PrepareTenure? || c.MarkTenureUncertain? || c.CommitTenure? { TenureStored(w, h, s, c, n); }
    else if c.RecordBinding? || c.RotateAuth? { BindingAuthStored(w, h, s, c, n); }
    else { RolloutStored(w, h, s, c, n); }
  }

  lemma CallBounds(h: Hashes, s: State, c: Command, n: State)
    requires Valid(s) && Apply(h, s, c) == Ok(n) && n != s
    ensures MoveOf(h, s, c) == Next(n) && Bounded(s) && Bounded(n)
  {
    ValidIsBounded(s);
    ValidIsBounded(n);
  }

  /** Every successful call on a storable state leaves a storable state. */
  lemma CallsKeepStorable(w: Wires, h: Hashes, s: State, c: Command, n: State)
    requires HashesInWidth(h) && WiresInWidth(w) && InputInWidth(w, c)
    requires Valid(s) && Storable(w, h, s) && Apply(h, s, c) == Ok(n)
    ensures Storable(w, h, n)
  {
    if n != s {
      CallBounds(h, s, c, n);
      MoveStored(w, h, s, c, n);
    }
  }

  // ------------------------------------------------------------------- runs, on disk

  /** A first state is storable for the pinned manifest and in-width identities. */
  lemma InitialStorable(w: Wires, h: Hashes, scope: Id, lineage: Id, manifest: Manifest, auth: AuthPin)
    ensures Storable(w, h, Progress.Initial(scope, lineage, manifest, auth)) <==>
              && Wide(scope, 16) && Wide(lineage, 16) && Wide(manifest.target, 16) && Wide(manifest.digest, 32)
              && |manifest.wire| <= MAX_MANIFEST_BYTES && w.manifest(manifest.wire) == Some(manifest)
              && AuthStorable(auth)
  {
    U64Wide(0);
  }

  /** One commit: a call on the snapshot's state, then the next snapshot. */
  ghost predicate CommitsAt(h: Hashes, xs: seq<Snapshot>, cs: seq<Command>, i: nat)
    requires i + 1 < |xs| && i < |cs|
  {
    var n := Apply(h, xs[i].state, cs[i]);
    n.Ok? && TrySuccessor(xs[i], n.value) == Ok(xs[i + 1])
  }

  /** The snapshots a store commits one after the other. */
  ghost predicate Commits(h: Hashes, xs: seq<Snapshot>, cs: seq<Command>) {
    |xs| == |cs| + 1 && forall i :: 0 <= i < |cs| ==> CommitsAt(h, xs, cs, i)
  }

  predicate InputsInWidth(w: Wires, cs: seq<Command>) { forall i :: 0 <= i < |cs| ==> InputInWidth(w, cs[i]) }

  ghost predicate Keepable(fits: State -> bool, x: Snapshot) {
    var keepable := SnapshotValid(x) && SnapshotWide(x) && fits(x.state);
    keepable
  }

  function StorableIn(w: Wires, h: Hashes): State -> bool { StateHeld(w.manifest, JournalContents(w, h)) }

  /** The first snapshot of a store is one. */
  lemma FirstKeepable(fits: State -> bool, store: Digest, owner: Digest, scope: Id, lineage: Id, manifest: Manifest,
                      auth: AuthPin)
    requires Wide(store, 32) && Wide(owner, 32) && |manifest.wire| <= MAX_MANIFEST_BYTES
    requires fits(Progress.Initial(scope, lineage, manifest, auth))
    ensures Keepable(fits, Snapshot(store, owner, 1, Progress.Initial(scope, lineage, manifest, auth)))
  {
    Progress.InitialIsValid(scope, lineage, manifest, auth);
    U64Wide(1);
  }

  lemma NextKeepable(fits: State -> bool, h: Hashes, x: Snapshot, c: Command, n: State)
    requires Keepable(fits, x) && Apply(h, x.state, c) == Ok(n) && TrySuccessor(x, n).Ok? && fits(n)
    ensures Keepable(fits, TrySuccessor(x, n).value)
  {
    MutatorsCommit(h, x, c, n);
    U64Wide(x.sequence + 1);
  }

  ghost predicate AllKeepable(fits: State -> bool, xs: seq<Snapshot>) {
    forall i :: 0 <= i < |xs| ==> Keepable(fits, xs[i])
  }

  lemma CommitKeeps(w: Wires, h: Hashes, xs: seq<Snapshot>, cs: seq<Command>, i: nat)
    requires HashesInWidth(h) && WiresInWidth(w) && InputsInWidth(w, cs)
    requires Commits(h, xs, cs) && i < |cs| && Keepable(StorableIn(w, h), xs[i])
    ensures Keepable(StorableIn(w, h), xs[i + 1])
  {
    assert CommitsAt(h, xs, cs, i);
    var n := Apply(h, xs[i].state, cs[i]).value;
    CallsKeepStorable(w, h, xs[i].state, cs[i], n);
    NextKeepable(StorableIn(w, h), h, xs[i], cs[i], n);
  }

  lemma {:induction false} Carried(p: Snapshot -> bool, xs: seq<Snapshot>, i: nat)
    requires xs != [] && p(xs[0]) && i < |xs|
    requires forall k: nat :: k + 1 < |xs| && p(xs[k]) ==> p(xs[k + 1])
    ensures p(xs[i])
  {
    if i > 0 {
      var k: nat := i - 1;
      Carried(p, xs, k);
      assert p(xs[k + 1]);
    }
  }

  lemma RunKeeps(w: Wires, h: Hashes, xs: seq<Snapshot>, cs: seq<Command>)
    requires HashesInWidth(h) && WiresInWidth(w) && InputsInWidth(w, cs) && Commits(h, xs, cs)
    requires AllKeepable(StorableIn(w, h), xs[..1])
    ensures AllKeepable(StorableIn(w, h), xs)
  {
    var p: Snapshot -> bool := x => Keepable(StorableIn(w, h), x);
    assert xs[..1][0] == xs[0];
    forall k: nat | k + 1 < |xs| && p(xs[k]) ensures p(xs[k + 1]) { CommitKeeps(w, h, xs, cs, k); }
    forall i | 0 <= i < |xs| ensures p(xs[i]) { Carried(p, xs, i); }
  }

  ghost predicate Reopens(f: Format, x: Snapshot) { Open(f, Encode(f, PAYLOAD_VERSION, x)) == Some(x) }

  ghost predicate AllReopen(f: Format, xs: seq<Snapshot>) { forall i :: 0 <= i < |xs| ==> Reopens(f, xs[i]) }

  lemma KeepableReopens(f: Format, fits: State -> bool, x: Snapshot)
    requires KeepsSnapshots(f, fits) && Keepable(fits, x)
    ensures Reopens(f, x)
  {
    assert Survives(f, fits, x);
  }

  lemma RunReopens(f: Format, fits: State -> bool, xs: seq<Snapshot>)
    requires KeepsSnapshots(f, fits) && AllKeepable(fits, xs)
    ensures AllReopen(f, xs)
  {
    forall i | 0 <= i < |xs| ensures Reopens(f, xs[i]) { KeepableReopens(f, fits, xs[i]); }
  }

  /** Every snapshot of a run survives the disk: written in the journal's format and
      opened again, it is the same snapshot. */
  lemma EverySnapshotSurvives(w: Wires, h: Hashes, sum: (Bytes, Bytes) -> Digest, xs: seq<Snapshot>, cs: seq<Command>)
    requires WiresCanonical(w) && SumsFit(sum) && HashesInWidth(h) && WiresInWidth(w) && InputsInWidth(w, cs)
    requires Commits(h, xs, cs) && AllKeepable(StorableIn(w, h), xs[..1])
    ensures AllReopen(JournalFormat(w, h, sum), xs)
  {
    RunKeeps(w, h, xs, cs);
    JournalOnDisk(w, h, sum);
    RunReopens(JournalFormat(w, h, sum), StorableIn(w, h), xs);
  }
}
