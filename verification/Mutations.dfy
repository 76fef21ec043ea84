/**
 Runs of mutators: repeating a call changes nothing, an allocation delta is never
 applied twice, and observed snapshot sequences rise across rollouts.
 */
module Mutations {
  import opened Types
  import opened Tables
  import opened Operations
  import Tenures
  import opened Rollouts
  import opened Allocations
  import opened Sizes
  import opened Journal
  import opened Revalidation
  import opened Successors
  import opened Runs

  // -------------------------------------------------------------------- repetition

  /** Repeating the call on its own result would leave that result. */
  predicate Repeats(h: Hashes, n: State, c: Command) { MoveOf(h, n, c) == Same || MoveOf(h, n, c) == Next(n) }

  lemma InsertedRow(ops: seq<Operation>, o: Operation)
    requires SortedBy(ops, OpKey) && Find(ops, OpKey, o.id).None?
    ensures var k := Find(Insert(ops, OpKey, o), OpKey, o.id); k.Some? && Insert(ops, OpKey, o)[k.value] == o
  {
    InsertMembers(ops, OpKey, o);
    InsertSorts(ops, OpKey, o);
    FindMember(Insert(ops, OpKey, o), OpKey, o);
  }

  lemma CandidateKept(h: Hashes, s: State, op: Id, c: Candidate, n: State)
    requires PreparePlanMove(h, s, op, c) == Next(n)
    ensures CandidateObjection(h, n, c).None?
  {
  }

  lemma PreparePlanRepeats(h: Hashes, s: State, op: Id, c: Candidate, n: State)
    requires SortedBy(s.operations, OpKey) && PreparePlanMove(h, s, op, c) == Next(n)
    ensures PreparePlanMove(h, n, op, c) == Same
  {
    PreparePlanGuards(h, s, op, c, n);
    CandidateKept(h, s, op, c, n);
    InsertedRow(s.operations,
      Operation(op, IntentDigest(h, s, s.Revision(), c), s.Revision(), OpPrepared, None, None, None));
  }

  /** After a commit, the row under the operation's id is the committed one. */
  lemma CommittedRow(s: State, k: nat, o: Operation)
    requires OperationsValid(s.operations, s.Revision(), s.allocation.generation) && k < |s.operations|
    requires o.id == s.operations[k].id
    ensures var ops := s.operations[k := o]; var j := Find(ops, OpKey, o.id); j.Some? && ops[j.value] == o
  {
    UpdateMembers(s.operations, OpKey, k, o);
    FindMember(s.operations[k := o], OpKey, o);
  }

  /** What makes a plan commit recognise its own earlier success. */
  predicate Recognises(h: Hashes, s: State, op: Id, c: Candidate) {
    var k := Find(s.operations, OpKey, op);
    && CandidateObjection(h, s, c).None? && 0 < |c.content.bytes| <= MAX_CONTENT_BYTES
    && k.Some?
    && var o := s.operations[k.value];
    && o.phase.OpCommitted? && IntentDigest(h, s, o.expected, c) == o.intent && o.expected < U64_MAX
    && s.plan == Some(CandidatePlan(h, s, o, c))
    && MatchesDelta(s.allocation, c.delta)
  }

  lemma CommitRecognised(h: Hashes, s: State, op: Id, c: Candidate)
    requires Recognises(h, s, op, c)
    ensures CommitPlanMove(h, s, op, c) == Same
  {
  }

  lemma CommitInputs(h: Hashes, s: State, op: Id, c: Candidate, n: State)
    requires CommitPlanMove(h, s, op, c) == Next(n)
    ensures CandidateObjection(h, s, c).None? && 0 < |c.content.bytes| <= MAX_CONTENT_BYTES
    ensures var k := Find(s.operations, OpKey, op);
            && k.Some?
            && var o := s.operations[k.value];
            && IntentDigest(h, s, o.expected, c) == o.intent && o.expected < U64_MAX
            && n.plan == Some(CandidatePlan(h, s, o, c))
  {
  }

  lemma AfterCommitRecognises(h: Hashes, s: State, k: nat, c: Candidate, n: State)
    requires OperationsValid(s.operations, s.Revision(), s.allocation.generation) && k < |s.operations|
    requires CandidateObjection(h, s, c).None? && 0 < |c.content.bytes| <= MAX_CONTENT_BYTES
    requires var o := s.operations[k]; IntentDigest(h, s, o.expected, c) == o.intent && o.expected < U64_MAX
    requires n == AfterCommit(s, k, n.allocation, CandidatePlan(h, s, s.operations[k], c), n.history)
    requires MatchesDelta(n.allocation, c.delta) && n.allocation.target == s.allocation.target
    ensures Recognises(h, n, s.operations[k].id, c)
  {
    CommittedRow(s, k, n.operations[k]);
  }

  lemma CommitLeavesRecognised(h: Hashes, s: State, op: Id, c: Candidate, n: State)
    requires OperationsValid(s.operations, s.Revision(), s.allocation.generation) && AllocationValid(s.allocation)
    requires CommitPlanMove(h, s, op, c) == Next(n)
    ensures Recognises(h, n, op, c)
  {
    CommitGuards(h, s, op, c, n);
    CommitInputs(h, s, op, c, n);
    DeltaIsRecognised(s.allocation, c.delta, n.allocation);
    AfterCommitRecognises(h, s, Find(s.operations, OpKey, op).value, c, n);
  }

  lemma CommitPlanRepeats(h: Hashes, s: State, op: Id, c: Candidate, n: State)
    requires OperationsValid(s.operations, s.Revision(), s.allocation.generation) && AllocationValid(s.allocation)
    requires CommitPlanMove(h, s, op, c) == Next(n)
    ensures CommitPlanMove(h, n, op, c) == Same
  {
    CommitLeavesRecognised(h, s, op, c, n);
    CommitRecognised(h, n, op, c);
  }

  lemma TransitionRepeats(s: State, op: Id, phase: OperationPhase, result: Option<Id>, n: State)
    requires OperationsValid(s.operations, s.Revision(), s.allocation.generation)
    requires TransitionMove(s, op, phase, result) == Next(n)
    ensures TransitionMove(n, op, phase, result) == Next(n)
  {
    var k := Find(s.operations, OpKey, op).value;
    UpdateMembers(s.operations, OpKey, k, n.operations[k]);
    FindMember(n.operations, OpKey, n.operations[k]);
    var j := Find(n.operations, OpKey, op).value;
    assert n.operations[j := n.operations[j]] == n.operations;
  }

  /** A request collides only with its own row. */
  lemma OwnCollision(ts: seq<Tenure>, scope: Id, t: Tenure)
    requires Tenures.TenuresValid(ts, scope) && t in ts
    ensures FirstTenureCollision(ts, t.request) == Some(t)
  {
    var u := FirstTenureCollision(ts, t.request).value;
    assert u == t || !Tenures.SameIdentity(u.request, t.request);
  }

  lemma PrepareTenureRepeats(s: State, q: TenureRequest, domain: Digest, n: State)
    requires Tenures.TenuresValid(n.tenures, s.scope) && PrepareTenureMove(s, q, domain) == Next(n)
    ensures PrepareTenureMove(n, q, domain) == Same
  {
    var t := Tenure(q, domain, TenurePrepared, None);
    InsertMembers(s.tenures, Tenures.TenureKey, t);
    OwnCollision(n.tenures, s.scope, t);
  }

  lemma MarkUncertainRepeats(s: State, q: TenureRequest, n: State)
    requires Tenures.TenuresValid(n.tenures, s.scope) && MarkUncertainMove(s, q) == Next(n)
    ensures MarkUncertainMove(n, q) == Same
  {
    var k := Find(s.tenures, Tenures.TenureKey, q.operation).value;
    FindMember(n.tenures, Tenures.TenureKey, n.tenures[k]);
  }

  lemma CommitTenureRepeats(s: State, q: TenureRequest, r: TenureResponse, n: State)
    requires Tenures.TenuresValid(n.tenures, s.scope) && CommitTenureMove(s, q, r) == Next(n)
    ensures CommitTenureMove(n, q, r) == Same
  {
    var k := Find(s.tenures, Tenures.TenureKey, q.operation).value;
    FindMember(n.tenures, Tenures.TenureKey, n.tenures[k]);
  }

  lemma IntentRepeats(s: State, input: IntentInput, n: State)
    requires RecordIntentMove(s, input) == Next(n)
    ensures RecordIntentMove(n, input) == Same
  {
  }

  lemma DirectRepeats(s: State, receipt: Receipt, n: State)
    requires RecordDirectMove(s, receipt) == Next(n)
    ensures RecordDirectMove(n, receipt) == Same
  {
  }

  lemma QueryRepeats(s: State, q: QueryRequest, n: State)
    requires PrepareQueryMove(s, q) == Next(n)
    ensures PrepareQueryMove(n, q) == Same
  {
    var r, r' := s.rollout.value, n.rollout.value;
    var k := FirstQueryCollision(r'.attempts, q);
    assert r'.attempts[|r.attempts|] in r'.attempts;
    assert k.Some?;
    forall i | 0 <= i < |r.attempts| ensures r'.attempts[i] in r.attempts { }
  }

  lemma ResponseRepeats(s: State, response: QueryResponse, channel: Channel, n: State)
    requires RecordResponseMove(s, response, channel) == Next(n)
    ensures RecordResponseMove(n, response, channel) == Same
  {
  }

  lemma CloseRepeats(s: State, closure: Closure, n: State)
    requires CloseQueryMove(s, closure) == Next(n)
    ensures CloseQueryMove(n, closure) == Same
  {
  }

  lemma DecideRepeats(s: State, observed: Observed, receipt: Option<Id>, n: State)
    requires DecideMove(s, observed, receipt) == Next(n) && n.rollout.Some? && RolloutValid(n.rollout.value)
    ensures DecideMove(n, observed, receipt) == Same
  {
    if Conflicted(n.rollout.value) { ConflictIsLastAndUndecided(n.rollout.value); }
  }

  lemma RolloutRepeats(h: Hashes, s: State, c: Command, n: State)
    requires n.rollout.Some? ==> RolloutValid(n.rollout.value)
    requires c.RecordIntent? || c.RecordDirect? || c.PrepareQuery? || c.RecordResponse? || c.CloseQuery? || c.Decide?
    requires MoveOf(h, s, c) == Next(n)
    ensures MoveOf(h, n, c) == Same
  {
    match c
    case RecordIntent(input) => IntentRepeats(s, input, n);
    case RecordDirect(receipt) => DirectRepeats(s, receipt, n);
    case PrepareQuery(q) => QueryRepeats(s, q, n);
    case RecordResponse(response, channel) => ResponseRepeats(s, response, channel, n);
    case CloseQuery(closure) => CloseRepeats(s, closure, n);
    case Decide(observed, receipt) => DecideRepeats(s, observed, receipt, n);
  }

  lemma MoveRepeats(h: Hashes, s: State, c: Command, n: State)
    requires OperationsValid(s.operations, s.Revision(), s.allocation.generation) && AllocationValid(s.allocation)
    requires Tenures.TenuresValid(n.tenures, s.scope)
    requires n.rollout.Some? ==> RolloutValid(n.rollout.value)
    requires MoveOf(h, s, c) == Next(n)
    ensures Repeats(h, n, c)
  {
    if c.PreparePlan? { PreparePlanRepeats(h, s, c.op, c.candidate, n); }
    else if c.CommitPlan? { CommitPlanRepeats(h, s, c.op, c.candidate, n); }
    else if c.TransitionOperation? { TransitionRepeats(s, c.op, c.phase, c.result, n); }
    else if c.PrepareTenure? { PrepareTenureRepeats(s, c.tenureRequest, c.domain, n); }
    else if c.MarkTenureUncertain? { MarkUncertainRepeats(s, c.tenureRequest, n); }
    else if c.CommitTenure? { CommitTenureRepeats(s, c.tenureRequest, c.tenureResponse, n); }
    else if c.RecordBinding? || c.RotateAuth? { assert MoveOf(h, n, c) == Next(n); }
    else { RolloutRepeats(h, s, c, n); }
  }

  /** Crash replay: any successful call, repeated on its own result, succeeds and
      changes nothing. */
  lemma Idempotent(h: Hashes, s: State, c: Command, n: State)
    requires Valid(s) && Apply(h, s, c) == Ok(n)
    ensures Apply(h, n, c) == Ok(n)
  {
    if MoveOf(h, s, c) == Next(n) {
      MutatorsSucceed(h, s, c);
      SuccessorScope(n, s);
      MoveRepeats(h, s, c, n);
    }
  }

  lemma SuccessorScope(n: State, s: State)
    requires Successor(n, s)
    ensures n.scope == s.scope && Tenures.TenuresValid(n.tenures, s.scope)
    ensures n.rollout.Some? ==> RolloutValid(n.rollout.value)
  {
  }

  // --------------------------------------------------------------------------- runs

  ghost predicate Called(h: Hashes, c: seq<State>, cs: seq<Command>, i: nat)
    requires i + 1 < |c| && i < |cs|
  {
    Apply(h, c[i], cs[i]) == Ok(c[i + 1])
  }

  /** Successful mutator calls, one after the other. */
  ghost predicate Calls(h: Hashes, c: seq<State>, cs: seq<Command>) {
    |c| == |cs| + 1 && forall i :: 0 <= i < |cs| ==> Called(h, c, cs, i)
  }

  /** Such calls from a valid state. */
  ghost predicate Run(h: Hashes, c: seq<State>, cs: seq<Command>) {
    var run := Calls(h, c, cs) && Valid(c[0]);
    run
  }

  /** One call. */
  ghost predicate Yields(h: Hashes, s: State, c: Command, n: State) { Calls(h, [s, n], [c]) }

  lemma YieldsApply(h: Hashes, s: State, c: Command, n: State)
    ensures Yields(h, s, c, n) <==> Apply(h, s, c) == Ok(n)
  {
    if Yields(h, s, c, n) { assert Called(h, [s, n], [c], 0); }
    if Apply(h, s, c) == Ok(n) {
      forall i | 0 <= i < 1 ensures Called(h, [s, n], [c], i) { }
    }
  }

  ghost predicate FailedAt(h: Hashes, s: seq<State>, c: seq<Command>, i: nat, e: Error)
    requires i < |s| && i < |c|
  {
    Apply(h, s[i], c[i]) == Err(e)
  }

  /** The call fails with `e`. */
  ghost predicate Fails(h: Hashes, s: State, c: Command, e: Error) {
    forall i :: 0 <= i < |[c]| ==> FailedAt(h, [s], [c], i, e)
  }

  lemma FailsApply(h: Hashes, s: State, c: Command, e: Error)
    ensures Fails(h, s, c, e) <==> Apply(h, s, c) == Err(e)
  {
    if Fails(h, s, c, e) { assert FailedAt(h, [s], [c], 0, e); }
    if Apply(h, s, c) == Err(e) {
      forall i | 0 <= i < |[c]| ensures FailedAt(h, [s], [c], i, e) { }
    }
  }

  lemma RefusalFails(h: Hashes, s: State, c: Command)
    requires MoveOf(h, s, c).Refuse?
    ensures Fails(h, s, c, MoveOf(h, s, c).error)
  {
    FailsApply(h, s, c, MoveOf(h, s, c).error);
  }

  lemma YieldsMove(h: Hashes, s: State, c: Command, n: State)
    requires Yields(h, s, c, n)
    ensures !MoveOf(h, s, c).Refuse? && n == MovedTo(MoveOf(h, s, c), s)
  {
    YieldsApply(h, s, c, n);
  }

  /** A call that moves succeeds exactly under the residual condition, and leads
      nowhere else. */
  lemma MoveYields(h: Hashes, s: State, c: Command, m: State)
    requires Valid(s) && WellFormed(c) && MoveOf(h, s, c) == Next(m)
    ensures Yields(h, s, c, m) <==> Residual(s, c, m)
    ensures forall n :: Yields(h, s, c, n) ==> n == m
  {
    CallConcludes(h, s, c, m);
    YieldsApply(h, s, c, m);
    forall n | Yields(h, s, c, n) ensures n == m { YieldsMove(h, s, c, n); }
  }

  /** The commands whose guards establish everything but the size. */
  predicate SizeOnly(c: Command) {
    || c.TransitionOperation? || c.PrepareTenure? || c.MarkTenureUncertain? || c.CommitTenure?
    || c.PrepareQuery? || c.RecordResponse? || c.CloseQuery?
  }

  lemma SizeDecides(h: Hashes, s: State, c: Command, m: State)
    requires Valid(s) && SizeOnly(c) && MoveOf(h, s, c) == Next(m)
    ensures Yields(h, s, c, m) <==> SizeFits(m)
    ensures forall n :: Yields(h, s, c, n) ==> n == m
  {
    MoveYields(h, s, c, m);
  }

  /** A call that refuses does not succeed. */
  lemma RefusalYieldsNothing(h: Hashes, s: State, c: Command, n: State)
    requires MoveOf(h, s, c).Refuse?
    ensures !Yields(h, s, c, n)
  {
    YieldsApply(h, s, c, n);
  }

  lemma SameMoveYields(h: Hashes, s: State, c: Command)
    requires MoveOf(h, s, c) == Same
    ensures Yields(h, s, c, s)
  {
    YieldsApply(h, s, c, s);
  }

  lemma ApplyValid(h: Hashes, s: State, c: Command, n: State)
    requires Valid(s) && Apply(h, s, c) == Ok(n)
    ensures Valid(n)
  {
  }

  lemma RunStepValid(h: Hashes, c: seq<State>, cs: seq<Command>, i: nat)
    requires Run(h, c, cs) && i < |cs| && Valid(c[i])
    ensures Valid(c[i + 1])
  {
    assert Called(h, c, cs, i);
    ApplyValid(h, c[i], cs[i], c[i + 1]);
  }

  lemma {:induction false} RunValid(h: Hashes, c: seq<State>, cs: seq<Command>, i: nat)
    requires Run(h, c, cs) && i < |c|
    ensures Valid(c[i])
  {
    if i > 0 {
      var k: nat := i - 1;
      RunValid(h, c, cs, k);
      RunStepValid(h, c, cs, k);
    }
  }

  lemma RunStep(h: Hashes, c: seq<State>, cs: seq<Command>, i: nat)
    requires Run(h, c, cs) && i < |cs|
    ensures Successor(c[i + 1], c[i])
  {
    RunValid(h, c, cs, i);
    assert Called(h, c, cs, i);
    MutatorsSucceed(h, c[i], cs[i]);
  }

  /** Every run of mutators is a chain the store accepts. */
  lemma RunIsChain(h: Hashes, c: seq<State>, cs: seq<Command>)
    requires Run(h, c, cs)
    ensures Chain(c)
  {
    forall i | 0 <= i < |c| ensures ValidAt(c, i) {
      RunValid(h, c, cs, i);
    }
    forall i | 0 <= i < |c| - 1 ensures LinkedAt(c, Successor, i) {
      RunStep(h, c, cs, i);
    }
  }

  // ----------------------------------------------------------------- one delta, once

  lemma {:induction false} CommitsPermanent(c: seq<State>, i: nat, j: nat)
    requires Chain(c) && i <= j < |c|
    ensures Committed(c[i].operations) <= Committed(c[j].operations)
    decreases j
  {
    if i < j {
      var k: nat := j - 1;
      CommitsPermanent(c, i, k);
      ChainEvolves(c, k);
    }
  }

  /** A committed operation never moves the journal again. */
  lemma CommittedNeverMoves(h: Hashes, s: State, o: Operation, candidate: Candidate)
    requires SortedBy(s.operations, OpKey) && o in Committed(s.operations)
    ensures !CommitPlanMove(h, s, o.id, candidate).Next?
    ensures CommitPlanMove(h, s, o.id, candidate) == Same ==> s.plan.Some? && s.plan.value.operation == o.id
  {
    FindMember(s.operations, OpKey, o);
  }

  /** However often and however late a plan commit is retried, its allocation
      delta is not applied a second time. */
  lemma DeltaAppliedOnce(h: Hashes, c: seq<State>, i: nat, j: nat, o: Operation, candidate: Candidate)
    requires Chain(c) && i <= j < |c| && o in Committed(c[i].operations)
    ensures !CommitPlanMove(h, c[j], o.id, candidate).Next?
    ensures CommitPlanMove(h, c[j], o.id, candidate) == Same ==>
              c[j].plan.Some? && c[j].plan.value.operation == o.id
  {
    CommitsPermanent(c, i, j);
    ChainValid(c, j);
    StateRowsSorted(c[j]);
    CommittedNeverMoves(h, c[j], o, candidate);
  }

  lemma StateRowsSorted(s: State)
    requires Valid(s)
    ensures SortedBy(s.operations, OpKey)
  {
  }

  // ---------------------------------------------------------------- query sequences

  /** Observed snapshot sequences never regress, across rollouts included. */
  ghost predicate Ordered(records: seq<Rollout>) {
    forall r: nat, i: nat, q: nat, j: nat, m: nat, n: nat ::
      ObservedAt(records, r, i, m) && ObservedAt(records, q, j, n) && (r < q || (r == q && i <= j)) ==> m <= n
  }

  /** The same observations in the same places. */
  ghost predicate SameObservations(records: seq<Rollout>, was: seq<Rollout>) {
    forall r: nat, i: nat, n: nat :: ObservedAt(records, r, i, n) ==> ObservedAt(was, r, i, n)
  }

  lemma OrderedKept(records: seq<Rollout>, was: seq<Rollout>)
    requires Ordered(was) && SameObservations(records, was)
    ensures Ordered(records)
  {
  }

  lemma OrderedWithRollout(history: seq<Rollout>, was: seq<Rollout>, r: Rollout)
    requires Ordered(history + was) && |was| <= 1
    requires forall i :: 0 <= i < |r.attempts| && r.attempts[i].observation.Some? ==>
               was != [] && i < |was[0].attempts| && was[0].attempts[i].observation == r.attempts[i].observation
    ensures Ordered(history + [r])
  {
    var before, after := history + was, history + [r];
    forall q: nat, i: nat, n: nat | ObservedAt(after, q, i, n) ensures ObservedAt(before, q, i, n) {
      if q == |history| { assert after[q] == r; }
    }
    OrderedKept(after, before);
  }

  /** A response at or above the high water extends the order. */
  lemma OrderedWithObservation(history: seq<Rollout>, was: Rollout, o: Observation, high: nat)
    requires Ordered(history + [was]) && HighWater(history + [was], high)
    requires was.attempts != [] && high <= o.Sequence()
    ensures var k := |was.attempts| - 1;
            Ordered(history + [was.(attempts := was.attempts[k := was.attempts[k].(observation := Some(o))])])
  {
    var k := |was.attempts| - 1;
    var r := was.(attempts := was.attempts[k := was.attempts[k].(observation := Some(o))]);
    var before, after := history + [was], history + [r];
    forall q: nat, i: nat, n: nat | ObservedAt(after, q, i, n) && (q != |history| || i != k)
      ensures ObservedAt(before, q, i, n) && n <= high
    {
      assert ObservedAt(before, q, i, n);
    }
    forall q: nat, i: nat, n: nat | ObservedAt(after, q, i, n) ensures q < |history| || (q == |history| && i <= k) { }
  }

  lemma ResponseOrdered(s: State, response: QueryResponse, channel: Channel, n: State)
    requires IdentitiesValid(s.Records(), s.highWater) && Ordered(s.Records())
    requires RecordResponseMove(s, response, channel) == Next(n)
    ensures Ordered(n.Records())
  {
    ResponseGuards(s, response, channel, n);
    OrderedWithObservation(s.history, s.rollout.value, Observation(response, channel), s.highWater);
  }

  /** The other moves on the current rollout add no observation. */
  lemma NoNewObservation(h: Hashes, s: State, c: Command, n: State)
    requires c.RecordIntent? || c.RecordDirect? || c.PrepareQuery? || c.CloseQuery? || c.Decide?
    requires MoveOf(h, s, c) == Next(n)
    ensures n.rollout.Some? && n.history == s.history
    ensures forall i :: 0 <= i < |n.rollout.value.attempts| && n.rollout.value.attempts[i].observation.Some? ==>
              && s.rollout.Some? && i < |s.rollout.value.attempts|
              && s.rollout.value.attempts[i].observation == n.rollout.value.attempts[i].observation
  {
  }

  lemma RolloutOrdered(h: Hashes, s: State, c: Command, n: State)
    requires Ordered(s.Records())
    requires c.RecordIntent? || c.RecordDirect? || c.PrepareQuery? || c.CloseQuery? || c.Decide?
    requires MoveOf(h, s, c) == Next(n)
    ensures Ordered(n.Records())
  {
    NoNewObservation(h, s, c, n);
    OrderedWithRollout(s.history, if s.rollout.Some? then [s.rollout.value] else [], n.rollout.value);
  }

  /** Only plan commits, and moves on the rollout, touch the retained rollouts. */
  lemma ControlKeepsRecords(h: Hashes, s: State, c: Command, n: State)
    requires MoveOf(h, s, c) == Next(n)
    requires !c.RecordIntent? && !c.RecordDirect? && !c.PrepareQuery? && !c.RecordResponse? && !c.CloseQuery? && !c.Decide?
    ensures n.Records() == s.Records() && n.highWater == s.highWater
  {
    if c.CommitPlan? {
      CommitGuards(h, s, c.op, c.candidate, n);
      ArchiveKeepsRecords(s, n.history);
    }
  }

  lemma MoveOrdered(h: Hashes, s: State, c: Command, n: State)
    requires IdentitiesValid(s.Records(), s.highWater) && Ordered(s.Records())
    requires MoveOf(h, s, c) == Next(n)
    ensures Ordered(n.Records())
  {
    if c.RecordResponse? { ResponseOrdered(s, c.response, c.channel, n); }
    else if c.RecordIntent? || c.RecordDirect? || c.PrepareQuery? || c.CloseQuery? || c.Decide? {
      RolloutOrdered(h, s, c, n);
    } else { ControlKeepsRecords(h, s, c, n); }
  }

  lemma ApplyOrdered(h: Hashes, s: State, c: Command, n: State)
    requires Valid(s) && Ordered(s.Records()) && Apply(h, s, c) == Ok(n)
    ensures Ordered(n.Records())
  {
    if MoveOf(h, s, c).Next? { MoveOrdered(h, s, c, n); }
  }

  lemma ValidIdentities(s: State)
    requires Valid(s)
    ensures IdentitiesValid(s.Records(), s.highWater)
  {
  }

  lemma RunStepOrdered(h: Hashes, c: seq<State>, cs: seq<Command>, i: nat)
    requires Run(h, c, cs) && i < |cs| && Ordered(c[i].Records())
    ensures Ordered(c[i + 1].Records())
  {
    RunValid(h, c, cs, i);
    assert Called(h, c, cs, i);
    ApplyOrdered(h, c[i], cs[i], c[i + 1]);
  }

  /** Along any run, the query history stays in order, with one high water: the
      last sequence observed, or zero when nothing has been observed. */
  lemma {:induction false} QueryHistory(h: Hashes, c: seq<State>, cs: seq<Command>, j: nat)
    requires Run(h, c, cs) && j < |c| && Ordered(c[0].Records())
    ensures Ordered(c[j].Records()) && IdentitiesValid(c[j].Records(), c[j].highWater)
  {
    RunValid(h, c, cs, j);
    ValidIdentities(c[j]);
    if j > 0 {
      var k: nat := j - 1;
      QueryHistory(h, c, cs, k);
      RunStepOrdered(h, c, cs, k);
    }
  }

  /** In an ordered history the high water is the last observation's sequence. */
  lemma HighWaterIsLast(records: seq<Rollout>, high: nat, r: nat, i: nat, n: nat)
    requires Ordered(records) && HighWater(records, high) && ObservedAt(records, r, i, n)
    requires forall q: nat, j: nat, m: nat :: ObservedAt(records, q, j, m) ==> q < r || (q == r && j <= i)
    ensures n == high
  {
    if high != 0 {
      var q: nat, j: nat :| ObservedAt(records, q, j, high);
    }
  }

  /** A fresh query makes a rollout non-terminal again unless its direct receipt is
      durable: terminality is not monotone. */
  lemma QueryReopens(s: State, q: QueryRequest, n: State)
    requires PrepareQueryMove(s, q) == Next(n)
    ensures n.rollout.Some? && s.rollout.Some?
    ensures IsTerminal(n.rollout.value) <==> s.rollout.value.direct.Some?
  {
    QueryGuards(s, q, n);
  }
}
