/**
 The store's own rule for which journal state may replace which, written
 independently of the mutators, and the proof that the two agree.
 */
module Successors {
  import opened Types
  import opened Tables
  import opened Operations
  import Tenures
  import opened Rollouts
  import opened Allocations
  import opened Sizes
  import opened Journal
  import opened Revalidation

  // ------------------------------------------------------------------ the relation

  predicate RowFollows(o: Operation, was: Operation) {
    var commits := was.phase.OpPrepared? && o.phase.OpCommitted?;
    && o.intent == was.intent && o.expected == was.expected
    && (o.generation == was.generation || (commits && was.generation.None? && o.generation.Some?))
    && (o.planDigest == was.planDigest || (commits && was.planDigest.None? && o.planDigest.Some?))
    && was.phase.Permits(o.phase)
    && (was.result.Some? ==> o.result == was.result)
    && (o.phase == was.phase ==> o == was)
  }

  predicate OperationsSuccessor(ops: seq<Operation>, was: seq<Operation>, revision: nat) {
    && (forall o :: o in was ==>
          var k := Find(ops, OpKey, o.id);
          k.Some? && RowFollows(ops[k.value], o))
    && (forall o :: o in ops && Find(was, OpKey, o.id).None? ==>
          o.phase.OpPrepared? && o.expected == revision && o.generation.None? && o.planDigest.None?)
  }

  predicate BindingsSuccessor(b: Option<Binding>, was: Option<Binding>) {
    was.Some? ==> b.Some? && BindingSuccessor(b.value, was.value)
  }

  predicate PlanChanged(n: State, s: State) { n.plan.Some? && n.plan != s.plan }

  /** The plan's own operation goes from prepared to committed in this step. */
  predicate PlanOperation(p: Plan, n: State, s: State) {
    var j, k := Find(s.operations, OpKey, p.operation), Find(n.operations, OpKey, p.operation);
    && j.Some? && k.Some?
    && var was, o := s.operations[j.value], n.operations[k.value];
    && was.phase.OpPrepared? && o.phase.OpCommitted?
    && was.intent == p.intent && was.expected == s.Revision()
    && was.generation.None? && was.planDigest.None?
    && o.generation == Some(n.allocation.generation) && o.planDigest == Some(p.planDigest)
  }

  predicate PlanSuccessor(n: State, s: State) {
    && (s.plan.Some? ==> n.plan.Some?)
    && (if PlanChanged(n, s)
        then n.Revision() == s.Revision() + 1 <= U64_MAX && PlanOperation(n.plan.value, n, s)
        else n.allocation == s.allocation)
  }

  function ApplyKey(r: Rollout): nat { r.intent.operation }

  predicate Retains(history: seq<Rollout>, r: Rollout) {
    var k := Find(history, ApplyKey, ApplyKey(r));
    k.Some? && history[k.value] == r
  }

  predicate HistorySuccessor(n: State, s: State) {
    && (forall r :: r in s.history ==> Retains(n.history, r))
    && (if !PlanChanged(n, s) then n.history == s.history
        else && n.rollout.None?
             && |n.history| == |s.history| + Flag(s.rollout.Some?)
             && (s.rollout.Some? ==>
                   && n.binding.Some?
                   && PermitsAdvance(s.rollout.value, n.binding.value) == Ok(true)
                   && Retains(n.history, s.rollout.value)))
  }

  /** The three ways the last attempt may be completed. */
  predicate AttemptCompleted(a: Attempt, was: Attempt) {
    && a.prepared == was.prepared
    && was.closure.None? && was.decision.None?
    && (|| (was.observation.None? && a.observation.Some? && a.closure.None? && a.decision.None?)
        || (was.observation.None? && a.observation.None? && a.closure.Some? && a.decision.None?)
        || (was.observation.Some? && a.observation == was.observation && a.closure.None? && a.decision.Some?))
  }

  /** A further query is prepared only behind a resolved one, and behind a
      terminal decision only in a newer epoch. */
  predicate AttemptAppended(r: Rollout, was: Rollout, b: Option<Binding>)
    requires |r.attempts| == |was.attempts| + 1
  {
    var a := r.attempts[|was.attempts|];
    && r.attempts[..|was.attempts|] == was.attempts
    && a.Open()
    && (was.Last().Some? ==>
          var last := was.Last().value;
          && last.Resolved()
          && (last.DecidedTerminal() ==>
                && b.Some? && !DecidedCurrent(last, b.value)
                && last.observation.Some?
                && last.observation.value.Epoch() < a.prepared.baseline.epoch))
  }

  predicate RolloutFollows(r: Rollout, was: Rollout, b: Option<Binding>) {
    && r.intent == was.intent
    && (|| r == was
        || (was.direct.None? && r.direct.Some? && r.attempts == was.attempts && RolloutValid(r))
        || (&& r.direct == was.direct && RolloutValid(r)
            && (|| (&& |r.attempts| == |was.attempts| > 0
                    && r.attempts[..|r.attempts| - 1] == was.attempts[..|was.attempts| - 1]
                    && AttemptCompleted(r.attempts[|r.attempts| - 1], was.attempts[|was.attempts| - 1]))
                || (|r.attempts| == |was.attempts| + 1 && AttemptAppended(r, was, b)))))
  }

  predicate RolloutSuccessor(n: State, s: State) {
    if PlanChanged(n, s) then n.rollout.None?
    else match (s.rollout, n.rollout)
      case (None, None) => true
      case (None, Some(r)) => && r.direct.None? && r.attempts == []
                              && s.binding.Some? && n.auth == s.auth
      case (Some(_), None) => false
      case (Some(was), Some(r)) => RolloutFollows(r, was, n.binding)
  }

  /** Everything a successor must satisfy besides being a valid state. */
  predicate Follows(n: State, s: State) {
    var follows :=
      && n.scope == s.scope && n.lineage == s.lineage && n.manifest == s.manifest
      && AllocationSuccessor(n.allocation, s.allocation)
      && OperationsSuccessor(n.operations, s.operations, s.Revision())
      && Tenures.TenuresSuccessor(n.tenures, s.tenures)
      && AuthSuccessor(n.auth, s.auth)
      && s.highWater <= n.highWater
      && BindingsSuccessor(n.binding, s.binding)
      && PlanSuccessor(n, s)
      && HistorySuccessor(n, s)
      && RolloutSuccessor(n, s);
    follows
  }

  ghost predicate Successor(n: State, s: State) {
    var follows := Follows(n, s) && Valid(n);
    follows
  }

  // -------------------------------------------------------- parts left as they are

  lemma UnchangedOperations(ops: seq<Operation>, revision: nat, generation: nat)
    requires OperationsValid(ops, revision, generation)
    ensures OperationsSuccessor(ops, ops, revision)
  {
    forall o | o in ops ensures var k := Find(ops, OpKey, o.id); k.Some? && ops[k.value] == o {
      FindMember(ops, OpKey, o);
    }
    forall o | o in ops ensures OperationValid(o) { }
  }

  lemma RetainsMember(history: seq<Rollout>, r: Rollout)
    requires DistinctApplies(history) && r in history
    ensures Retains(history, r)
  {
    var k := Find(history, ApplyKey, ApplyKey(r)).value;
    var i :| 0 <= i < |history| && history[i] == r;
  }

  lemma UnchangedHistory(s: State, n: State)
    requires IdentitiesValid(s.Records(), s.highWater) && n.history == s.history && n.plan == s.plan
    ensures HistorySuccessor(n, s)
  {
    forall r | r in s.history ensures Retains(n.history, r) {
      assert DistinctApplies(s.history) by {
        assert forall k :: 0 <= k < |s.history| ==> s.Records()[k] == s.history[k];
      }
      RetainsMember(s.history, r);
    }
  }

  /** The parts that a step without a plan commit leaves legal. */
  predicate PlanKept(n: State, s: State) {
    var kept :=
      && n.scope == s.scope && n.lineage == s.lineage && n.manifest == s.manifest
      && n.plan == s.plan && n.allocation == s.allocation && n.history == s.history
      && AllocationSuccessor(n.allocation, s.allocation)
      && HistorySuccessor(n, s);
    kept
  }

  lemma PlanIsKept(s: State, n: State)
    requires Valid(s) && n.plan == s.plan && n.allocation == s.allocation && n.history == s.history
    requires n.scope == s.scope && n.lineage == s.lineage && n.manifest == s.manifest
    ensures PlanKept(n, s)
    ensures OperationsSuccessor(s.operations, s.operations, s.Revision())
    ensures Tenures.TenuresSuccessor(s.tenures, s.tenures)
  {
    UnchangedIsSuccessor(s.allocation);
    UnchangedHistory(s, n);
    UnchangedOperations(s.operations, s.Revision(), s.allocation.generation);
    Tenures.UnchangedTenures(s.tenures, s.scope);
  }

  /** A step that only changes operations, tenures, authentication or binding. */
  lemma ControlStep(s: State, n: State)
    requires PlanKept(n, s) && n.rollout == s.rollout && n.highWater == s.highWater
    requires OperationsSuccessor(n.operations, s.operations, s.Revision())
    requires Tenures.TenuresSuccessor(n.tenures, s.tenures)
    requires AuthSuccessor(n.auth, s.auth) && BindingsSuccessor(n.binding, s.binding)
    ensures Follows(n, s)
  {
  }

  predicate RolloutMove(s: State, r: Rollout) {
    if s.rollout.Some? then RolloutFollows(r, s.rollout.value, s.binding)
    else r.direct.None? && r.attempts == [] && s.binding.Some?
  }

  /** A step that only replaces the current rollout and the high water. */
  lemma RolloutStep(s: State, r: Rollout, high: nat)
    requires PlanKept(WithRollout(s, r, high), s) && s.highWater <= high && RolloutMove(s, r)
    requires OperationsSuccessor(s.operations, s.operations, s.Revision())
    requires Tenures.TenuresSuccessor(s.tenures, s.tenures)
    ensures Follows(WithRollout(s, r, high), s)
  {
  }

  lemma Reflexive(s: State)
    requires Valid(s)
    ensures Follows(s, s)
  {
    PlanIsKept(s, s);
    ControlStep(s, s);
  }

  // ------------------------------------------------------------------ each mutator

  lemma InsertFollows(ops: seq<Operation>, revision: nat, generation: nat, o: Operation)
    requires OperationsValid(ops, revision, generation)
    requires o.phase.OpPrepared? && o.expected == revision && OperationValid(o) && Find(ops, OpKey, o.id).None?
    ensures OperationsSuccessor(Insert(ops, OpKey, o), ops, revision)
  {
    var ops' := Insert(ops, OpKey, o);
    InsertSorts(ops, OpKey, o);
    InsertMembers(ops, OpKey, o);
    forall p | p in ops ensures var k := Find(ops', OpKey, p.id); k.Some? && ops'[k.value] == p && OperationValid(p) {
      FindMember(ops', OpKey, p);
    }
    forall p | p in ops' && Find(ops, OpKey, p.id).None? ensures p == o { }
  }

  lemma UpdateFollows(ops: seq<Operation>, revision: nat, generation: nat, k: nat, o: Operation)
    requires OperationsValid(ops, revision, generation) && k < |ops|
    requires RowFollows(o, ops[k]) && o.id == ops[k].id
    ensures OperationsSuccessor(ops[k := o], ops, revision)
  {
    var ops' := ops[k := o];
    UpdateMembers(ops, OpKey, k, o);
    forall p | p in ops ensures var j := Find(ops', OpKey, p.id); j.Some? && RowFollows(ops'[j.value], p) {
      FindMember(ops', OpKey, if p == ops[k] then o else p);
      assert OperationValid(p);
    }
    forall p | p in ops' ensures Find(ops, OpKey, p.id).Some? {
      assert ops[k] in ops;
      assert p == o || p in ops;
    }
  }

  lemma RowFollowsInsert(s: State, o: Operation)
    requires Valid(s) && Find(s.operations, OpKey, o.id).None?
    requires o.phase.OpPrepared? && o.expected == s.Revision() && OperationValid(o)
    ensures Follows(s.(operations := Insert(s.operations, OpKey, o)), s)
  {
    var n := s.(operations := Insert(s.operations, OpKey, o));
    InsertFollows(s.operations, s.Revision(), s.allocation.generation, o);
    PlanIsKept(s, n);
    ControlStep(s, n);
  }

  lemma PreparePlanFollows(h: Hashes, s: State, op: Id, c: Candidate, n: State)
    requires Valid(s) && PreparePlanMove(h, s, op, c) == Next(n)
    ensures Follows(n, s)
  {
    PreparePlanGuards(h, s, op, c, n);
    RowFollowsInsert(s, Operation(op, IntentDigest(h, s, s.Revision(), c), s.Revision(), OpPrepared, None, None, None));
  }

  lemma TransitionGuards(s: State, op: Id, phase: OperationPhase, result: Option<Id>, n: State)
    requires OperationsValid(s.operations, s.Revision(), s.allocation.generation)
    requires TransitionMove(s, op, phase, result) == Next(n)
    ensures n == s.(operations := n.operations)
    ensures OperationsSuccessor(n.operations, s.operations, s.Revision())
  {
    var k := Find(s.operations, OpKey, op).value;
    assert s.operations[k] in s.operations;
    UpdateFollows(s.operations, s.Revision(), s.allocation.generation, k, n.operations[k]);
  }

  lemma TransitionFollows(s: State, op: Id, phase: OperationPhase, result: Option<Id>, n: State)
    requires Valid(s) && TransitionMove(s, op, phase, result) == Next(n)
    ensures Follows(n, s)
  {
    TransitionGuards(s, op, phase, result, n);
    PlanIsKept(s, n);
    ControlStep(s, n);
  }

  lemma TenuresFollow(s: State, ts: seq<Tenure>)
    requires Valid(s) && Tenures.TenuresSuccessor(ts, s.tenures)
    ensures Follows(s.(tenures := ts), s)
  {
    PlanIsKept(s, s.(tenures := ts));
    ControlStep(s, s.(tenures := ts));
  }

  lemma TenureFollows(h: Hashes, s: State, c: Command, n: State)
    requires Valid(s) && MoveOf(h, s, c) == Next(n)
    requires c.PrepareTenure? || c.MarkTenureUncertain? || c.CommitTenure?
    ensures Follows(n, s)
  {
    TenureMoves(h, s, c, n);
    TenuresFollow(s, n.tenures);
  }

  lemma BindingOrAuthMoves(h: Hashes, s: State, c: Command, n: State)
    requires MoveOf(h, s, c) == Next(n) && (c.RecordBinding? || c.RotateAuth?)
    ensures n == s.(binding := n.binding, auth := n.auth)
    ensures AuthSuccessor(n.auth, s.auth) && BindingsSuccessor(n.binding, s.binding)
  {
  }

  lemma BindingOrAuthFollows(h: Hashes, s: State, c: Command, n: State)
    requires Valid(s) && MoveOf(h, s, c) == Next(n)
    requires c.RecordBinding? || c.RotateAuth?
    ensures Follows(n, s)
  {
    BindingOrAuthMoves(h, s, c, n);
    PlanIsKept(s, n);
    ControlStep(s, n);
  }

  /** What the mutators do to the current rollout. */
  lemma IntentMoves(s: State, input: IntentInput, n: State)
    requires RecordIntentMove(s, input) == Next(n)
    ensures n.rollout.Some? && RolloutMove(s, n.rollout.value)
  {
  }

  lemma DirectMoves(s: State, receipt: Receipt, n: State)
    requires RecordDirectMove(s, receipt) == Next(n) && n.rollout.Some? && RolloutValid(n.rollout.value)
    ensures RolloutMove(s, n.rollout.value)
  {
  }

  lemma QueryMoves(s: State, q: QueryRequest, n: State)
    requires PrepareQueryMove(s, q) == Next(n) && n.rollout.Some? && RolloutValid(n.rollout.value)
    requires s.rollout.Some? && s.binding.Some? && RolloutValid(s.rollout.value) && BindingWellFormed(s.binding.value)
    ensures RolloutMove(s, n.rollout.value)
  {
    var r := s.rollout.value;
    if r.Last().Some? { assert r.Last().value in r.attempts; }
    assert n.rollout.value.attempts[..|r.attempts|] == r.attempts;
  }

  lemma LastMoves(s: State, c: Command, n: State)
    requires match c
             case RecordResponse(response, channel) => RecordResponseMove(s, response, channel) == Next(n)
             case CloseQuery(closure) => CloseQueryMove(s, closure) == Next(n)
             case Decide(observed, receipt) => DecideMove(s, observed, receipt) == Next(n)
             case _ => false
    requires n.rollout.Some? && RolloutValid(n.rollout.value) && s.rollout.Some? && RolloutValid(s.rollout.value)
    ensures RolloutMove(s, n.rollout.value) && s.highWater <= n.highWater
  {
    var r, r' := s.rollout.value, n.rollout.value;
    if r.Last().Some? { assert r.Last().value in r.attempts; }
    assert r'.attempts[..|r'.attempts| - 1] == r.attempts[..|r.attempts| - 1];
  }

  lemma RolloutCommandHasRollout(h: Hashes, s: State, c: Command, n: State)
    requires MoveOf(h, s, c) == Next(n)
    requires c.RecordIntent? || c.RecordDirect? || c.PrepareQuery? || c.RecordResponse? || c.CloseQuery? || c.Decide?
    ensures n.rollout.Some?
  {
  }

  lemma LastCommandMoves(h: Hashes, s: State, c: Command, n: State)
    requires MoveOf(h, s, c) == Next(n) && n.rollout.Some? && RolloutValid(n.rollout.value)
    requires s.rollout.Some? ==> RolloutValid(s.rollout.value)
    requires c.RecordResponse? || c.CloseQuery? || c.Decide?
    ensures n == WithRollout(s, n.rollout.value, n.highWater)
    ensures RolloutMove(s, n.rollout.value) && s.highWater <= n.highWater
  {
    LastMoves(s, c, n);
  }

  lemma RolloutCommandMoves(h: Hashes, s: State, c: Command, n: State)
    requires MoveOf(h, s, c) == Next(n) && n.rollout.Some? && RolloutValid(n.rollout.value)
    requires s.rollout.Some? ==> RolloutValid(s.rollout.value)
    requires s.binding.Some? ==> BindingWellFormed(s.binding.value)
    requires c.RecordIntent? || c.RecordDirect? || c.PrepareQuery? || c.RecordResponse? || c.CloseQuery? || c.Decide?
    ensures n == WithRollout(s, n.rollout.value, n.highWater)
    ensures RolloutMove(s, n.rollout.value) && s.highWater <= n.highWater
  {
    if c.RecordIntent? { IntentMoves(s, c.input, n); }
    else if c.RecordDirect? { DirectMoves(s, c.receipt, n); }
    else if c.PrepareQuery? { QueryMoves(s, c.query, n); }
    else { LastCommandMoves(h, s, c, n); }
  }

  lemma RolloutCommandFollows(h: Hashes, s: State, c: Command, n: State)
    requires Valid(s) && MoveOf(h, s, c) == Next(n) && (n.rollout.Some? ==> RolloutValid(n.rollout.value))
    requires c.RecordIntent? || c.RecordDirect? || c.PrepareQuery? || c.RecordResponse? || c.CloseQuery? || c.Decide?
    ensures Follows(n, s)
  {
    RolloutCommandHasRollout(h, s, c, n);
    RolloutCommandMoves(h, s, c, n);
    PlanIsKept(s, n);
    RolloutStep(s, n.rollout.value, n.highWater);
  }

  lemma CommitRows(s: State, k: nat, p: Plan, n: State)
    requires LedgerValid(s) && CommitReady(s, k, p)
    requires n == AfterCommit(s, k, n.allocation, p, n.history)
    ensures OperationsSuccessor(n.operations, s.operations, s.Revision())
    ensures PlanOperation(p, n, s)
  {
    var was, o := s.operations[k], n.operations[k];
    assert was in s.operations && o in n.operations;
    assert RowFollows(o, was);
    UpdateFollows(s.operations, s.Revision(), s.allocation.generation, k, o);
    UpdateMembers(s.operations, OpKey, k, o);
    FindMember(s.operations, OpKey, was);
    FindMember(n.operations, OpKey, o);
  }

  lemma ArchiveFollows(s: State, n: State)
    requires IdentitiesValid(s.Records(), s.highWater)
    requires ArchiveForCommit(s) == Ok(n.history) && n.rollout.None? && n.binding == s.binding && PlanChanged(n, s)
    ensures HistorySuccessor(n, s)
  {
    ArchiveKeepsRecords(s, n.history);
    forall r | r in s.Records() ensures Retains(n.history, r) {
      RetainsMember(n.history, r);
    }
  }

  /** A step that commits a plan. */
  lemma CommitStep(s: State, p: Plan, n: State)
    requires n == s.(allocation := n.allocation, plan := Some(p), operations := n.operations,
                     rollout := None, history := n.history)
    requires p.revision == s.Revision() + 1 <= U64_MAX && PlanOperation(p, n, s)
    requires AllocationSuccessor(n.allocation, s.allocation) && HistorySuccessor(n, s)
    requires OperationsSuccessor(n.operations, s.operations, s.Revision())
    requires Tenures.TenuresSuccessor(s.tenures, s.tenures)
    ensures Follows(n, s)
  {
  }

  lemma CommitFollows(s: State, k: nat, p: Plan, n: State)
    requires LedgerValid(s) && Tenures.TenuresValid(s.tenures, s.scope)
    requires CommitReady(s, k, p) && p.revision <= U64_MAX
    requires n == AfterCommit(s, k, n.allocation, p, n.history)
    requires HistorySuccessor(n, s) && AllocationSuccessor(n.allocation, s.allocation)
    ensures Follows(n, s)
  {
    CommitRows(s, k, p, n);
    Tenures.UnchangedTenures(s.tenures, s.scope);
    CommitStep(s, p, n);
  }

  lemma CommitPlanFollows(h: Hashes, s: State, op: Id, c: Candidate, n: State)
    requires Valid(s) && CommitPlanMove(h, s, op, c) == Next(n)
    ensures Follows(n, s)
  {
    CommitGuards(h, s, op, c, n);
    ArchiveFollows(s, n);
    DeltaFollows(s.allocation, c.delta, n.allocation);
    CommitFollows(s, Find(s.operations, OpKey, op).value, n.plan.value, n);
  }

  // ------------------------------------------------------------- the two agree

  lemma PlanCommandFollows(h: Hashes, s: State, c: Command, n: State)
    requires Valid(s) && MoveOf(h, s, c) == Next(n)
    requires c.PreparePlan? || c.CommitPlan? || c.TransitionOperation?
    ensures Follows(n, s)
  {
    match c
    case PreparePlan(op, candidate) => PreparePlanFollows(h, s, op, candidate, n);
    case CommitPlan(op, candidate) => CommitPlanFollows(h, s, op, candidate, n);
    case TransitionOperation(op, phase, result) => TransitionFollows(s, op, phase, result, n);
  }

  lemma MovedRolloutValid(s: State)
    requires Valid(s)
    ensures s.rollout.Some? ==> RolloutValid(s.rollout.value)
  {
  }

  lemma MoveFollows(h: Hashes, s: State, c: Command, n: State)
    requires Valid(s) && MoveOf(h, s, c) == Next(n)
    requires n.rollout.Some? ==> RolloutValid(n.rollout.value)
    ensures Follows(n, s)
  {
    if c.PreparePlan? || c.CommitPlan? || c.TransitionOperation? { PlanCommandFollows(h, s, c, n); }
    else if c.PrepareTenure? || c.MarkTenureUncertain? || c.CommitTenure? { TenureFollows(h, s, c, n); }
    else if c.RecordBinding? || c.RotateAuth? { BindingOrAuthFollows(h, s, c, n); }
    else { RolloutCommandFollows(h, s, c, n); }
  }

  /** Every mutator result, including the idempotent ones, is a legal successor
      of the state it was computed from. */
  lemma MutatorsSucceed(h: Hashes, s: State, c: Command)
    requires Valid(s) && Apply(h, s, c).Ok?
    ensures Successor(Apply(h, s, c).value, s)
  {
    match MoveOf(h, s, c)
    case Same => Reflexive(s);
    case Next(n) =>
      MovedRolloutValid(n);
      MoveFollows(h, s, c, n);
  }

  // ------------------------------------------------------------------- snapshots

  /** The first snapshot of a store is the fresh state, and only the first. */
  predicate SnapshotShape(x: Snapshot) { 0 < x.sequence <= U64_MAX && (x.sequence == 1 <==> Fresh(x.state)) }

  ghost predicate SnapshotValid(x: Snapshot) {
    var valid := SnapshotShape(x) && Valid(x.state);
    valid
  }

  function SnapshotAfter(x: Snapshot, n: State, follows: bool): Result<Snapshot> {
    if x.sequence >= U64_MAX then Err(SnapshotSequenceExhausted)
    else if !follows then Err(InvalidState)
    else if Fresh(n) then Err(FreshStateAfterInitialization)
    else Ok(x.(sequence := x.sequence + 1, state := n))
  }

  ghost function TrySuccessor(x: Snapshot, n: State): Result<Snapshot> { SnapshotAfter(x, n, Successor(n, x.state)) }

  function MovedTo(m: Move, s: State): State { if m.Next? then m.state else s }

  lemma FreshPlanStep(h: Hashes, s: State, c: Command)
    requires c.PreparePlan? || c.CommitPlan? || c.TransitionOperation?
    requires !MoveOf(h, s, c).Refuse?
    ensures !Fresh(MovedTo(MoveOf(h, s, c), s))
  {
    if c.PreparePlan? && Find(s.operations, OpKey, c.op).None? {
      var o := Operation(c.op, IntentDigest(h, s, s.Revision(), c.candidate), s.Revision(), OpPrepared, None, None, None);
      InsertMembers(s.operations, OpKey, o);
    }
  }

  lemma FreshTenureStep(h: Hashes, s: State, c: Command)
    requires c.PrepareTenure? || c.MarkTenureUncertain? || c.CommitTenure?
    requires !MoveOf(h, s, c).Refuse?
    ensures !Fresh(MovedTo(MoveOf(h, s, c), s))
  {
    if c.PrepareTenure? {
      InsertMembers(s.tenures, Tenures.TenureKey, Tenure(c.tenureRequest, c.domain, TenurePrepared, None));
    }
  }

  /** Only rotating authentication leaves a fresh state fresh. */
  lemma FreshStep(h: Hashes, s: State, c: Command)
    requires !MoveOf(h, s, c).Refuse?
    ensures Fresh(MovedTo(MoveOf(h, s, c), s)) <==> Fresh(s) && c.RotateAuth?
  {
    if c.PreparePlan? || c.CommitPlan? || c.TransitionOperation? { FreshPlanStep(h, s, c); }
    else if c.PrepareTenure? || c.MarkTenureUncertain? || c.CommitTenure? { FreshTenureStep(h, s, c); }
  }

  lemma FreshApply(h: Hashes, s: State, c: Command, n: State)
    requires Apply(h, s, c) == Ok(n)
    ensures Fresh(n) <==> Fresh(s) && c.RotateAuth?
  {
    FreshStep(h, s, c);
  }

  lemma SnapshotStep(x: Snapshot, n: State)
    requires SnapshotShape(x)
    ensures SnapshotAfter(x, n, true).Ok? <==> x.sequence < U64_MAX && !Fresh(n)
    ensures SnapshotAfter(x, n, true).Ok? ==>
              SnapshotShape(SnapshotAfter(x, n, true).value) && SnapshotAfter(x, n, true).value.state == n
  {
  }

  lemma SuccessorIsValid(n: State, s: State)
    requires Successor(n, s)
    ensures Valid(n)
  {
  }

  lemma Committable(x: Snapshot, n: State)
    requires SnapshotShape(x) && Successor(n, x.state)
    ensures TrySuccessor(x, n).Ok? <==> x.sequence < U64_MAX && !Fresh(n)
    ensures TrySuccessor(x, n).Ok? ==> SnapshotValid(TrySuccessor(x, n).value)
  {
    SuccessorIsValid(n, x.state);
    assert TrySuccessor(x, n) == SnapshotAfter(x, n, true);
    SnapshotStep(x, n);
  }

  /** A mutator's result can always be committed, except when the snapshot
      sequence is exhausted or authentication is rotated before anything else
      has ever been recorded. */
  lemma MutatorsCommit(h: Hashes, x: Snapshot, c: Command, n: State)
    requires SnapshotValid(x) && Apply(h, x.state, c) == Ok(n)
    ensures TrySuccessor(x, n).Ok? <==> x.sequence < U64_MAX && !(Fresh(x.state) && c.RotateAuth?)
    ensures TrySuccessor(x, n).Ok? ==> SnapshotValid(TrySuccessor(x, n).value)
  {
    MutatorsSucceed(h, x.state, c);
    FreshApply(h, x.state, c, n);
    Committable(x, n);
  }
}
