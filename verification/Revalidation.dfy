/**
 What the validation at the end of a mutator can still object to, exactly.

 Starting from a valid state, the guards of a mutator already establish every
 part of validity except the few conditions collected in `Residual`. So the
 state invariant is kept by the transitions themselves, not merely re-checked.
 */
module Revalidation {
  import opened Types
  import opened Tables
  import opened Operations
  import Tenures
  import opened Rollouts
  import opened Allocations
  import opened Sizes
  import opened Journal

  predicate LedgerFits(s: State) {
    |s.operations| + |s.history| + Flag(s.rollout.Some?) <= MAX_LEDGER_RECORDS
  }

  /** Decided evidence does not stand against a receipt that arrives late. */
  predicate ReceiptFits(r: Rollout, receipt: Receipt) {
    && (r.Last().Some? && r.Last().value.decision.Some?
        && r.Last().value.decision.value.observed.ObservedPrepared? ==>
          DirectFollows(receipt, r.Last().value))
    && (forall a :: a in r.attempts && a.decision.Some? ==> !Contradicts(receipt, a))
  }

  /** Beyond fitting in a snapshot: the shared ledger bound when a row is added,
      planner coherence and a plan-digest collision when a plan is committed,
      evidence already decided when a receipt arrives, and the plan context of a
      terminal decision. */
  ghost predicate Residual(s: State, c: Command, n: State) {
    && SizeFits(n)
    && match c
       case PreparePlan(_, _) => LedgerFits(n)
       case CommitPlan(_, _) =>
         && n.plan.Some?
         && Coherent(n.plan.value.content, n.allocation)
         && DigestFresh(Committed(s.operations), n.plan.value.planDigest)
       case RecordIntent(_) => LedgerFits(n)
       case RecordDirect(receipt) =>
         s.rollout.Some? && ReceiptFits(s.rollout.value, receipt)
       case Decide(_, _) =>
         && n.rollout.Some? && n.plan.Some?
         && (var last := n.rollout.value.Last();
             last.Some? && last.value.DecidedTerminal() ==>
               TerminalContext(last.value, n.rollout.value.intent, n.scope, n.lineage, n.Revision(),
                               Some(n.plan.value.content.shape)))
       case _ => true
  }

  /** A move that leaves the tenures, the rollouts and the high water alone only
      has its ledger, its evidence and its size to answer for. */
  lemma SameRecords(s: State, n: State)
    requires Valid(s) && n.scope == s.scope && n.tenures == s.tenures
    requires n.Records() == s.Records() && n.highWater == s.highWater
    ensures Valid(n) <==> LedgerValid(n) && EvidenceValid(n) && SizeFits(n)
  {
  }

  // --------------------------------------------------------------- plan ledger

  /** Archived rollouts stay matched to their commits in a grown ledger. */
  lemma HistoryKept(history: seq<Rollout>, ops: seq<Operation>, revision: nat, generation: nat,
                    ops': seq<Operation>, revision': nat, generation': nat,
                    scope: Id, lineage: Id, target: Id, b: Option<Binding>)
    requires OperationsValid(ops, revision, generation) && OperationsValid(ops', revision', generation')
    requires Committed(ops) <= Committed(ops') && revision <= revision'
    requires HistoryFits(history, ops, scope, lineage, target, b, revision)
    ensures HistoryFits(history, ops', scope, lineage, target, b, revision')
    ensures forall k :: 0 <= k < |history| ==>
              RevisionOf(ops', history[k].intent.planDigest) == RevisionOf(ops, history[k].intent.planDigest)
  {
    forall k | 0 <= k < |history|
      ensures RevisionOf(ops', history[k].intent.planDigest) == RevisionOf(ops, history[k].intent.planDigest)
    {
      RevisionOfKept(ops, revision, generation, ops', revision', generation', history[k].intent.planDigest);
    }
  }

  /** A ledger whose commits are unchanged serves the same plan and evidence. */
  lemma SameCommits(s: State, ops: seq<Operation>)
    requires LedgerValid(s) && EvidenceValid(s)
    requires OperationsValid(ops, s.Revision(), s.allocation.generation)
    requires Committed(ops) == Committed(s.operations)
    ensures EvidenceValid(s.(operations := ops))
    ensures Capacity(s.(operations := ops)) ==> LedgerValid(s.(operations := ops))
  {
    HistoryKept(s.history, s.operations, s.Revision(), s.allocation.generation,
                ops, s.Revision(), s.allocation.generation, s.scope, s.lineage, s.allocation.target, s.binding);
  }

  lemma OperationsReplaced(s: State, ops: seq<Operation>)
    requires Valid(s)
    requires OperationsValid(ops, s.Revision(), s.allocation.generation)
    requires Committed(ops) == Committed(s.operations)
    ensures var n := s.(operations := ops); Valid(n) <==> Capacity(n) && SizeFits(n)
  {
    SameCommits(s, ops);
    assert s.(operations := ops).Records() == s.Records();
  }

  lemma RowAdded(s: State, o: Operation)
    requires Valid(s) && Find(s.operations, OpKey, o.id).None? && |s.operations| != MAX_LEDGER_RECORDS
    requires o.phase.OpPrepared? && o.expected == s.Revision() && OperationValid(o)
    ensures var n := s.(operations := Insert(s.operations, OpKey, o)); Valid(n) <==> SizeFits(n) && LedgerFits(n)
  {
    InsertKeepsLedger(s.operations, s.Revision(), s.allocation.generation, o);
    OperationsReplaced(s, Insert(s.operations, OpKey, o));
  }

  lemma PreparePlanGuards(h: Hashes, s: State, op: Id, c: Candidate, n: State)
    requires PreparePlanMove(h, s, op, c) == Next(n)
    ensures Find(s.operations, OpKey, op).None? && |s.operations| != MAX_LEDGER_RECORDS
    ensures n == s.(operations := Insert(s.operations, OpKey,
                      Operation(op, IntentDigest(h, s, s.Revision(), c), s.Revision(), OpPrepared, None, None, None)))
  {
  }

  lemma PreparePlanResidual(h: Hashes, s: State, op: Id, c: Candidate, n: State)
    requires Valid(s) && PreparePlanMove(h, s, op, c) == Next(n)
    ensures Valid(n) <==> SizeFits(n) && LedgerFits(n)
  {
    PreparePlanGuards(h, s, op, c, n);
    RowAdded(s, Operation(op, IntentDigest(h, s, s.Revision(), c), s.Revision(), OpPrepared, None, None, None));
  }

  lemma TransitionResidual(s: State, op: Id, phase: OperationPhase, result: Option<Id>, n: State)
    requires Valid(s) && TransitionMove(s, op, phase, result) == Next(n)
    ensures Valid(n) <==> SizeFits(n)
    ensures Committed(n.operations) == Committed(s.operations)
  {
    var k := Find(s.operations, OpKey, op).value;
    assert s.operations[k] in s.operations;
    ResolveKeepsLedger(s.operations, s.Revision(), s.allocation.generation, k, n.operations[k]);
    OperationsReplaced(s, n.operations);
  }

  // --------------------------------------------------------- tenure, binding, auth

  lemma TenuresReplaced(s: State, ts: seq<Tenure>)
    requires Valid(s) && |ts| <= MAX_TENURES && Tenures.TenuresValid(ts, s.scope)
    ensures var n := s.(tenures := ts); Valid(n) <==> SizeFits(n)
  {
    var n := s.(tenures := ts);
    assert n.Records() == s.Records();
    assert LedgerValid(n) && EvidenceValid(n);
  }

  /** A tenure move leaves a valid table that succeeds the old one, and touches
      nothing else. */
  ghost predicate TenuresMove(s: State, n: State) {
    && n == s.(tenures := n.tenures)
    && |n.tenures| <= |s.tenures| + (if |s.tenures| == MAX_TENURES then 0 else 1)
    && Tenures.TenuresValid(n.tenures, s.scope) && Tenures.TenuresSuccessor(n.tenures, s.tenures)
  }

  lemma PrepareTenureMoves(s: State, q: TenureRequest, domain: Digest, n: State)
    requires Tenures.TenuresValid(s.tenures, s.scope) && PrepareTenureMove(s, q, domain) == Next(n)
    ensures TenuresMove(s, n)
  {
    var t := Tenure(q, domain, TenurePrepared, None);
    Tenures.PrepareKeepsTenures(s.tenures, s.scope, t);
    InsertMembers(s.tenures, Tenures.TenureKey, t);
  }

  lemma MarkUncertainMoves(s: State, q: TenureRequest, n: State)
    requires Tenures.TenuresValid(s.tenures, s.scope) && MarkUncertainMove(s, q) == Next(n)
    ensures TenuresMove(s, n)
  {
    var k := Find(s.tenures, Tenures.TenureKey, q.operation).value;
    assert s.tenures[k] in s.tenures;
    Tenures.UpdateKeepsTenures(s.tenures, s.scope, k, n.tenures[k]);
    Tenures.UpdateIsSuccessor(s.tenures, s.scope, k, n.tenures[k]);
  }

  lemma CommitTenureMoves(s: State, q: TenureRequest, r: TenureResponse, n: State)
    requires Tenures.TenuresValid(s.tenures, s.scope) && CommitTenureMove(s, q, r) == Next(n)
    ensures TenuresMove(s, n)
  {
    var k := Find(s.tenures, Tenures.TenureKey, q.operation).value;
    assert s.tenures[k] in s.tenures;
    Tenures.UpdateKeepsTenures(s.tenures, s.scope, k, n.tenures[k]);
    Tenures.UpdateIsSuccessor(s.tenures, s.scope, k, n.tenures[k]);
  }

  lemma TenureMoves(h: Hashes, s: State, c: Command, n: State)
    requires c.PrepareTenure? || c.MarkTenureUncertain? || c.CommitTenure?
    requires Tenures.TenuresValid(s.tenures, s.scope) && MoveOf(h, s, c) == Next(n)
    ensures TenuresMove(s, n)
    ensures |s.tenures| <= MAX_TENURES ==> |n.tenures| <= MAX_TENURES
  {
    match c
    case PrepareTenure(q, domain) => PrepareTenureMoves(s, q, domain, n);
    case MarkTenureUncertain(q) => MarkUncertainMoves(s, q, n);
    case CommitTenure(q, r) => CommitTenureMoves(s, q, r, n);
  }

  lemma RotateAuthResidual(s: State, a: AuthPin, n: State)
    requires Valid(s) && RotateAuthMove(s, a) == Next(n)
    ensures Valid(n)
  {
    assert n.Records() == s.Records();
    assert LedgerValid(n) && EvidenceValid(n);
  }

  /** Query lineage survives a binding refresh, even one that advances the epoch. */
  lemma LineageUnderRefresh(r: Rollout, b: Binding, b': Binding, scope: Id)
    requires Lineage(r, b, scope) && BindingSuccessor(b', b)
    ensures Lineage(r, b', scope)
  {
    forall i | 0 <= i < |r.attempts| ensures AttemptLineage(r, i, b', scope) {
      assert AttemptLineage(r, i, b, scope);
    }
  }

  lemma EvidenceUnderRefresh(s: State, b: Binding)
    requires EvidenceValid(s) && (s.binding.Some? ==> BindingSuccessor(b, s.binding.value))
    ensures EvidenceValid(s.(binding := Some(b)))
  {
    forall k | 0 <= k < |s.history|
      ensures IntentBound(s.history[k].intent, s.allocation.target, Some(b)) && Lineage(s.history[k], b, s.scope)
    {
      LineageUnderRefresh(s.history[k], s.binding.value, b, s.scope);
    }
    if s.rollout.Some? {
      LineageUnderRefresh(s.rollout.value, s.binding.value, b, s.scope);
    }
  }

  lemma RecordBindingResidual(s: State, b: Binding, n: State)
    requires Valid(s) && BindingWellFormed(b) && RecordBindingMove(s, b) == Next(n)
    ensures Valid(n) <==> SizeFits(n)
  {
    EvidenceUnderRefresh(s, b);
    assert n.Records() == s.Records();
    assert LedgerValid(n);
  }

  // ----------------------------------------------------------------- plan commit

  /** A rollout the gate lets go is fit to be archived. */
  lemma ArchiveFits(r: Rollout, p: Plan, scope: Id, lineage: Id, target: Id, b: Binding)
    requires CurrentFits(r, Some(p), scope, lineage, target, Some(b)) && 0 < p.revision
    requires PermitsAdvance(r, b) == Ok(true)
    ensures ArchivedFits(r, p.revision, scope, lineage, target, Some(b), p.revision + 1)
  {
    GateSettles(r, b);
    forall a | a in r.attempts && a.DecidedTerminal()
      ensures TerminalContext(a, r.intent, scope, lineage, p.revision, None)
    {
      assert TerminalContext(a, r.intent, scope, lineage, p.revision, Some(p.content.shape));
    }
  }

  /** The committed row of the current plan fixes the revision of its digest in
      every ledger that keeps it. */
  lemma RevisionOfPlan(s: State, ops: seq<Operation>, revision: nat, generation: nat)
    requires LedgerValid(s) && s.plan.Some?
    requires Committed(s.operations) <= Committed(ops) && OperationsValid(ops, revision, generation)
    ensures RevisionOf(ops, s.plan.value.planDigest) == s.Revision() > 0
  {
    var p := s.plan.value;
    var o :| o in Committed(s.operations) && o.id == p.operation && o.expected + 1 == p.revision
             && o.planDigest == Some(p.planDigest);
    RevisionOfCommit(ops, revision, generation, o);
  }

  lemma HistoryAppended(history: seq<Rollout>, r: Rollout, ops: seq<Operation>, scope: Id, lineage: Id,
                        target: Id, b: Option<Binding>, current: nat)
    requires HistoryFits(history, ops, scope, lineage, target, b, current)
    requires ArchivedFits(r, current, scope, lineage, target, b, current + 1)
    requires RevisionOf(ops, r.intent.planDigest) == current
    ensures HistoryFits(history + [r], ops, scope, lineage, target, b, current + 1)
  {
    var history' := history + [r];
    forall k | 0 <= k < |history'|
      ensures ArchivedFits(history'[k], RevisionOf(ops, history'[k].intent.planDigest), scope, lineage, target, b, current + 1)
    {
      if k < |history| {
        assert ArchivedFits(history[k], RevisionOf(ops, history[k].intent.planDigest), scope, lineage, target, b, current);
      }
    }
  }

  /** The current rollout, let go by the gate, joins an archive that fits. */
  lemma CommitArchives(s: State, ops: seq<Operation>, generation: nat)
    requires LedgerValid(s) && EvidenceValid(s) && s.rollout.Some? && s.binding.Some?
    requires PermitsAdvance(s.rollout.value, s.binding.value) == Ok(true)
    requires Committed(s.operations) <= Committed(ops) && OperationsValid(ops, s.Revision() + 1, generation)
    requires HistoryFits(s.history, ops, s.scope, s.lineage, s.allocation.target, s.binding, s.Revision())
    ensures HistoryFits(s.history + [s.rollout.value], ops, s.scope, s.lineage, s.allocation.target, s.binding,
                        s.Revision() + 1)
  {
    ArchiveFits(s.rollout.value, s.plan.value, s.scope, s.lineage, s.allocation.target, s.binding.value);
    RevisionOfPlan(s, ops, s.Revision() + 1, generation);
    HistoryAppended(s.history, s.rollout.value, ops, s.scope, s.lineage, s.allocation.target, s.binding, s.Revision());
  }

  lemma HistoryInGrownLedger(s: State, ops: seq<Operation>, generation: nat)
    requires LedgerValid(s) && EvidenceValid(s)
    requires Committed(s.operations) <= Committed(ops) && OperationsValid(ops, s.Revision() + 1, generation)
    ensures HistoryFits(s.history, ops, s.scope, s.lineage, s.allocation.target, s.binding, s.Revision())
    ensures HistoryFits(s.history, ops, s.scope, s.lineage, s.allocation.target, s.binding, s.Revision() + 1)
  {
    HistoryKept(s.history, s.operations, s.Revision(), s.allocation.generation,
                ops, s.Revision() + 1, generation, s.scope, s.lineage, s.allocation.target, s.binding);
  }

  lemma CommitEvidence(s: State, history: seq<Rollout>, ops: seq<Operation>, generation: nat)
    requires LedgerValid(s) && EvidenceValid(s) && ArchiveForCommit(s) == Ok(history)
    requires Committed(s.operations) <= Committed(ops) && OperationsValid(ops, s.Revision() + 1, generation)
    ensures HistoryFits(history, ops, s.scope, s.lineage, s.allocation.target, s.binding, s.Revision() + 1)
  {
    HistoryInGrownLedger(s, ops, generation);
    if s.rollout.Some? { CommitArchives(s, ops, generation); }
  }

  /** The history bound is never what stops a plan commit: the shared ledger
      bound is already tighter while an operation is prepared. */
  lemma HistoryCapacityUnreachable(s: State, o: Operation)
    requires LedgerValid(s) && o in s.operations && !o.phase.OpCommitted?
    ensures s.rollout.Some? ==> |s.history| < MAX_HISTORY
    ensures |s.operations| > s.Revision() && 2 * |s.history| < MAX_LEDGER_RECORDS
  {
    LedgerSize(s.operations, s.Revision());
  }

  /** The 256-record bound, one commit per revision and fewer archives than revisions
      already keep the archive within its own bound. */
  lemma HistoryBoundImplied(s: State)
    requires OperationsValid(s.operations, s.Revision(), s.allocation.generation) && LedgerFits(s)
    requires |s.history| <= (if s.Revision() == 0 then 0 else s.Revision() - 1)
    ensures |s.history| <= MAX_HISTORY == 127
  {
    LedgerSize(s.operations, s.Revision());
  }

  /** Row `k` is prepared at this revision and nothing else is pending there. */
  predicate RowReady(ops: seq<Operation>, k: nat, revision: nat) {
    && k < |ops| && ops[k].phase.OpPrepared? && ops[k].expected == revision
    && forall q :: q in ops && q.id != ops[k].id && q.expected == revision ==> !q.phase.OpPrepared? && !q.phase.OpUncertain?
  }

  /** What the guards of a plan commit establish about the ledger row and the new
      plan. */
  predicate CommitReady(s: State, k: nat, p: Plan) {
    var ready :=
      && RowReady(s.operations, k, s.Revision())
      && p.revision == s.Revision() + 1 && p.operation == s.operations[k].id && p.intent == s.operations[k].intent
      && p.scope == s.scope && p.lineage == s.lineage
      && p.target == s.allocation.target && p.content.manifest == s.manifest.digest
      && (s.binding.Some? ==> p.target == s.binding.value.target && p.content.manifest == s.binding.value.manifest);
    ready
  }

  lemma CommitGuards(h: Hashes, s: State, op: Id, c: Candidate, n: State)
    requires CommitPlanMove(h, s, op, c) == Next(n)
    ensures var k := Find(s.operations, OpKey, op);
            && k.Some? && n.plan.Some?
            && CommitReady(s, k.value, n.plan.value)
            && ApplyDelta(s.allocation, c.delta) == Some(n.allocation)
            && ArchiveForCommit(s) == Ok(n.history)
            && n == AfterCommit(s, k.value, n.allocation, n.plan.value, n.history)
  {
  }

  /** The ledger after a commit has one more revision, unless two plans share a
      digest. */
  lemma CommitLedger(ops: seq<Operation>, revision: nat, generation: nat, k: nat, next: nat, digest: Digest)
    requires OperationsValid(ops, revision, generation) && RowReady(ops, k, revision)
    requires generation <= next <= generation + 1
    ensures OperationsValid(ops[k := CommittedAs(ops[k], next, digest)], revision + 1, next)
            <==> DigestFresh(Committed(ops), digest)
  {
    CommitAdvancesLedger(ops, revision, generation, k, next, digest);
  }

  lemma CommitMembers(ops: seq<Operation>, revision: nat, generation: nat, k: nat, next: nat, digest: Digest)
    requires OperationsValid(ops, revision, generation) && RowReady(ops, k, revision)
    ensures Committed(ops[k := CommittedAs(ops[k], next, digest)]) == Committed(ops) + {CommittedAs(ops[k], next, digest)}
  {
    var o := CommittedAs(ops[k], next, digest);
    UpdateMembers(ops, OpKey, k, o);
    assert Committed(ops[k := o]) == Committed(ops) + {o};
  }

  lemma CommitPlanFits(s: State, k: nat, a: Allocation, p: Plan, ops: seq<Operation>)
    requires LedgerValid(s) && CommitReady(s, k, p) && StepsAllocation(a, s.allocation)
    requires CommittedAs(s.operations[k], a.generation, p.planDigest) in Committed(ops)
    ensures PlanFits(p, s.scope, s.lineage, a, s.manifest, ops) <==> Coherent(p.content, a)
    ensures s.binding.Some? ==> BindingFits(s.binding.value, a, s.manifest, Some(p))
  {
  }

  lemma CommitLedgerValid(s: State, k: nat, a: Allocation, p: Plan, history: seq<Rollout>)
    requires LedgerValid(s) && CommitReady(s, k, p) && StepsAllocation(a, s.allocation)
    requires |history| <= s.Revision() && |history| <= MAX_HISTORY
    requires |history| <= |s.history| + Flag(s.rollout.Some?)
    ensures LedgerValid(AfterCommit(s, k, a, p, history))
            <==> Coherent(p.content, a) && DigestFresh(Committed(s.operations), p.planDigest)
  {
    CommitLedger(s.operations, s.Revision(), s.allocation.generation, k, a.generation, p.planDigest);
    CommitMembers(s.operations, s.Revision(), s.allocation.generation, k, a.generation, p.planDigest);
    CommitPlanFits(s, k, a, p, AfterCommit(s, k, a, p, history).operations);
  }

  lemma ArchiveKeepsRecords(s: State, history: seq<Rollout>)
    requires ArchiveForCommit(s) == Ok(history)
    ensures history == s.Records()
  {
  }

  lemma CommitEvidenceValid(s: State, k: nat, a: Allocation, p: Plan, history: seq<Rollout>)
    requires LedgerValid(s) && EvidenceValid(s) && CommitReady(s, k, p) && StepsAllocation(a, s.allocation)
    requires ArchiveForCommit(s) == Ok(history) && DigestFresh(Committed(s.operations), p.planDigest)
    ensures EvidenceValid(AfterCommit(s, k, a, p, history))
  {
    CommitLedger(s.operations, s.Revision(), s.allocation.generation, k, a.generation, p.planDigest);
    CommitMembers(s.operations, s.Revision(), s.allocation.generation, k, a.generation, p.planDigest);
    CommitEvidence(s, history, AfterCommit(s, k, a, p, history).operations, a.generation);
  }

  lemma CommitValid(s: State, k: nat, a: Allocation, p: Plan, history: seq<Rollout>)
    requires LedgerValid(s) && EvidenceValid(s) && CommitReady(s, k, p) && StepsAllocation(a, s.allocation)
    requires ArchiveForCommit(s) == Ok(history)
    ensures var n := AfterCommit(s, k, a, p, history);
            LedgerValid(n) && EvidenceValid(n)
            <==> Coherent(p.content, a) && DigestFresh(Committed(s.operations), p.planDigest)
  {
    ArchiveKeepsRecords(s, history);
    HistoryCapacityUnreachable(s, s.operations[k]);
    CommitLedgerValid(s, k, a, p, history);
    if DigestFresh(Committed(s.operations), p.planDigest) { CommitEvidenceValid(s, k, a, p, history); }
  }

  lemma CommitPlanParts(h: Hashes, s: State, op: Id, c: Candidate, n: State)
    requires LedgerValid(s) && EvidenceValid(s) && CommitPlanMove(h, s, op, c) == Next(n)
    ensures n.plan.Some? && n.scope == s.scope && n.tenures == s.tenures && n.highWater == s.highWater
    ensures n.Records() == s.Records()
    ensures LedgerValid(n) && EvidenceValid(n) <==>
              Coherent(n.plan.value.content, n.allocation) && DigestFresh(Committed(s.operations), n.plan.value.planDigest)
  {
    CommitGuards(h, s, op, c, n);
    DeltaSteps(s.allocation, c.delta, n.allocation);
    CommitValid(s, Find(s.operations, OpKey, op).value, n.allocation, n.plan.value, n.history);
    ArchiveKeepsRecords(s, n.history);
  }

  lemma CommitPlanResidual(h: Hashes, s: State, op: Id, c: Candidate, n: State)
    requires Valid(s) && CommitPlanMove(h, s, op, c) == Next(n)
    ensures Valid(n) <==> Residual(s, CommitPlan(op, c), n)
    ensures n.Records() == s.Records()
  {
    CommitPlanParts(h, s, op, c, n);
    SameRecords(s, n);
  }

  // -------------------------------------------------------------- current rollout

  function WithRollout(s: State, r: Rollout, high: nat): State {
    s.(rollout := Some(r), highWater := high)
  }

  lemma LedgerWithRollout(s: State, r: Rollout, high: nat)
    requires LedgerValid(s)
    ensures LedgerValid(WithRollout(s, r, high)) <==> LedgerFits(WithRollout(s, r, high))
  {
    assert Capacity(s);
  }

  /** A move on the current rollout only has that rollout, the identities, the
      shared bound and the size to answer for. */
  lemma RolloutReplaced(s: State, r: Rollout, high: nat)
    requires Valid(s)
    ensures var n := WithRollout(s, r, high);
            Valid(n) <==> && LedgerFits(n) && SizeFits(n)
                          && CurrentFits(r, s.plan, s.scope, s.lineage, s.allocation.target, s.binding)
                          && IdentitiesValid(n.Records(), high)
  {
    LedgerWithRollout(s, r, high);
  }

  /** Identities only look at intents, prepared queries and observations. */
  predicate SameIdentities(r: Rollout, was: Rollout) {
    && r.intent == was.intent && |r.attempts| == |was.attempts|
    && forall i :: 0 <= i < |r.attempts| ==>
         && r.attempts[i].prepared == was.attempts[i].prepared
         && r.attempts[i].observation == was.attempts[i].observation
  }

  lemma IdentitiesKept(history: seq<Rollout>, was: Rollout, r: Rollout, high: nat)
    requires IdentitiesValid(history + [was], high) && SameIdentities(r, was)
    ensures IdentitiesValid(history + [r], high)
  {
    var before, after := history + [was], history + [r];
    assert DistinctApplies(after) by {
      assert forall k :: 0 <= k < |after| ==> after[k].intent == before[k].intent;
    }
    assert DistinctQueries(after) by {
      forall q: nat, i: nat | HasAttempt(after, q, i)
        ensures HasAttempt(before, q, i)
        ensures AttemptAt(after, q, i).prepared == AttemptAt(before, q, i).prepared
      {
      }
    }
    assert forall q: nat, i: nat, n: nat :: ObservedAt(after, q, i, n) <==> ObservedAt(before, q, i, n);
  }

  /** A fresh intent has no queries yet. */
  lemma IdentitiesWithIntent(history: seq<Rollout>, i: Intent, high: nat)
    requires IdentitiesValid(history, high) && forall r :: r in history ==> !SameApply(r.intent, i)
    ensures IdentitiesValid(history + [Rollout(i, None, [])], high)
  {
    var before, after := history, history + [Rollout(i, None, [])];
    assert DistinctApplies(after);
    assert DistinctQueries(after) by {
      forall q: nat, i: nat | HasAttempt(after, q, i)
        ensures HasAttempt(before, q, i) && AttemptAt(after, q, i) == AttemptAt(before, q, i)
      {
      }
    }
    assert forall q: nat, i: nat, n: nat :: ObservedAt(after, q, i, n) <==> ObservedAt(before, q, i, n);
  }

  lemma IdentitiesWithQuery(history: seq<Rollout>, was: Rollout, p: Prepared, high: nat)
    requires IdentitiesValid(history + [was], high)
    requires !QueryArchived(history, p.request) && forall a :: a in was.attempts ==> !SameQuery(a.prepared.request, p.request)
    ensures IdentitiesValid(history + [was.(attempts := was.attempts + [Attempt(p, None, None, None)])], high)
  {
    var r := was.(attempts := was.attempts + [Attempt(p, None, None, None)]);
    var before, after := history + [was], history + [r];
    var last := |was.attempts|;
    assert DistinctApplies(after) by {
      assert forall k :: 0 <= k < |after| ==> after[k].intent == before[k].intent;
    }
    assert DistinctQueries(after) by {
      forall q: nat, i: nat | HasAttempt(after, q, i) && (q != |history| || i != last)
        ensures HasAttempt(before, q, i) && AttemptAt(after, q, i) == AttemptAt(before, q, i)
        ensures !SameQuery(AttemptAt(after, q, i).prepared.request, p.request)
      {
        assert before[q].attempts[i] in before[q].attempts;
        if q < |history| { assert history[q] in history; }
      }
    }
    assert forall q: nat, i: nat, n: nat :: ObservedAt(after, q, i, n) <==> ObservedAt(before, q, i, n);
  }

  /** Observing in the last attempt at or above the high water moves it there. */
  lemma IdentitiesWithObservation(history: seq<Rollout>, was: Rollout, o: Observation, high: nat)
    requires IdentitiesValid(history + [was], high)
    requires was.Last().Some? && was.Last().value.observation.None? && high <= o.Sequence()
    ensures var k := |was.attempts| - 1;
            IdentitiesValid(history + [was.(attempts := was.attempts[k := was.attempts[k].(observation := Some(o))])],
                            o.Sequence())
  {
    var k := |was.attempts| - 1;
    var r := was.(attempts := was.attempts[k := was.attempts[k].(observation := Some(o))]);
    var before, after := history + [was], history + [r];
    assert DistinctApplies(after) by {
      assert forall k :: 0 <= k < |after| ==> after[k].intent == before[k].intent;
    }
    assert DistinctQueries(after) by {
      forall q: nat, i: nat | HasAttempt(after, q, i)
        ensures HasAttempt(before, q, i)
        ensures AttemptAt(after, q, i).prepared == AttemptAt(before, q, i).prepared
      {
      }
    }
    forall q: nat, i: nat, n: nat | ObservedAt(after, q, i, n) ensures n <= o.Sequence() {
      if q != |history| || i != k { assert ObservedAt(before, q, i, n); }
    }
    assert ObservedAt(after, |history|, k, o.Sequence());
  }

  lemma IntentGuards(s: State, input: IntentInput, n: State)
    requires RecordIntentMove(s, input) == Next(n)
    ensures n.rollout.Some? && n == WithRollout(s, n.rollout.value, s.highWater)
    ensures n.rollout.value == Rollout(n.rollout.value.intent, None, [])
    ensures s.rollout.None? && s.plan.Some? && s.binding.Some?
    ensures forall r :: r in s.history ==> !SameApply(r.intent, n.rollout.value.intent)
    ensures var i := n.rollout.value.intent;
            && IntentBound(i, s.allocation.target, s.binding) && i.planDigest == s.plan.value.planDigest
            && i.target == s.plan.value.target && i.manifest == s.plan.value.content.manifest
  {
  }

  lemma IntentAdded(s: State, i: Intent)
    requires Valid(s) && s.rollout.None? && s.plan.Some?
    requires forall r :: r in s.history ==> !SameApply(r.intent, i)
    requires CurrentFits(Rollout(i, None, []), s.plan, s.scope, s.lineage, s.allocation.target, s.binding)
    ensures var n := WithRollout(s, Rollout(i, None, []), s.highWater); Valid(n) <==> SizeFits(n) && LedgerFits(n)
  {
    assert s.Records() == s.history;
    IdentitiesWithIntent(s.history, i, s.highWater);
    RolloutReplaced(s, Rollout(i, None, []), s.highWater);
  }

  lemma RecordIntentResidual(s: State, input: IntentInput, n: State)
    requires Valid(s) && RecordIntentMove(s, input) == Next(n)
    ensures Valid(n) <==> SizeFits(n) && LedgerFits(n)
  {
    IntentGuards(s, input, n);
    IntentAdded(s, n.rollout.value.intent);
  }

  lemma DirectGuards(s: State, receipt: Receipt, n: State)
    requires RecordDirectMove(s, receipt) == Next(n)
    ensures s.rollout.Some? && s.rollout.value.direct.None?
    ensures n == WithRollout(s, s.rollout.value.(direct := Some(receipt)), s.highWater)
    ensures var r := s.rollout.value;
            && ReceiptAnswers(receipt, r.intent)
            && (r.Last().Some? && r.Last().value.DecidedTerminal() ==>
                  DirectMatches(receipt, r.Last().value.decision.value))
  {
  }

  lemma DirectAdded(s: State, receipt: Receipt)
    requires Valid(s) && s.rollout.Some? && s.rollout.value.direct.None?
    requires ReceiptAnswers(receipt, s.rollout.value.intent)
    requires var last := s.rollout.value.Last();
             last.Some? && last.value.DecidedTerminal() ==> DirectMatches(receipt, last.value.decision.value)
    ensures var n := WithRollout(s, s.rollout.value.(direct := Some(receipt)), s.highWater);
            Valid(n) <==> SizeFits(n) && ReceiptFits(s.rollout.value, receipt)
  {
    var r := s.rollout.value;
    var r' := r.(direct := Some(receipt));
    assert LedgerFits(s);
    IdentitiesKept(s.history, r, r', s.highWater);
    DirectRecorded(r, receipt, s.plan, s.scope, s.lineage, s.allocation.target, s.binding);
    RolloutReplaced(s, r', s.highWater);
  }

  lemma RecordDirectResidual(s: State, receipt: Receipt, n: State)
    requires Valid(s) && RecordDirectMove(s, receipt) == Next(n)
    ensures s.rollout.Some?
    ensures Valid(n) <==> SizeFits(n) && ReceiptFits(s.rollout.value, receipt)
  {
    DirectGuards(s, receipt, n);
    DirectAdded(s, receipt);
  }

  lemma DirectRecorded(r: Rollout, receipt: Receipt, plan: Option<Plan>, scope: Id, lineage: Id, target: Id,
                       b: Option<Binding>)
    requires CurrentFits(r, plan, scope, lineage, target, b) && r.direct.None? && ReceiptAnswers(receipt, r.intent)
    requires r.Last().Some? && r.Last().value.DecidedTerminal() ==>
               DirectMatches(receipt, r.Last().value.decision.value)
    ensures CurrentFits(r.(direct := Some(receipt)), plan, scope, lineage, target, b) <==> ReceiptFits(r, receipt)
  {
    var r' := r.(direct := Some(receipt));
    assert r'.Last() == r.Last();
    if r.Last().Some? { assert r.Last().value in r.attempts; }
    assert Lineage(r', b.value, scope) by {
      forall i | 0 <= i < |r.attempts| ensures AttemptLineage(r', i, b.value, scope) {
        assert AttemptLineage(r, i, b.value, scope);
      }
    }
  }

  // -------------------------------------------------------------- query attempts

  function ReplaceLast(r: Rollout, a: Attempt): Rollout
    requires r.attempts != []
  {
    r.(attempts := r.attempts[|r.attempts| - 1 := a])
  }

  /** What a new version `a` of the open last attempt must satisfy on its own. */
  predicate LastFits(r: Rollout, a: Attempt)
    requires r.attempts != []
  {
    var was := r.attempts[|r.attempts| - 1];
    && a.prepared == was.prepared && AttemptValid(a)
    && (a.observation.Some? ==> ObservationValid(a.observation.value, a.prepared))
    && (forall i :: 0 <= i < |r.attempts| - 1 ==> InOrder(r.attempts[i], a))
    && (r.direct.Some? && a.decision.Some? ==>
          DirectAllows(r.direct.value, a, a.decision.value) && !Contradicts(r.direct.value, a))
  }

  lemma ReplaceMembers(r: Rollout, a: Attempt)
    requires r.attempts != []
    ensures var r' := ReplaceLast(r, a);
            && |r'.attempts| == |r.attempts|
            && (forall i :: 0 <= i < |r.attempts| - 1 ==> r'.attempts[i] == r.attempts[i])
            && r'.attempts[|r.attempts| - 1] == a
            && r'.Last() == Some(a) && a in r'.attempts
            && (forall x :: x in r'.attempts ==> x in r.attempts || x == a)
            && (forall x :: x in r.attempts && x != r.attempts[|r.attempts| - 1] ==> x in r'.attempts)
  {
    var r' := ReplaceLast(r, a);
    forall x | x in r.attempts && x != r.attempts[|r.attempts| - 1] ensures x in r'.attempts {
      var i :| 0 <= i < |r.attempts| && r.attempts[i] == x;
      assert r'.attempts[i] == x;
    }
  }

  lemma ReplacedValid(r: Rollout, a: Attempt)
    requires RolloutValid(r) && r.attempts != [] && LastFits(r, a)
    ensures RolloutValid(ReplaceLast(r, a))
  {
    ReplaceMembers(r, a);
    var r' := ReplaceLast(r, a);
    forall i, j | 0 <= i < j < |r'.attempts| ensures InOrder(r'.attempts[i], r'.attempts[j]) {
      assert InOrder(r.attempts[i], r.attempts[j]);
    }
  }

  lemma ReplacedLineage(r: Rollout, a: Attempt, b: Binding, scope: Id)
    requires Lineage(r, b, scope) && r.attempts != [] && LastFits(r, a)
    ensures Lineage(ReplaceLast(r, a), b, scope)
  {
    ReplaceMembers(r, a);
    forall i | 0 <= i < |r.attempts| ensures AttemptLineage(ReplaceLast(r, a), i, b, scope) {
      assert AttemptLineage(r, i, b, scope);
    }
  }

  /** Replacing the undecided last attempt: only the plan context of a terminal
      decision is left to check. */
  lemma CurrentReplaced(r: Rollout, a: Attempt, plan: Option<Plan>, scope: Id, lineage: Id, target: Id,
                        b: Option<Binding>)
    requires CurrentFits(r, plan, scope, lineage, target, b) && r.attempts != [] && LastFits(r, a)
    requires r.attempts[|r.attempts| - 1].decision.None?
    ensures CurrentFits(ReplaceLast(r, a), plan, scope, lineage, target, b) <==>
              (a.DecidedTerminal() ==>
                 TerminalContext(a, r.intent, scope, lineage, plan.value.revision, Some(plan.value.content.shape)))
  {
    ReplaceMembers(r, a);
    ReplacedValid(r, a);
    ReplacedLineage(r, a, b.value, scope);
    var r' := ReplaceLast(r, a);
    assert Context(r', scope, lineage, plan.value.revision, Some(plan.value.content.shape)) <==>
             (a.DecidedTerminal() ==>
                TerminalContext(a, r.intent, scope, lineage, plan.value.revision, Some(plan.value.content.shape)));
  }

  /** The current rollout's last attempt moves to `a`. */
  lemma LastReplaced(s: State, a: Attempt)
    requires Valid(s) && s.rollout.Some? && s.rollout.value.attempts != []
    requires LastFits(s.rollout.value, a)
    requires var was := s.rollout.value.Last().value; was.decision.None? && a.observation == was.observation
    ensures s.plan.Some?
    ensures var n := WithLast(s, a); var i := s.rollout.value.intent; var p := s.plan.value;
            Valid(n) <==>
              && SizeFits(n)
              && (a.DecidedTerminal() ==>
                    TerminalContext(a, i, s.scope, s.lineage, p.revision, Some(p.content.shape)))
  {
    var r := s.rollout.value;
    var r' := ReplaceLast(r, a);
    assert LedgerFits(s);
    ReplaceMembers(r, a);
    IdentitiesKept(s.history, r, r', s.highWater);
    CurrentReplaced(r, a, s.plan, s.scope, s.lineage, s.allocation.target, s.binding);
    RolloutReplaced(s, r', s.highWater);
    assert WithLast(s, a) == WithRollout(s, r', s.highWater);
  }

  lemma ClosedFits(s: State, closure: Closure, n: State)
    requires Valid(s) && CloseQueryMove(s, closure) == Next(n)
    ensures LastFits(s.rollout.value, s.rollout.value.Last().value.(closure := Some(closure)))
  {
  }

  lemma CloseQueryResidual(s: State, closure: Closure, n: State)
    requires Valid(s) && CloseQueryMove(s, closure) == Next(n)
    ensures Valid(n) <==> SizeFits(n)
  {
    ClosedFits(s, closure, n);
    LastReplaced(s, s.rollout.value.Last().value.(closure := Some(closure)));
  }

  lemma DecidedFits(r: Rollout, a: Attempt, plan: Option<Plan>, scope: Id, lineage: Id, target: Id, b: Option<Binding>)
    requires CurrentFits(r, plan, scope, lineage, target, b) && !Conflicted(r) && r.attempts != []
    requires var was := r.Last().value;
             was.observation.Some? && was.decision.None? && a == was.(decision := a.decision)
    requires AttemptValid(a)
    requires r.direct.Some? && a.decision.Some? ==> DirectAllows(r.direct.value, a, a.decision.value)
    ensures LastFits(r, a)
  {
    var last := |r.attempts| - 1;
    assert r.attempts[last] in r.attempts;
    assert AttemptLineage(r, last, b.value, scope);
    forall i | 0 <= i < last ensures InOrder(r.attempts[i], a) {
      assert InOrder(r.attempts[i], r.attempts[last]);
    }
  }

  lemma DecideGuards(s: State, observed: Observed, receipt: Option<Id>, n: State)
    requires DecideMove(s, observed, receipt) == Next(n)
    ensures s.rollout.Some? && s.rollout.value.attempts != [] && !Conflicted(s.rollout.value)
    ensures n.rollout.Some? && n.rollout.value.Last().Some?
    ensures var was := s.rollout.value.Last().value; var a := n.rollout.value.Last().value;
            && n == WithLast(s, a)
            && was.observation.Some? && was.decision.None? && was.closure.None?
            && a == was.(decision := Some(Decision(was.observation.value.response.id, was.observation.value.Sequence(),
                                                   observed, receipt)))
            && AttemptValid(a)
            && (s.rollout.value.direct.Some? ==> DirectAllows(s.rollout.value.direct.value, a, a.decision.value))
  {
  }

  lemma AttemptDecided(s: State, a: Attempt)
    requires Valid(s) && s.rollout.Some? && s.rollout.value.attempts != [] && !Conflicted(s.rollout.value)
    requires var was := s.rollout.value.Last().value;
             was.observation.Some? && was.decision.None? && a == was.(decision := a.decision)
    requires AttemptValid(a)
    requires s.rollout.value.direct.Some? && a.decision.Some? ==>
               DirectAllows(s.rollout.value.direct.value, a, a.decision.value)
    ensures s.plan.Some?
    ensures var n := WithLast(s, a); var i := s.rollout.value.intent; var p := s.plan.value;
            Valid(n) <==>
              && SizeFits(n)
              && (a.DecidedTerminal() ==>
                    TerminalContext(a, i, s.scope, s.lineage, p.revision, Some(p.content.shape)))
  {
    DecidedFits(s.rollout.value, a, s.plan, s.scope, s.lineage, s.allocation.target, s.binding);
    LastReplaced(s, a);
  }

  lemma DecideResidual(s: State, observed: Observed, receipt: Option<Id>, n: State)
    requires Valid(s) && DecideMove(s, observed, receipt) == Next(n)
    ensures n.rollout.Some? && n.plan.Some? && n.rollout.value.Last().Some?
    ensures var a := n.rollout.value.Last().value;
            Valid(n) <==>
              && SizeFits(n)
              && (a.DecidedTerminal() ==>
                    TerminalContext(a, n.rollout.value.intent, n.scope, n.lineage, n.plan.value.revision,
                                    Some(n.plan.value.content.shape)))
  {
    DecideGuards(s, observed, receipt, n);
    AttemptDecided(s, n.rollout.value.Last().value);
  }

  // ------------------------------------------------------------ query observations

  /** Everything observed so far is at or below the high water. */
  lemma ObservedBelowHigh(s: State, i: nat)
    requires IdentitiesValid(s.Records(), s.highWater)
    requires s.rollout.Some? && i < |s.rollout.value.attempts| && s.rollout.value.attempts[i].observation.Some?
    ensures s.rollout.value.attempts[i].observation.value.Sequence() <= s.highWater
  {
    assert ObservedAt(s.Records(), |s.history|, i, s.rollout.value.attempts[i].observation.value.Sequence());
  }

  lemma {:induction false} PriorSequenceWitness(attempts: seq<Attempt>)
    requires PriorSequence(attempts).Some?
    ensures exists i :: 0 <= i < |attempts| && attempts[i].observation.Some?
                        && attempts[i].observation.value.Sequence() == PriorSequence(attempts).value
  {
    var last := |attempts| - 1;
    if attempts[last].observation.None? {
      PriorSequenceWitness(attempts[..last]);
      var i :| 0 <= i < last && attempts[..last][i].observation.Some?
               && attempts[..last][i].observation.value.Sequence() == PriorSequence(attempts).value;
      assert attempts[i] == attempts[..last][i];
    }
  }

  /** A response at or above the journal-wide high water cannot regress behind
      its own rollout, so the second regression test never fires by itself. */
  lemma HighWaterCoversPrior(s: State)
    requires IdentitiesValid(s.Records(), s.highWater) && s.rollout.Some? && s.rollout.value.attempts != []
    ensures var attempts := s.rollout.value.attempts; var prior := PriorSequence(attempts[..|attempts| - 1]);
            prior.Some? ==> prior.value <= s.highWater
  {
    var attempts := s.rollout.value.attempts;
    var earlier := attempts[..|attempts| - 1];
    if PriorSequence(earlier).Some? {
      PriorSequenceWitness(earlier);
      var i :| 0 <= i < |earlier| && earlier[i].observation.Some?
               && earlier[i].observation.value.Sequence() == PriorSequence(earlier).value;
      ObservedBelowHigh(s, i);
    }
  }

  lemma ResponseGuards(s: State, response: QueryResponse, channel: Channel, n: State)
    requires RecordResponseMove(s, response, channel) == Next(n)
    ensures s.rollout.Some? && s.rollout.value.attempts != []
    ensures var was := s.rollout.value.Last().value; var o := Observation(response, channel);
            && was.observation.None? && was.closure.None? && ObservationValid(o, was.prepared)
            && s.highWater <= o.Sequence()
            && n == WithRollout(s, ReplaceLast(s.rollout.value, was.(observation := Some(o))), o.Sequence())
  {
  }

  lemma ObservedFits(s: State, o: Observation)
    requires EvidenceValid(s) && IdentitiesValid(s.Records(), s.highWater)
    requires s.rollout.Some? && s.rollout.value.attempts != []
    requires var was := s.rollout.value.Last().value;
             was.observation.None? && was.closure.None? && ObservationValid(o, was.prepared)
    requires s.highWater <= o.Sequence()
    ensures s.rollout.value.Last().value.decision.None?
    ensures LastFits(s.rollout.value, s.rollout.value.Last().value.(observation := Some(o)))
  {
    var r := s.rollout.value;
    var last := |r.attempts| - 1;
    assert r.attempts[last] in r.attempts;
    forall i | 0 <= i < last ensures InOrder(r.attempts[i], r.attempts[last].(observation := Some(o))) {
      if r.attempts[i].observation.Some? { ObservedBelowHigh(s, i); }
    }
  }

  lemma ObservationAdded(s: State, o: Observation)
    requires Valid(s) && s.rollout.Some? && s.rollout.value.attempts != []
    requires var was := s.rollout.value.Last().value;
             was.observation.None? && was.closure.None? && ObservationValid(o, was.prepared)
    requires s.highWater <= o.Sequence()
    ensures var r := s.rollout.value; var was := r.Last().value;
            var n := WithRollout(s, ReplaceLast(r, was.(observation := Some(o))), o.Sequence());
            Valid(n) <==> SizeFits(n)
  {
    var r := s.rollout.value;
    var a := r.Last().value.(observation := Some(o));
    assert LedgerFits(s);
    ObservedFits(s, o);
    IdentitiesWithObservation(s.history, r, o, s.highWater);
    CurrentReplaced(r, a, s.plan, s.scope, s.lineage, s.allocation.target, s.binding);
    RolloutReplaced(s, ReplaceLast(r, a), o.Sequence());
  }

  lemma RecordResponseResidual(s: State, response: QueryResponse, channel: Channel, n: State)
    requires Valid(s) && RecordResponseMove(s, response, channel) == Next(n)
    ensures Valid(n) <==> SizeFits(n)
  {
    ResponseGuards(s, response, channel, n);
    ObservationAdded(s, Observation(response, channel));
  }

  // ----------------------------------------------------------------- query prepare

  function AppendQuery(r: Rollout, p: Prepared): Rollout {
    r.(attempts := r.attempts + [Attempt(p, None, None, None)])
  }

  lemma QueryGuards(s: State, q: QueryRequest, n: State)
    requires PrepareQueryMove(s, q) == Next(n)
    ensures s.binding.Some? && s.rollout.Some?
    ensures n == WithRollout(s, AppendQuery(s.rollout.value, NewPrepared(q, s.binding.value, s.auth)), s.highWater)
    ensures PreparedValid(NewPrepared(q, s.binding.value, s.auth), s.binding.value, s.scope, s.rollout.value.intent)
    ensures !QueryArchived(s.history, q)
    ensures forall a :: a in s.rollout.value.attempts ==> !SameQuery(a.prepared.request, q)
    ensures var r := s.rollout.value; var b := s.binding.value;
            && |r.attempts| != MAX_ATTEMPTS
            && (r.Last().Some? ==> r.Last().value.Resolved() && !DecidedCurrent(r.Last().value, b))
  {
  }

  lemma AppendedValid(r: Rollout, p: Prepared)
    requires RolloutValid(r) && |r.attempts| != MAX_ATTEMPTS
    requires forall a :: a in r.attempts ==> a.prepared.request.id != p.request.id
    requires r.Last().Some? ==> r.Last().value.Resolved()
    ensures RolloutValid(AppendQuery(r, p))
  {
    var r' := AppendQuery(r, p);
    var last := |r.attempts|;
    assert r'.Last() == Some(Attempt(p, None, None, None));
    forall i, j | 0 <= i < j < |r'.attempts|
      ensures InOrder(r'.attempts[i], r'.attempts[j])
      ensures r'.attempts[i].prepared.request.id != r'.attempts[j].prepared.request.id
    {
      assert r.attempts[i] in r.attempts;
      if j < last { assert InOrder(r.attempts[i], r.attempts[j]); }
    }
  }

  lemma AppendedLineage(r: Rollout, p: Prepared, b: Binding, scope: Id)
    requires Lineage(r, b, scope) && PreparedValid(p, b, scope, r.intent) && p.baseline.epoch == b.lastEpoch
    requires forall a :: a in r.attempts ==> AttemptValid(a)
    requires r.Last().Some? ==> !DecidedCurrent(r.Last().value, b)
    ensures Lineage(AppendQuery(r, p), b, scope)
  {
    var r' := AppendQuery(r, p);
    forall i | 0 <= i < |r'.attempts| ensures AttemptLineage(r', i, b, scope) {
      if i < |r.attempts| {
        assert AttemptLineage(r, i, b, scope);
        assert r.attempts[i] in r.attempts;
      }
    }
  }

  lemma AppendedFits(r: Rollout, p: Prepared, plan: Option<Plan>, scope: Id, lineage: Id, target: Id, b: Binding)
    requires CurrentFits(r, plan, scope, lineage, target, Some(b)) && |r.attempts| != MAX_ATTEMPTS
    requires PreparedValid(p, b, scope, r.intent) && p.baseline.epoch == b.lastEpoch
    requires forall a :: a in r.attempts ==> !SameQuery(a.prepared.request, p.request)
    requires r.Last().Some? ==> r.Last().value.Resolved() && !DecidedCurrent(r.Last().value, b)
    ensures CurrentFits(AppendQuery(r, p), plan, scope, lineage, target, Some(b))
  {
    AppendedValid(r, p);
    AppendedLineage(r, p, b, scope);
  }

  lemma QueryAdded(s: State, p: Prepared)
    requires Valid(s) && s.binding.Some? && s.rollout.Some?
    requires var r := s.rollout.value; var b := s.binding.value;
             && PreparedValid(p, b, s.scope, r.intent) && p.baseline.epoch == b.lastEpoch
             && !QueryArchived(s.history, p.request)
             && (forall a :: a in r.attempts ==> !SameQuery(a.prepared.request, p.request))
             && |r.attempts| != MAX_ATTEMPTS
             && (r.Last().Some? ==> r.Last().value.Resolved() && !DecidedCurrent(r.Last().value, b))
    ensures var n := WithRollout(s, AppendQuery(s.rollout.value, p), s.highWater); Valid(n) <==> SizeFits(n)
  {
    var r := s.rollout.value;
    assert LedgerFits(s);
    IdentitiesWithQuery(s.history, r, p, s.highWater);
    AppendedFits(r, p, s.plan, s.scope, s.lineage, s.allocation.target, s.binding.value);
    RolloutReplaced(s, AppendQuery(r, p), s.highWater);
  }

  lemma BindingServesItsEpoch(s: State)
    requires LedgerValid(s) && s.binding.Some?
    ensures BindingWellFormed(s.binding.value)
  {
  }

  lemma PrepareQueryResidual(s: State, q: QueryRequest, n: State)
    requires Valid(s) && PrepareQueryMove(s, q) == Next(n)
    ensures Valid(n) <==> SizeFits(n)
  {
    QueryGuards(s, q, n);
    BindingServesItsEpoch(s);
    QueryAdded(s, NewPrepared(q, s.binding.value, s.auth));
  }

  // ------------------------------------------------------------------ all mutators

  lemma PlanResidual(h: Hashes, s: State, c: Command, n: State)
    requires Valid(s) && MoveOf(h, s, c) == Next(n)
    requires c.PreparePlan? || c.CommitPlan? || c.TransitionOperation?
    ensures Valid(n) <==> Residual(s, c, n)
  {
    match c
    case PreparePlan(op, candidate) => PreparePlanResidual(h, s, op, candidate, n);
    case CommitPlan(op, candidate) => CommitPlanResidual(h, s, op, candidate, n);
    case TransitionOperation(op, phase, result) => TransitionResidual(s, op, phase, result, n);
  }

  lemma ControlResidual(h: Hashes, s: State, c: Command, n: State)
    requires Valid(s) && WellFormed(c) && MoveOf(h, s, c) == Next(n)
    requires c.PrepareTenure? || c.MarkTenureUncertain? || c.CommitTenure? || c.RecordBinding? || c.RotateAuth?
    ensures Valid(n) <==> Residual(s, c, n)
  {
    if c.RecordBinding? {
      RecordBindingResidual(s, c.binding, n);
    } else if c.RotateAuth? {
      RotateAuthResidual(s, c.auth, n);
    } else {
      TenureMoves(h, s, c, n);
      TenuresReplaced(s, n.tenures);
    }
  }

  lemma RolloutResidual(h: Hashes, s: State, c: Command, n: State)
    requires Valid(s) && MoveOf(h, s, c) == Next(n)
    requires c.RecordIntent? || c.RecordDirect? || c.PrepareQuery?
    ensures Valid(n) <==> Residual(s, c, n)
  {
    match c
    case RecordIntent(input) => RecordIntentResidual(s, input, n);
    case RecordDirect(receipt) => RecordDirectResidual(s, receipt, n);
    case PrepareQuery(q) => PrepareQueryResidual(s, q, n);
  }

  lemma QueryResidual(h: Hashes, s: State, c: Command, n: State)
    requires Valid(s) && MoveOf(h, s, c) == Next(n)
    requires c.RecordResponse? || c.CloseQuery? || c.Decide?
    ensures Valid(n) <==> Residual(s, c, n)
  {
    match c
    case RecordResponse(response, channel) => RecordResponseResidual(s, response, channel, n);
    case CloseQuery(closure) => CloseQueryResidual(s, closure, n);
    case Decide(observed, receipt) => DecideResidual(s, observed, receipt, n);
  }

  /** From a valid state, the final validation of any mutator succeeds exactly
      when the residual condition holds. */
  lemma Revalidated(h: Hashes, s: State, c: Command, n: State)
    requires Valid(s) && WellFormed(c) && MoveOf(h, s, c) == Next(n)
    ensures Valid(n) <==> Residual(s, c, n)
  {
    if c.PreparePlan? || c.CommitPlan? || c.TransitionOperation? {
      PlanResidual(h, s, c, n);
    } else if c.PrepareTenure? || c.MarkTenureUncertain? || c.CommitTenure? || c.RecordBinding? || c.RotateAuth? {
      ControlResidual(h, s, c, n);
    } else if c.RecordIntent? || c.RecordDirect? || c.PrepareQuery? {
      RolloutResidual(h, s, c, n);
    } else {
      QueryResidual(h, s, c, n);
    }
  }

  /** So the outcome of a call that moves is decided by the residual condition. */
  lemma CallConcludes(h: Hashes, s: State, c: Command, n: State)
    requires Valid(s) && WellFormed(c) && MoveOf(h, s, c) == Next(n)
    ensures Apply(h, s, c) == Concluded(Next(n), s, Residual(s, c, n))
  {
    Revalidated(h, s, c, n);
    ApplyNext(h, s, c, n, Residual(s, c, n));
  }
}
