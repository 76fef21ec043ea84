/**
 What the fourteen mutators promise, command by command and without their guards: when
 a call on a valid state succeeds, final validation included, and the state it leaves.
 */
module Outcomes {
  import opened Types
  import opened Tables
  import opened Operations
  import Tenures
  import opened Rollouts
  import opened Allocations
  import opened Sizes
  import opened Journal
  import opened Revalidation
  import opened Mutations

  // -------------------------------------------------------------------- rows of a table

  /** The sorted table `ys` is `xs` with the row under `y`'s key put to `y`. */
  ghost predicate Puts<T(!new)>(ys: seq<T>, xs: seq<T>, key: T -> nat, y: T) {
    SortedBy(ys, key) && forall x :: x in ys <==> (x in xs && key(x) != key(y)) || x == y
  }

  lemma {:induction false} SortedUnique<T>(xs: seq<T>, ys: seq<T>, key: T -> nat)
    requires SortedBy(xs, key) && SortedBy(ys, key) && forall x :: x in xs <==> x in ys
    ensures xs == ys
  {
    assert |xs| > 0 ==> xs[0] in ys;
    assert |ys| > 0 ==> ys[0] in xs;
    if xs != [] {
      var x, y := xs[1..], ys[1..];
      forall z | z in x ensures z in y { assert z in xs; assert z in ys; }
      forall z | z in y ensures z in x { assert z in ys; assert z in xs; }
      SortedUnique(x, y, key);
      assert xs == [xs[0]] + x && ys == [ys[0]] + y;
    }
  }

  lemma PutsUnique<T(!new)>(ys: seq<T>, zs: seq<T>, xs: seq<T>, key: T -> nat, y: T)
    requires Puts(zs, xs, key, y)
    ensures Puts(ys, xs, key, y) <==> ys == zs
  {
    if Puts(ys, xs, key, y) { SortedUnique(ys, zs, key); }
  }

  lemma InsertPuts<T(!new)>(ys: seq<T>, xs: seq<T>, key: T -> nat, y: T)
    requires SortedBy(xs, key) && Find(xs, key, key(y)).None?
    ensures Puts(ys, xs, key, y) <==> ys == Insert(xs, key, y)
  {
    InsertMembers(xs, key, y);
    InsertSorts(xs, key, y);
    PutsUnique(ys, Insert(xs, key, y), xs, key, y);
  }

  lemma UpdatePuts<T(!new)>(ys: seq<T>, xs: seq<T>, key: T -> nat, k: nat, y: T)
    requires SortedBy(xs, key) && k < |xs| && key(xs[k]) == key(y)
    ensures Puts(ys, xs, key, y) <==> ys == xs[k := y]
  {
    UpdateMembers(xs, key, k, y);
    forall x | x in xs && key(x) == key(y) ensures x == xs[k] { KeysAreUnique(xs, key, x, xs[k]); }
    PutsUnique(ys, xs[k := y], xs, key, y);
  }

  /** Searching by key finds the one row there is. */
  lemma FindIs<T>(xs: seq<T>, key: T -> nat, k: nat)
    requires SortedBy(xs, key)
    ensures Find(xs, key, k).None? ==> forall x :: x in xs ==> key(x) != k
    ensures Find(xs, key, k).Some? ==> forall x :: x in xs && key(x) == k <==> x == xs[Find(xs, key, k).value]
  {
    var f := Find(xs, key, k);
    if f.Some? {
      assert xs[f.value] in xs;
      forall x | x in xs && key(x) == k ensures x == xs[f.value] { KeysAreUnique(xs, key, x, xs[f.value]); }
    }
  }

  // ------------------------------------------------------------------- plan operations

  /** The candidate is for this journal's target and manifest, and its digest is its
      content's. */
  predicate CandidateFits(h: Hashes, s: State, c: Candidate) {
    c.content.target == s.allocation.target && c.content.manifest == s.manifest.digest
    && c.contentDigest == h.content(c.content)
  }

  predicate HasRow(s: State, op: Id) { exists o :: o in s.operations && o.id == op }

  /** The row that preparing a plan adds. */
  function PendingRow(h: Hashes, s: State, op: Id, c: Candidate): Operation {
    Operation(op, h.intent(s.scope, s.lineage, s.Revision(), c), s.Revision(), OpPrepared, None, None, None)
  }

  /** Preparing again under the same intent changes nothing; otherwise a new row for the
      current revision is added, if the delta applies and the ledger has room. */
  ghost predicate PlanPrepared(h: Hashes, s: State, op: Id, c: Candidate, n: State) {
    && CandidateFits(h, s, c)
    && if HasRow(s, op) then
         n == s && exists o :: o in s.operations && o.id == op && o.intent == h.intent(s.scope, s.lineage, o.expected, c)
       else
         && ApplyDelta(s.allocation, c.delta).Some?
         && n == s.(operations := n.operations) && Puts(n.operations, s.operations, OpKey, PendingRow(h, s, op, c))
         && LedgerFits(n) && SizeFits(n)
  }

  /** No rollout stands in the way of the next plan. */
  predicate Released(s: State) {
    s.rollout.Some? ==>
      s.binding.Some? && !Conflicted(s.rollout.value) && Releasable(s.rollout.value, s.binding.value.lastEpoch)
  }

  /** The plan that row `o` commits. */
  function PlanOf(h: Hashes, s: State, o: Operation, c: Candidate): Plan {
    Plan(s.scope, s.lineage, o.expected + 1, s.allocation.target, c.content, h.content(c.content),
         h.plan(s.scope, s.lineage, o.expected + 1, c.content), h.storage(c.content.bytes), o.id, o.intent)
  }

  /** The state that committing the prepared row `o` leaves. */
  ghost predicate AfterRow(s: State, o: Operation, p: Plan, n: State) {
    && n == s.(allocation := n.allocation, plan := Some(p), operations := n.operations, rollout := None,
               history := s.Records())
    && Puts(n.operations, s.operations, OpKey,
            o.(phase := OpCommitted, generation := Some(n.allocation.generation), planDigest := Some(p.planDigest)))
  }

  /** What committing it requires. */
  predicate RowReleased(s: State, o: Operation) {
    Released(s) && forall q :: q in s.operations && q != o ==> q.phase.OpCommitted? || q.phase.OpTerminal?
  }

  ghost predicate RowCommits(h: Hashes, s: State, o: Operation, c: Candidate, n: State) {
    var p := PlanOf(h, s, o, c);
    && RowReleased(s, o) && ApplyDelta(s.allocation, c.delta) == Some(n.allocation) && AfterRow(s, o, p, n)
    && SizeFits(n) && Coherent(c.content, n.allocation) && DigestFresh(Committed(s.operations), p.planDigest)
  }

  ghost predicate RowConcludes(h: Hashes, s: State, o: Operation, c: Candidate, n: State) {
    && o.expected < U64_MAX && o.intent == h.intent(s.scope, s.lineage, o.expected, c)
    && if o.phase.OpPrepared? then RowCommits(h, s, o, c, n)
       else n == s && s.plan == Some(PlanOf(h, s, o, c)) && MatchesDelta(s.allocation, c.delta)
  }

  /** Committing again what is the current plan changes nothing; a prepared row commits
      alone, past a released rollout, with the delta applied once. */
  ghost predicate PlanCommitted(h: Hashes, s: State, op: Id, c: Candidate, n: State) {
    && CandidateFits(h, s, c) && 0 < |c.content.bytes| <= MAX_CONTENT_BYTES
    && exists o :: o in s.operations && o.id == op && RowConcludes(h, s, o, c, n)
  }

  /** A row moves to a phase it permits, and its result is not rewritten. */
  ghost predicate RowMoves(s: State, o: Operation, o': Operation, n: State) {
    && o.phase.Permits(o'.phase) && (o.result.Some? ==> o.result == o'.result) && OperationValid(o')
    && n == s.(operations := n.operations) && Puts(n.operations, s.operations, OpKey, o')
  }

  ghost predicate RowMoved(s: State, op: Id, phase: OperationPhase, result: Option<Id>, n: State) {
    && SizeFits(n)
    && exists o :: o in s.operations && o.id == op && RowMoves(s, o, o.(phase := phase, result := result), n)
  }

  // --------------------------------------------------------------------------- tenures

  /** A row shares an identity with `q`. */
  predicate Clashes(s: State, q: TenureRequest) { exists t :: t in s.tenures && Tenures.SameIdentity(t.request, q) }

  /** The first row that shares an identity with `q`. */
  predicate FirstClash(s: State, q: TenureRequest, t: Tenure) {
    exists i :: && 0 <= i < |s.tenures| && s.tenures[i] == t && Tenures.SameIdentity(t.request, q)
                && forall j :: 0 <= j < i ==> !Tenures.SameIdentity(s.tenures[j].request, q)
  }

  /** The same request again changes nothing; a new one is added when every earlier one
      is answered and none shares an identity with it. */
  ghost predicate TenurePreparedBy(s: State, q: TenureRequest, domain: Digest, n: State) {
    && q.scope == s.scope
    && if Clashes(s, q) then
         n == s && exists t :: FirstClash(s, q, t) && t.request.wire == q.wire && t.domain == domain
       else
         && (forall t :: t in s.tenures ==> t.response.Some?)
         && |s.tenures| < MAX_TENURES && TenurePut(s, Tenure(q, domain, TenurePrepared, None), n)
  }

  ghost predicate TenurePut(s: State, t: Tenure, n: State) {
    n == s.(tenures := n.tenures) && Puts(n.tenures, s.tenures, Tenures.TenureKey, t) && SizeFits(n)
  }

  ghost predicate RowMarked(s: State, q: TenureRequest, t: Tenure, n: State) {
    && t.request.wire == q.wire && t.response.None?
    && if t.phase.TenureUncertain? then n == s else TenurePut(s, t.(phase := TenureUncertain), n)
  }

  /** An unanswered request is marked uncertain, once. */
  ghost predicate TenureMarked(s: State, q: TenureRequest, n: State) {
    exists t :: t in s.tenures && Tenures.TenureKey(t) == q.operation && RowMarked(s, q, t, n)
  }

  ghost predicate RowAnswered(s: State, q: TenureRequest, r: TenureResponse, t: Tenure, n: State) {
    && t.request == q
    && if t.response.Some? then t.response == Some(r) && n == s
       else && (forall u :: u in Tenures.Proven(s.tenures) ==>
                  Tenures.Epoch(u) < r.proof.epoch && Tenures.Epoch(u) <= r.proof.supersedes)
            && TenurePut(s, t.(phase := TenureCommitted, response := Some(r)), n)
  }

  /** An answer is committed if its proof outranks and supersedes every committed one;
      the same answer again changes nothing. */
  ghost predicate TenureCommittedBy(s: State, q: TenureRequest, r: TenureResponse, n: State) {
    && Tenures.Answers(r, q)
    && exists t :: t in s.tenures && Tenures.TenureKey(t) == q.operation && RowAnswered(s, q, r, t, n)
  }

  // ------------------------------------------------------------ binding, authentication

  /** A binding for the committed plan; an earlier one is only refreshed. */
  ghost predicate BindingStored(s: State, b: Binding, n: State) {
    && n == s.(binding := Some(b)) && BindingWellFormed(b) && SizeFits(n)
    && s.plan.Some? && b.target == s.allocation.target && b.manifest == s.manifest.digest
    && (s.binding.Some? ==>
          var was := s.binding.value;
          && b.store == was.store && b.channelFingerprint == was.channelFingerprint && b.firstEpoch == was.firstEpoch
          && (was.lastEpoch < b.lastEpoch || b == was))
  }

  ghost predicate AuthStored(s: State, a: AuthPin, n: State) {
    n == s.(auth := a) && (s.auth.generation < a.generation || a == s.auth)
  }

  // -------------------------------------------------------------------------- rollouts

  /** The intent stored for `input`: its own facts, pinned to the binding and the key of
      this moment. */
  predicate IntentFor(i: Intent, input: IntentInput, b: Binding, auth: AuthPin) {
    && i.target == input.target && i.planDigest == input.planDigest && i.slice == input.slice
    && i.operation == input.operation && i.digest == input.digest && i.request == input.request
    && i.auth == auth && i.store == b.store && i.channelFingerprint == b.channelFingerprint
    && i.manifest == b.manifest && i.runtimeAuth == b.runtimeAuth
  }

  /** This very apply is the current one or, when there is none, an archived one. */
  predicate IntentKnown(s: State, input: IntentInput)
    requires s.binding.Some?
  {
    if s.rollout.Some? then IntentFor(s.rollout.value.intent, input, s.binding.value, s.auth)
    else exists r :: r in s.history && IntentFor(r.intent, input, s.binding.value, s.auth)
  }

  ghost predicate IntentStored(s: State, input: IntentInput, n: State) {
    && s.plan.Some? && s.binding.Some? && 0 < |input.request.bytes| <= MAX_SIGNED_REQUEST_BYTES
    && if IntentKnown(s, input) then n == s
       else
         && s.rollout.None? && input.target == s.allocation.target && input.planDigest == s.plan.value.planDigest
         && (forall r :: r in s.history ==> r.intent.operation != input.operation && r.intent.digest != input.digest)
         && n == s.(rollout := n.rollout) && n.rollout.Some?
         && n.rollout.value.direct.None? && n.rollout.value.attempts == []
         && IntentFor(n.rollout.value.intent, input, s.binding.value, s.auth)
         && LedgerFits(n) && SizeFits(n)
  }

  ghost predicate ReceiptStored(s: State, receipt: Receipt, n: State) {
    && s.rollout.Some? && ReceiptAnswers(receipt, s.rollout.value.intent)
    && var r := s.rollout.value;
       if r.direct.Some? then r.direct.value == receipt && n == s
       else
         && n == s.(rollout := Some(r.(direct := Some(receipt)))) && SizeFits(n)
         && (forall a :: a in r.attempts && a.decision.Some? ==> !Contradicts(receipt, a))
         && (r.Last().Some? && r.Last().value.decision.Some? ==>
               DirectAllows(receipt, r.Last().value, r.Last().value.decision.value))
  }

  /** Neither id, digest nor nonce of the query has been used before. */
  predicate Unused(s: State, q: QueryRequest)
    requires s.rollout.Some?
  {
    !QueryArchived(s.history, q) && forall a :: a in s.rollout.value.attempts ==> !SameQuery(a.prepared.request, q)
  }

  /** The last query, if any, is resolved, and not terminal for the current epoch. */
  predicate MayQuery(s: State)
    requires s.rollout.Some? && s.binding.Some?
  {
    var r := s.rollout.value;
    && |r.attempts| != MAX_ATTEMPTS
    && (r.Last().Some? ==> r.Last().value.Resolved() && !DecidedCurrent(r.Last().value, s.binding.value))
  }

  /** The query is the open one, and no earlier one of the rollout or the archive shares
      an identity with it. */
  predicate QueryKnown(s: State, q: QueryRequest)
    requires s.rollout.Some?
  {
    var attempts := s.rollout.value.attempts;
    && attempts != [] && !QueryArchived(s.history, q)
    && attempts[|attempts| - 1].Open() && attempts[|attempts| - 1].prepared.request.wire == q.wire
    && SameQuery(attempts[|attempts| - 1].prepared.request, q)
    && forall i :: 0 <= i < |attempts| - 1 ==> !SameQuery(attempts[i].prepared.request, q)
  }

  /** The state a fresh query leads to. */
  function WithQuery(s: State, q: QueryRequest): State
    requires s.rollout.Some? && s.binding.Some?
  {
    WithRollout(s, AppendQuery(s.rollout.value, NewPrepared(q, s.binding.value, s.auth)), s.highWater)
  }

  ghost predicate QueryPrepared(s: State, q: QueryRequest, n: State) {
    && s.rollout.Some? && s.binding.Some?
    && PreparedValid(NewPrepared(q, s.binding.value, s.auth), s.binding.value, s.scope, s.rollout.value.intent)
    && (|| (n == s && QueryKnown(s, q))
        || (n == WithQuery(s, q) && Unused(s, q) && MayQuery(s) && SizeFits(n)))
  }

  /** The state an answer leads to. */
  function WithAnswer(s: State, o: Observation): State
    requires LastAttempt(s).Some?
  {
    WithRollout(s, ReplaceLast(s.rollout.value, LastAttempt(s).value.(observation := Some(o))), o.Sequence())
  }

  ghost predicate ResponseStored(s: State, o: Observation, n: State) {
    && LastAttempt(s).Some? && ObservationValid(o, LastAttempt(s).value.prepared)
    && var a := LastAttempt(s).value;
       if a.observation.Some? then a.observation.value == o && n == s
       else a.closure.None? && s.highWater <= o.Sequence() && n == WithAnswer(s, o) && SizeFits(n)
  }

  ghost predicate QueryClosed(s: State, closure: Closure, n: State) {
    && LastAttempt(s).Some? && LastAttempt(s).value.observation.None?
    && var a := LastAttempt(s).value;
       if a.closure.Some? then a.closure.value == closure && n == s
       else n == WithLast(s, a.(closure := Some(closure))) && SizeFits(n)
  }

  /** The attempt decided as the command says. */
  function DecidedAs(a: Attempt, observed: Observed, receipt: Option<Id>): Attempt
    requires a.observation.Some?
  {
    a.(decision := Some(Decision(a.observation.value.response.id, a.observation.value.Sequence(), observed, receipt)))
  }

  /** What the evidence at hand must allow. */
  predicate DecisionAllowed(r: Rollout, a: Attempt, observed: Observed, receipt: Option<Id>)
    requires a.observation.Some?
  {
    var d := Decision(a.observation.value.response.id, a.observation.value.Sequence(), observed, receipt);
    && !Conflicted(r) && DecisionShape(observed, receipt)
    && (d.IsTerminal() ==> TerminalMatches(a.observation.value, observed, receipt.value))
    && (r.direct.Some? ==> DirectAllows(r.direct.value, a, d))
  }

  /** A terminal decision is about the current plan. */
  predicate InContext(s: State, a: Attempt)
    requires s.rollout.Some? && s.plan.Some?
  {
    a.DecidedTerminal() ==>
      TerminalContext(a, s.rollout.value.intent, s.scope, s.lineage, s.Revision(), Some(s.plan.value.content.shape))
  }

  ghost predicate DecisionStored(s: State, observed: Observed, receipt: Option<Id>, n: State) {
    && LastAttempt(s).Some? && LastAttempt(s).value.observation.Some? && s.plan.Some?
    && var a := LastAttempt(s).value; var a' := DecidedAs(a, observed, receipt);
       if a.decision.Some? then a' == a && n == s
       else
         && DecisionAllowed(s.rollout.value, a, observed, receipt)
         && InContext(s, a') && n == WithLast(s, a') && SizeFits(n)
  }

  /** What each command is for. */
  ghost predicate Intended(h: Hashes, s: State, c: Command, n: State) {
    match c
    case PreparePlan(op, candidate) => PlanPrepared(h, s, op, candidate, n)
    case CommitPlan(op, candidate) => PlanCommitted(h, s, op, candidate, n)
    case TransitionOperation(op, phase, result) => RowMoved(s, op, phase, result, n)
    case PrepareTenure(q, domain) => TenurePreparedBy(s, q, domain, n)
    case MarkTenureUncertain(q) => TenureMarked(s, q, n)
    case CommitTenure(q, r) => TenureCommittedBy(s, q, r, n)
    case RecordBinding(b) => BindingStored(s, b, n)
    case RotateAuth(a) => AuthStored(s, a, n)
    case RecordIntent(input) => IntentStored(s, input, n)
    case RecordDirect(receipt) => ReceiptStored(s, receipt, n)
    case PrepareQuery(q) => QueryPrepared(s, q, n)
    case RecordResponse(response, channel) => ResponseStored(s, Observation(response, channel), n)
    case CloseQuery(closure) => QueryClosed(s, closure, n)
    case Decide(observed, receipt) => DecisionStored(s, observed, receipt, n)
  }

  // --------------------------------------------------------------- the moves, by command

  predicate Leads(m: Move, s: State, n: State, fits: bool) { (m == Same && n == s) || (m == Next(n) && fits) }

  /** How the guards and the residual condition end a call. */
  ghost predicate Ends(h: Hashes, s: State, c: Command, n: State) { Leads(MoveOf(h, s, c), s, n, Residual(s, c, n)) }

  lemma ByMove(h: Hashes, s: State, c: Command, n: State)
    requires Valid(s) && WellFormed(c)
    ensures Yields(h, s, c, n) <==> Ends(h, s, c, n)
  {
    match MoveOf(h, s, c)
    case Same => SameMoveYields(h, s, c); if Yields(h, s, c, n) { YieldsMove(h, s, c, n); }
    case Refuse(_) => RefusalYieldsNothing(h, s, c, n);
    case Next(m) => MoveYields(h, s, c, m);
  }

  /** Target and manifest are the same throughout the journal. */
  predicate Linked(s: State) {
    && s.allocation.target == s.manifest.target
    && (s.plan.Some? ==> s.plan.value.target == s.allocation.target && s.plan.value.content.manifest == s.manifest.digest)
    && (s.binding.Some? ==>
          s.plan.Some? && s.binding.value.target == s.allocation.target && s.binding.value.manifest == s.manifest.digest)
  }

  lemma ObjectionIff(h: Hashes, s: State, c: Candidate)
    requires Linked(s)
    ensures CandidateObjection(h, s, c).None? <==> CandidateFits(h, s, c)
  {
  }

  lemma PreparePlanMovesTo(h: Hashes, s: State, op: Id, c: Candidate)
    requires Linked(s)
    ensures var m := PreparePlanMove(h, s, op, c); var k := Find(s.operations, OpKey, op);
            if !CandidateFits(h, s, c) then m.Refuse?
            else if k.Some? then
              var o := s.operations[k.value];
              if o.intent == h.intent(s.scope, s.lineage, o.expected, c) then m == Same else m.Refuse?
            else if ApplyDelta(s.allocation, c.delta).Some? && |s.operations| != MAX_LEDGER_RECORDS
            then m == Next(s.(operations := Insert(s.operations, OpKey, PendingRow(h, s, op, c)))) else m.Refuse?
  {
    ObjectionIff(h, s, c);
  }

  lemma PendingRowPut(h: Hashes, s: State, op: Id, c: Candidate, n: State)
    requires SortedBy(s.operations, OpKey) && Find(s.operations, OpKey, op).None?
    ensures n == s.(operations := Insert(s.operations, OpKey, PendingRow(h, s, op, c))) <==>
              n == s.(operations := n.operations) && Puts(n.operations, s.operations, OpKey, PendingRow(h, s, op, c))
    ensures n == s.(operations := Insert(s.operations, OpKey, PendingRow(h, s, op, c))) && LedgerFits(n) ==>
              |s.operations| != MAX_LEDGER_RECORDS
  {
    InsertPuts(n.operations, s.operations, OpKey, PendingRow(h, s, op, c));
    InsertMembers(s.operations, OpKey, PendingRow(h, s, op, c));
  }

  lemma PreparePlanLeads(h: Hashes, s: State, op: Id, c: Candidate, n: State)
    requires Linked(s) && SortedBy(s.operations, OpKey)
    ensures Leads(PreparePlanMove(h, s, op, c), s, n, LedgerFits(n) && SizeFits(n)) <==> PlanPrepared(h, s, op, c, n)
  {
    PreparePlanMovesTo(h, s, op, c);
    FindIs(s.operations, OpKey, op);
    if Find(s.operations, OpKey, op).None? { PendingRowPut(h, s, op, c, n); }
    else { assert HasRow(s, op); }
  }

  lemma PreparePlanEnds(h: Hashes, s: State, op: Id, c: Candidate, n: State)
    requires Linked(s) && SortedBy(s.operations, OpKey)
    ensures Ends(h, s, PreparePlan(op, c), n) <==> PlanPrepared(h, s, op, c, n)
  {
    PreparePlanLeads(h, s, op, c, n);
  }

  lemma TransitionMoves(s: State, op: Id, phase: OperationPhase, result: Option<Id>, n: State)
    requires SortedBy(s.operations, OpKey)
    ensures TransitionMove(s, op, phase, result) == Next(n) <==>
              exists o :: o in s.operations && o.id == op && RowMoves(s, o, o.(phase := phase, result := result), n)
    ensures !TransitionMove(s, op, phase, result).Same?
  {
    FindIs(s.operations, OpKey, op);
    var k := Find(s.operations, OpKey, op);
    if k.Some? {
      var o := s.operations[k.value];
      UpdatePuts(n.operations, s.operations, OpKey, k.value, o.(phase := phase, result := result));
      assert (TransitionMove(s, op, phase, result) == Next(n)) == RowMoves(s, o, o.(phase := phase, result := result), n);
    }
  }

  lemma TransitionEnds(h: Hashes, s: State, op: Id, phase: OperationPhase, result: Option<Id>, n: State)
    requires SortedBy(s.operations, OpKey)
    ensures Ends(h, s, TransitionOperation(op, phase, result), n) <==> RowMoved(s, op, phase, result, n)
  {
    TransitionMoves(s, op, phase, result, n);
  }

  lemma ArchiveDecided(s: State, o: Operation)
    requires LedgerValid(s) && EvidenceValid(s) && DistinctApplies(s.Records())
    requires o in s.operations && !o.phase.OpCommitted?
    ensures if Released(s) then ArchiveForCommit(s) == Ok(s.Records())
            else && s.rollout.Some?
                 && ArchiveForCommit(s) == Err(if Conflicted(s.rollout.value) then ConflictingTerminalEvidence
                                               else NonTerminalRolloutBlocksPlanCommit)
  {
    HistoryCapacityUnreachable(s, o);
    if s.rollout.Some? {
      var r, k := s.rollout.value, |s.history|;
      assert s.Records()[k] == r;
      forall x | x in s.history ensures x.intent.operation != r.intent.operation && x.intent.digest != r.intent.digest {
        var j :| 0 <= j < k && s.history[j] == x;
        assert s.Records()[j] == x;
      }
      GateIff(r, s.binding.value, s.scope);
    } else {
      assert s.Records() == s.history;
    }
  }

  /** What a prepared row meets: nothing else is pending. */
  lemma PendingIff(ops: seq<Operation>, revision: nat, generation: nat, o: Operation)
    requires OperationsValid(ops, revision, generation) && o in ops && o.phase.OpPrepared?
    ensures o.expected == revision
    ensures (exists p :: p in ops && p.id != o.id && p.expected == revision && (p.phase.OpPrepared? || p.phase.OpUncertain?))
            <==> !(forall q :: q in ops && q != o ==> q.phase.OpCommitted? || q.phase.OpTerminal?)
  {
    forall p | p in ops && p.id == o.id ensures p == o { KeysAreUnique(ops, OpKey, p, o); }
  }

  lemma AfterRowIff(s: State, k: nat, p: Plan, n: State)
    requires SortedBy(s.operations, OpKey) && k < |s.operations|
    ensures AfterRow(s, s.operations[k], p, n) <==> n == AfterCommit(s, k, n.allocation, p, s.Records())
  {
    var o := s.operations[k];
    var o' := CommittedAs(o, n.allocation.generation, p.planDigest);
    UpdatePuts(n.operations, s.operations, OpKey, k, o');
  }

  /** The part of the guards before the row is looked at. */
  predicate CommitInput(h: Hashes, s: State, c: Candidate, o: Operation) {
    && CandidateFits(h, s, c) && 0 < |c.content.bytes| <= MAX_CONTENT_BYTES
    && o.expected < U64_MAX && o.intent == h.intent(s.scope, s.lineage, o.expected, c)
  }

  lemma CommitPreparedMove(h: Hashes, s: State, op: Id, c: Candidate, k: nat)
    requires Linked(s) && Find(s.operations, OpKey, op) == Some(k) && CommitInput(h, s, c, s.operations[k])
    requires s.operations[k].phase.OpPrepared? && s.operations[k].expected == s.Revision()
    requires (exists p :: p in s.operations && p.id != op && p.expected == s.Revision()
                          && (p.phase.OpPrepared? || p.phase.OpUncertain?))
             <==> !(forall q :: q in s.operations && q != s.operations[k] ==> q.phase.OpCommitted? || q.phase.OpTerminal?)
    requires ArchiveForCommit(s).Ok? <==> Released(s)
    requires Released(s) ==> ArchiveForCommit(s) == Ok(s.Records())
    ensures var m := CommitPlanMove(h, s, op, c); var a := ApplyDelta(s.allocation, c.delta);
            if RowReleased(s, s.operations[k]) && a.Some?
            then m == Next(AfterCommit(s, k, a.value, PlanOf(h, s, s.operations[k], c), s.Records()))
            else m.Refuse?
  {
    ObjectionIff(h, s, c);
    assert CandidatePlan(h, s, s.operations[k], c) == PlanOf(h, s, s.operations[k], c);
  }

  lemma CommitPreparedEnds(h: Hashes, s: State, op: Id, c: Candidate, k: nat, n: State)
    requires LedgerValid(s) && EvidenceValid(s) && DistinctApplies(s.Records()) && Linked(s)
    requires Find(s.operations, OpKey, op) == Some(k) && CommitInput(h, s, c, s.operations[k])
    requires s.operations[k].phase.OpPrepared?
    ensures Ends(h, s, CommitPlan(op, c), n) <==> RowCommits(h, s, s.operations[k], c, n)
  {
    var o := s.operations[k];
    assert o in s.operations;
    PendingIff(s.operations, s.Revision(), s.allocation.generation, o);
    ArchiveDecided(s, o);
    CommitPreparedMove(h, s, op, c, k);
    AfterRowIff(s, k, PlanOf(h, s, o, c), n);
  }

  lemma CommitOtherEnds(h: Hashes, s: State, op: Id, c: Candidate, n: State)
    requires Linked(s)
    requires var k := Find(s.operations, OpKey, op);
             k.None? || !CommitInput(h, s, c, s.operations[k.value]) || !s.operations[k.value].phase.OpPrepared?
    ensures Ends(h, s, CommitPlan(op, c), n) <==>
              var k := Find(s.operations, OpKey, op);
              && k.Some? && CommitInput(h, s, c, s.operations[k.value]) && n == s
              && s.plan == Some(PlanOf(h, s, s.operations[k.value], c)) && MatchesDelta(s.allocation, c.delta)
  {
    ObjectionIff(h, s, c);
    var k := Find(s.operations, OpKey, op);
    if k.Some? && CandidateFits(h, s, c) {
      assert CandidatePlan(h, s, s.operations[k.value], c) == PlanOf(h, s, s.operations[k.value], c);
    }
  }

  lemma CommitPlanEnds(h: Hashes, s: State, op: Id, c: Candidate, n: State)
    requires LedgerValid(s) && EvidenceValid(s) && DistinctApplies(s.Records()) && Linked(s)
    ensures Ends(h, s, CommitPlan(op, c), n) <==> PlanCommitted(h, s, op, c, n)
  {
    FindIs(s.operations, OpKey, op);
    var k := Find(s.operations, OpKey, op);
    if k.Some? && CommitInput(h, s, c, s.operations[k.value]) && s.operations[k.value].phase.OpPrepared? {
      CommitPreparedEnds(h, s, op, c, k.value, n);
    } else {
      CommitOtherEnds(h, s, op, c, n);
    }
  }

  // ---------------------------------------------------------------------------- tenures

  lemma {:induction false} FirstIs(ts: seq<Tenure>, q: TenureRequest)
    ensures var f := FirstTenureCollision(ts, q);
            f.Some? ==> exists i :: && 0 <= i < |ts| && ts[i] == f.value
                                    && forall j :: 0 <= j < i ==> !Tenures.SameIdentity(ts[j].request, q)
  {
    if ts != [] && !Tenures.SameIdentity(ts[0].request, q) {
      FirstIs(ts[1..], q);
      var f := FirstTenureCollision(ts[1..], q);
      if f.Some? {
        var i :| 0 <= i < |ts[1..]| && ts[1..][i] == f.value
                 && forall j :: 0 <= j < i ==> !Tenures.SameIdentity(ts[1..][j].request, q);
        assert ts[i + 1] == f.value;
        forall j | 0 <= j < i + 1 ensures !Tenures.SameIdentity(ts[j].request, q) {
          if j > 0 { assert ts[j] == ts[1..][j - 1]; }
        }
      }
    }
  }

  lemma FirstClashIff(s: State, q: TenureRequest, t: Tenure)
    ensures FirstClash(s, q, t) <==> FirstTenureCollision(s.tenures, q) == Some(t)
  {
    FirstIs(s.tenures, q);
    var f := FirstTenureCollision(s.tenures, q);
    if f.Some? {
      var i :| 0 <= i < |s.tenures| && s.tenures[i] == f.value
               && forall j :: 0 <= j < i ==> !Tenures.SameIdentity(s.tenures[j].request, q);
      if FirstClash(s, q, t) {
        var k :| && 0 <= k < |s.tenures| && s.tenures[k] == t && Tenures.SameIdentity(t.request, q)
                 && forall j :: 0 <= j < k ==> !Tenures.SameIdentity(s.tenures[j].request, q);
        assert i == k;
      }
    }
  }

  lemma TenurePutIff(s: State, n: State, t: Tenure)
    requires SortedBy(s.tenures, Tenures.TenureKey) && Find(s.tenures, Tenures.TenureKey, Tenures.TenureKey(t)).None?
    ensures TenurePut(s, t, n) <==> n == s.(tenures := Insert(s.tenures, Tenures.TenureKey, t)) && SizeFits(n)
  {
    InsertPuts(n.tenures, s.tenures, Tenures.TenureKey, t);
  }

  lemma TenureRowIff(s: State, k: nat, n: State, t: Tenure)
    requires SortedBy(s.tenures, Tenures.TenureKey) && k < |s.tenures|
    requires Tenures.TenureKey(s.tenures[k]) == Tenures.TenureKey(t)
    ensures TenurePut(s, t, n) <==> n == s.(tenures := s.tenures[k := t]) && SizeFits(n)
  {
    UpdatePuts(n.tenures, s.tenures, Tenures.TenureKey, k, t);
  }

  lemma UnresolvedIff(ts: seq<Tenure>, scope: Id, t: Tenure)
    requires Tenures.TenuresValid(ts, scope) && t in ts
    ensures Tenures.Unresolved(t) <==> t.response.None?
  {
  }

  lemma PrepareTenureClash(s: State, q: TenureRequest, domain: Digest)
    requires Clashes(s, q) && q.scope == s.scope
    ensures var m := PrepareTenureMove(s, q, domain);
            if exists t :: FirstClash(s, q, t) && t.request.wire == q.wire && t.domain == domain then m == Same else m.Refuse?
  {
    forall t ensures FirstClash(s, q, t) <==> FirstTenureCollision(s.tenures, q) == Some(t) { FirstClashIff(s, q, t); }
  }

  lemma PrepareTenureAdds(s: State, q: TenureRequest, domain: Digest)
    requires Tenures.TenuresValid(s.tenures, s.scope) && !Clashes(s, q) && q.scope == s.scope
    ensures var m := PrepareTenureMove(s, q, domain);
            if |s.tenures| != MAX_TENURES && forall t :: t in s.tenures ==> t.response.Some?
            then m == Next(s.(tenures := Insert(s.tenures, Tenures.TenureKey, Tenure(q, domain, TenurePrepared, None))))
            else m.Refuse?
  {
    forall t | t in s.tenures ensures Tenures.Unresolved(t) <==> t.response.None? {
      UnresolvedIff(s.tenures, s.scope, t);
    }
  }

  lemma PrepareTenureLeads(s: State, q: TenureRequest, domain: Digest, n: State)
    requires Tenures.TenuresValid(s.tenures, s.scope) && |s.tenures| <= MAX_TENURES
    ensures Leads(PrepareTenureMove(s, q, domain), s, n, SizeFits(n)) <==> TenurePreparedBy(s, q, domain, n)
  {
    if q.scope == s.scope {
      if Clashes(s, q) {
        PrepareTenureClash(s, q, domain);
      } else {
        PrepareTenureAdds(s, q, domain);
        TenurePutIff(s, n, Tenure(q, domain, TenurePrepared, None));
      }
    }
  }

  lemma MarkMovesTo(s: State, q: TenureRequest, k: nat)
    requires Tenures.TenuresValid(s.tenures, s.scope) && Find(s.tenures, Tenures.TenureKey, q.operation) == Some(k)
    ensures var t := s.tenures[k]; var m := MarkUncertainMove(s, q);
            if t.request.wire != q.wire || t.response.Some? then m.Refuse?
            else if t.phase.TenureUncertain? then m == Same
            else m == Next(s.(tenures := s.tenures[k := t.(phase := TenureUncertain)]))
  {
    assert s.tenures[k] in s.tenures;
  }

  lemma MarkLeads(s: State, q: TenureRequest, n: State)
    requires Tenures.TenuresValid(s.tenures, s.scope)
    ensures Leads(MarkUncertainMove(s, q), s, n, SizeFits(n)) <==> TenureMarked(s, q, n)
  {
    FindIs(s.tenures, Tenures.TenureKey, q.operation);
    var k := Find(s.tenures, Tenures.TenureKey, q.operation);
    if k.Some? {
      var t := s.tenures[k.value];
      MarkMovesTo(s, q, k.value);
      TenureRowIff(s, k.value, n, t.(phase := TenureUncertain));
      assert Leads(MarkUncertainMove(s, q), s, n, SizeFits(n)) <==> RowMarked(s, q, t, n);
    }
  }

  lemma ObjectedIff(ts: seq<Tenure>, scope: Id, t: Tenure, proof: Proof)
    requires Tenures.TenuresValid(ts, scope) && t in ts && t.response.None?
    ensures Tenures.ProofObjection(ts, Tenures.TenureKey(t), proof).None? <==>
              forall u :: u in Tenures.Proven(ts) ==> Tenures.Epoch(u) < proof.epoch && Tenures.Epoch(u) <= proof.supersedes
  {
    forall u | u in Tenures.Proven(ts) ensures Tenures.TenureKey(u) != Tenures.TenureKey(t) { }
  }

  lemma CommitTenureLeads(s: State, q: TenureRequest, r: TenureResponse, n: State)
    requires Tenures.TenuresValid(s.tenures, s.scope)
    ensures Leads(CommitTenureMove(s, q, r), s, n, SizeFits(n)) <==> TenureCommittedBy(s, q, r, n)
  {
    FindIs(s.tenures, Tenures.TenureKey, q.operation);
    var k := Find(s.tenures, Tenures.TenureKey, q.operation);
    if k.Some? {
      var t := s.tenures[k.value];
      UnresolvedIff(s.tenures, s.scope, t);
      TenureRowIff(s, k.value, n, t.(phase := TenureCommitted, response := Some(r)));
      if t.response.None? { ObjectedIff(s.tenures, s.scope, t, r.proof); }
      assert Tenures.Answers(r, q) ==> (Leads(CommitTenureMove(s, q, r), s, n, SizeFits(n)) <==> RowAnswered(s, q, r, t, n));
    }
  }

  // ------------------------------------------------------------- binding, authentication

  lemma BindingEnds(h: Hashes, s: State, b: Binding, n: State)
    requires Linked(s) && BindingWellFormed(b)
    ensures Ends(h, s, RecordBinding(b), n) <==> BindingStored(s, b, n)
  {
  }

  lemma AuthSizeKept(s: State, a: AuthPin)
    ensures SizeFits(s.(auth := a)) <==> SizeFits(s)
  {
  }

  lemma AuthEnds(h: Hashes, s: State, a: AuthPin, n: State)
    requires SizeFits(s)
    ensures Ends(h, s, RotateAuth(a), n) <==> AuthStored(s, a, n)
  {
    AuthSizeKept(s, a);
  }

  // --------------------------------------------------------------------------- rollouts

  lemma IntentForIff(i: Intent, input: IntentInput, b: Binding, auth: AuthPin)
    ensures IntentFor(i, input, b, auth) <==> i == NewIntent(input, b, auth)
  {
  }

  /** An archived apply collides only with itself. */
  lemma OneCollision(s: State, i: Intent, r: Rollout)
    requires DistinctApplies(s.Records()) && r in s.history && r.intent == i
    ensures FirstApplyCollision(s.history, i) == Some(r)
  {
    var x := FirstApplyCollision(s.history, i).value;
    var j :| 0 <= j < |s.history| && s.history[j] == r;
    var k :| 0 <= k < |s.history| && s.history[k] == x;
    assert s.Records()[j] == r && s.Records()[k] == x;
  }

  lemma KnownIff(s: State, input: IntentInput)
    requires DistinctApplies(s.Records()) && s.binding.Some?
    ensures var e := ApplyExists(s, NewIntent(input, s.binding.value, s.auth));
            && (e == Ok(true) <==> IntentKnown(s, input))
            && (e == Ok(false) <==>
                  s.rollout.None? && forall r :: r in s.history ==>
                                       r.intent.operation != input.operation && r.intent.digest != input.digest)
  {
    var i := NewIntent(input, s.binding.value, s.auth);
    forall x: Intent ensures IntentFor(x, input, s.binding.value, s.auth) <==> x == i {
      IntentForIff(x, input, s.binding.value, s.auth);
    }
    if r :| r in s.history && r.intent == i { OneCollision(s, i, r); }
  }

  lemma IntentMovesTo(s: State, input: IntentInput)
    requires DistinctApplies(s.Records()) && Linked(s)
    ensures var m := RecordIntentMove(s, input);
            if s.plan.None? || s.binding.None? || !(0 < |input.request.bytes| <= MAX_SIGNED_REQUEST_BYTES) then m.Refuse?
            else if IntentKnown(s, input) then m == Same
            else if && s.rollout.None? && input.target == s.allocation.target
                    && input.planDigest == s.plan.value.planDigest
                    && forall r :: r in s.history ==>
                         r.intent.operation != input.operation && r.intent.digest != input.digest
            then m == Next(s.(rollout := Some(Rollout(NewIntent(input, s.binding.value, s.auth), None, []))))
            else m.Refuse?
  {
    if s.binding.Some? { KnownIff(s, input); }
  }

  lemma IntentEnds(h: Hashes, s: State, input: IntentInput, n: State)
    requires DistinctApplies(s.Records()) && Linked(s)
    ensures Ends(h, s, RecordIntent(input), n) <==> IntentStored(s, input, n)
  {
    IntentMovesTo(s, input);
    if s.binding.Some? && n.rollout.Some? { IntentForIff(n.rollout.value.intent, input, s.binding.value, s.auth); }
  }

  lemma DirectEnds(h: Hashes, s: State, receipt: Receipt, n: State)
    requires s.rollout.Some? ==> RolloutValid(s.rollout.value)
    ensures Ends(h, s, RecordDirect(receipt), n) <==> ReceiptStored(s, receipt, n)
  {
    if s.rollout.Some? && s.rollout.value.Last().Some? {
      assert s.rollout.value.Last().value in s.rollout.value.attempts;
    }
  }

  lemma {:induction false} FirstQueryIs(attempts: seq<Attempt>, q: QueryRequest)
    ensures var f := FirstQueryCollision(attempts, q);
            f.Some? ==> forall j :: 0 <= j < f.value ==> !SameQuery(attempts[j].prepared.request, q)
  {
    if attempts != [] && !SameQuery(attempts[0].prepared.request, q) {
      FirstQueryIs(attempts[1..], q);
      forall j | 0 < j < |attempts| ensures attempts[j] == attempts[1..][j - 1] { }
    }
  }

  lemma QueryMovesTo(s: State, q: QueryRequest)
    requires s.rollout.Some? && s.binding.Some?
    requires PreparedValid(NewPrepared(q, s.binding.value, s.auth), s.binding.value, s.scope, s.rollout.value.intent)
    ensures var m := PrepareQueryMove(s, q);
            && (m == Same <==> QueryKnown(s, q))
            && (m.Next? <==> Unused(s, q) && MayQuery(s))
            && (m.Next? ==> m.state == WithQuery(s, q))
  {
    var attempts := s.rollout.value.attempts;
    var f := FirstQueryCollision(attempts, q);
    FirstQueryIs(attempts, q);
    if QueryKnown(s, q) { assert attempts[|attempts| - 1] in attempts; }
    if f.Some? { assert attempts[f.value] in attempts; }
  }

  lemma QueryEnds(h: Hashes, s: State, q: QueryRequest, n: State)
    ensures Ends(h, s, PrepareQuery(q), n) <==> QueryPrepared(s, q, n)
  {
    if && s.rollout.Some? && s.binding.Some?
       && PreparedValid(NewPrepared(q, s.binding.value, s.auth), s.binding.value, s.scope, s.rollout.value.intent)
    { QueryMovesTo(s, q); }
  }

  lemma ResponseEnds(h: Hashes, s: State, response: QueryResponse, channel: Channel, n: State)
    requires IdentitiesValid(s.Records(), s.highWater) && (s.rollout.Some? ==> RolloutValid(s.rollout.value))
    ensures Ends(h, s, RecordResponse(response, channel), n) <==> ResponseStored(s, Observation(response, channel), n)
  {
    if LastAttempt(s).Some? {
      assert LastAttempt(s).value in s.rollout.value.attempts;
      HighWaterCoversPrior(s);
    }
  }

  lemma CloseEnds(h: Hashes, s: State, closure: Closure, n: State)
    requires s.rollout.Some? ==> RolloutValid(s.rollout.value)
    ensures Ends(h, s, CloseQuery(closure), n) <==> QueryClosed(s, closure, n)
  {
    if LastAttempt(s).Some? { assert LastAttempt(s).value in s.rollout.value.attempts; }
  }

  lemma DecideMovesTo(s: State, observed: Observed, receipt: Option<Id>)
    requires LastAttempt(s).Some? && LastAttempt(s).value.observation.Some? && RolloutValid(s.rollout.value)
    ensures var m := DecideMove(s, observed, receipt); var a := LastAttempt(s).value;
            if a.decision.Some? then
              if a == DecidedAs(a, observed, receipt) then m == Same else m.Refuse?
            else if DecisionAllowed(s.rollout.value, a, observed, receipt)
            then m == Next(WithLast(s, DecidedAs(a, observed, receipt)))
            else m.Refuse?
  {
    var r := s.rollout.value;
    assert LastAttempt(s).value in r.attempts;
    if Conflicted(r) { ConflictIsLastAndUndecided(r); }
  }

  lemma DecideResidualIff(s: State, observed: Observed, receipt: Option<Id>, a: Attempt)
    requires LastAttempt(s).Some? && s.plan.Some?
    ensures Residual(s, Decide(observed, receipt), WithLast(s, a)) <==> SizeFits(WithLast(s, a)) && InContext(s, a)
  {
  }

  /** Until an answer is there, nothing can be decided. */
  lemma DecideTooEarly(s: State, observed: Observed, receipt: Option<Id>)
    requires LastAttempt(s).None? || LastAttempt(s).value.observation.None?
    ensures DecideMove(s, observed, receipt).Refuse?
  {
  }

  lemma DecideLeads(s: State, observed: Observed, receipt: Option<Id>, n: State, fits: bool)
    requires LastAttempt(s).Some? && LastAttempt(s).value.observation.Some? && RolloutValid(s.rollout.value) && s.plan.Some?
    requires var a' := DecidedAs(LastAttempt(s).value, observed, receipt);
             n == WithLast(s, a') ==> (fits <==> SizeFits(n) && InContext(s, a'))
    ensures Leads(DecideMove(s, observed, receipt), s, n, fits) <==> DecisionStored(s, observed, receipt, n)
  {
    DecideMovesTo(s, observed, receipt);
  }

  lemma DecideAnsweredEnds(h: Hashes, s: State, observed: Observed, receipt: Option<Id>, n: State)
    requires LastAttempt(s).Some? && LastAttempt(s).value.observation.Some? && RolloutValid(s.rollout.value) && s.plan.Some?
    ensures Ends(h, s, Decide(observed, receipt), n) <==> DecisionStored(s, observed, receipt, n)
  {
    var fits := Residual(s, Decide(observed, receipt), n);
    var a' := DecidedAs(LastAttempt(s).value, observed, receipt);
    if n == WithLast(s, a') { DecideResidualIff(s, observed, receipt, a'); }
    DecideLeads(s, observed, receipt, n, fits);
    assert MoveOf(h, s, Decide(observed, receipt)) == DecideMove(s, observed, receipt);
  }

  lemma DecideEnds(h: Hashes, s: State, observed: Observed, receipt: Option<Id>, n: State)
    requires s.rollout.Some? ==> RolloutValid(s.rollout.value) && s.plan.Some?
    ensures Ends(h, s, Decide(observed, receipt), n) <==> DecisionStored(s, observed, receipt, n)
  {
    if LastAttempt(s).Some? && LastAttempt(s).value.observation.Some? {
      DecideAnsweredEnds(h, s, observed, receipt, n);
    } else {
      DecideTooEarly(s, observed, receipt);
    }
  }

  // ------------------------------------------------------------------------- every call

  lemma ValidParts(s: State)
    requires Valid(s)
    ensures LedgerValid(s) && EvidenceValid(s) && IdentitiesValid(s.Records(), s.highWater) && SizeFits(s)
    ensures Tenures.TenuresValid(s.tenures, s.scope)
  {
  }

  lemma LedgerParts(s: State)
    requires LedgerValid(s) && EvidenceValid(s)
    ensures Linked(s) && SortedBy(s.operations, OpKey) && |s.tenures| <= MAX_TENURES
    ensures s.rollout.Some? ==> RolloutValid(s.rollout.value) && s.plan.Some?
  {
  }

  lemma PlanCallEnds(h: Hashes, s: State, c: Command, n: State)
    requires c.PreparePlan? || c.CommitPlan? || c.TransitionOperation?
    requires LedgerValid(s) && EvidenceValid(s) && DistinctApplies(s.Records())
    ensures Ends(h, s, c, n) <==> Intended(h, s, c, n)
  {
    LedgerParts(s);
    match c
    case PreparePlan(op, candidate) => PreparePlanEnds(h, s, op, candidate, n);
    case CommitPlan(op, candidate) => CommitPlanEnds(h, s, op, candidate, n);
    case TransitionOperation(op, phase, result) => TransitionEnds(h, s, op, phase, result, n);
  }

  lemma TenureCallEnds(h: Hashes, s: State, c: Command, n: State)
    requires c.PrepareTenure? || c.MarkTenureUncertain? || c.CommitTenure?
    requires Tenures.TenuresValid(s.tenures, s.scope) && |s.tenures| <= MAX_TENURES
    ensures Ends(h, s, c, n) <==> Intended(h, s, c, n)
  {
    match c
    case PrepareTenure(q, domain) => PrepareTenureLeads(s, q, domain, n);
    case MarkTenureUncertain(q) => MarkLeads(s, q, n);
    case CommitTenure(q, r) => CommitTenureLeads(s, q, r, n);
  }

  lemma RolloutCallEnds(h: Hashes, s: State, c: Command, n: State)
    requires c.RecordIntent? || c.RecordDirect? || c.PrepareQuery? || c.RecordResponse? || c.CloseQuery? || c.Decide?
    requires Linked(s) && IdentitiesValid(s.Records(), s.highWater)
    requires s.rollout.Some? ==> RolloutValid(s.rollout.value) && s.plan.Some?
    ensures Ends(h, s, c, n) <==> Intended(h, s, c, n)
  {
    match c
    case RecordIntent(input) => IntentEnds(h, s, input, n);
    case RecordDirect(receipt) => DirectEnds(h, s, receipt, n);
    case PrepareQuery(q) => QueryEnds(h, s, q, n);
    case RecordResponse(response, channel) => ResponseEnds(h, s, response, channel, n);
    case CloseQuery(closure) => CloseEnds(h, s, closure, n);
    case Decide(observed, receipt) => DecideEnds(h, s, observed, receipt, n);
  }

  lemma EndsAsIntended(h: Hashes, s: State, c: Command, n: State)
    requires LedgerValid(s) && EvidenceValid(s) && IdentitiesValid(s.Records(), s.highWater) && SizeFits(s)
    requires Tenures.TenuresValid(s.tenures, s.scope) && WellFormed(c)
    ensures Ends(h, s, c, n) <==> Intended(h, s, c, n)
  {
    LedgerParts(s);
    if c.PreparePlan? || c.CommitPlan? || c.TransitionOperation? { PlanCallEnds(h, s, c, n); }
    else if c.PrepareTenure? || c.MarkTenureUncertain? || c.CommitTenure? { TenureCallEnds(h, s, c, n); }
    else if c.RecordBinding? { BindingEnds(h, s, c.binding, n); }
    else if c.RotateAuth? { AuthEnds(h, s, c.auth, n); }
    else { RolloutCallEnds(h, s, c, n); }
  }

  lemma IllFormedFails(h: Hashes, s: State, c: Command, n: State)
    requires !WellFormed(c)
    ensures !Yields(h, s, c, n) && !Intended(h, s, c, n)
  {
    YieldsApply(h, s, c, n);
  }

  /** From every valid state, a call succeeds with a result exactly when that result is
      the intended one. */
  lemma CallsAsIntended(h: Hashes, s: State, c: Command, n: State)
    requires Valid(s)
    ensures Yields(h, s, c, n) <==> Intended(h, s, c, n)
  {
    if WellFormed(c) {
      ValidParts(s);
      ByMove(h, s, c, n);
      EndsAsIntended(h, s, c, n);
    } else {
      IllFormedFails(h, s, c, n);
    }
  }

  lemma CommitBlockedMove(h: Hashes, s: State, op: Id, c: Candidate, k: nat, e: Error)
    requires Linked(s) && Find(s.operations, OpKey, op) == Some(k) && CommitInput(h, s, c, s.operations[k])
    requires s.operations[k].phase.OpPrepared? && s.operations[k].expected == s.Revision()
    requires forall q :: q in s.operations && q != s.operations[k] ==> q.phase.OpCommitted? || q.phase.OpTerminal?
    requires ArchiveForCommit(s) == Err(e)
    ensures MoveOf(h, s, CommitPlan(op, c)) == Refuse(e)
  {
    ObjectionIff(h, s, c);
  }

  lemma CommitBlockedBy(h: Hashes, s: State, op: Id, c: Candidate, o: Operation)
    requires LedgerValid(s) && EvidenceValid(s) && DistinctApplies(s.Records())
    requires o in s.operations && o.id == op && o.phase.OpPrepared? && CommitInput(h, s, c, o)
    requires forall q :: q in s.operations && q != o ==> q.phase.OpCommitted? || q.phase.OpTerminal?
    requires !Released(s)
    ensures s.rollout.Some?
    ensures MoveOf(h, s, CommitPlan(op, c)) ==
              Refuse(if Conflicted(s.rollout.value) then ConflictingTerminalEvidence else NonTerminalRolloutBlocksPlanCommit)
  {
    LedgerParts(s);
    FindIs(s.operations, OpKey, op);
    PendingIff(s.operations, s.Revision(), s.allocation.generation, o);
    ArchiveDecided(s, o);
    CommitBlockedMove(h, s, op, c, Find(s.operations, OpKey, op).value, ArchiveForCommit(s).error);
  }

  /** A commit that only the current rollout holds up fails with a conflict when the
      evidence conflicts, and as blocked by a rollout that is not settled otherwise. */
  lemma CommitBlocked(h: Hashes, s: State, op: Id, c: Candidate, o: Operation)
    requires Valid(s) && o in s.operations && o.id == op && o.phase.OpPrepared? && CommitInput(h, s, c, o)
    requires forall q :: q in s.operations && q != o ==> q.phase.OpCommitted? || q.phase.OpTerminal?
    requires !Released(s)
    ensures s.rollout.Some?
    ensures Fails(h, s, CommitPlan(op, c),
                  if Conflicted(s.rollout.value) then ConflictingTerminalEvidence else NonTerminalRolloutBlocksPlanCommit)
  {
    ValidParts(s);
    CommitBlockedBy(h, s, op, c, o);
    RefusalFails(h, s, CommitPlan(op, c));
  }
}
