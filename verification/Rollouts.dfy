/**
 One rollout: a signed apply intent, its optional direct receipt, and the
 append-only query attempts made about it.
 */
module Rollouts {
  import opened Types

  const MAX_QUERY_REQUEST_BYTES: nat := 1024
  const MAX_QUERY_RESPONSE_BYTES: nat := 2048

  // -------------------------------------------------------------- construction

  /** Invariants of a binding: its bootstrap evidence is about this very target,
      store, manifest and last epoch. */
  predicate BindingWellFormed(b: Binding) {
    && 0 < b.firstEpoch <= b.lastEpoch
    && b.bootstrap.serving.target == b.target
    && b.bootstrap.serving.store == b.store
    && b.bootstrap.serving.epoch == b.lastEpoch
    && b.bootstrap.manifest == b.manifest
    && b.runtimeAuth.bootstrapDigest == b.bootstrap.digest
  }

  /** A direct receipt correlates with the request the intent stores. */
  predicate ReceiptAnswers(r: Receipt, i: Intent) {
    && i.request.decoded.Some?
    && var q := i.request.decoded.value;
    && r.target == i.target && r.target == q.target
    && r.store == i.store && r.store == q.store
    && r.scope == q.scope
    && r.operation == i.operation && r.operation == q.operation
    && r.requestDigest == i.digest && r.requestDigest == q.digest
    && r.nonce == q.nonce
    && r.peer == i.runtimeAuth.peer && r.key == i.runtimeAuth.key
    && r.algorithm == i.runtimeAuth.algorithm && r.version == i.runtimeAuth.version
    && (r.head.CommittedIncoming? ==> r.head.slice == q.slice)
  }

  /** What every stored query keeps satisfying under the current binding. */
  predicate PreparedValid(p: Prepared, b: Binding, scope: Id, i: Intent) {
    var q := p.request;
    && 0 < |q.wire| <= MAX_QUERY_REQUEST_BYTES
    && q.target == b.target && q.target == i.target
    && q.scope == scope
    && q.store == b.store
    && q.operation == i.operation
    && q.expectedDigest == Some(i.digest)
    && i.request.decoded.Some? && q.principal == i.request.decoded.value.principal
    && q.key == p.auth.key && q.algorithm == p.auth.algorithm && q.version == p.auth.version
    && q.algorithm == ED25519 && q.version == ED25519
    && q.maxResponse <= MAX_QUERY_RESPONSE_BYTES
    && p.channel == p.runtimeAuth.ChannelTo(q.target)
    && p.baseline.target == q.target && p.baseline.store == q.store
    && b.firstEpoch <= p.baseline.epoch <= b.lastEpoch
  }

  /** The row a fresh request becomes: pinned to the binding of this moment. */
  function NewPrepared(q: QueryRequest, b: Binding, auth: AuthPin): Prepared {
    Prepared(q, auth, b.runtimeAuth.ChannelTo(b.target), b.runtimeAuth, b.bootstrap.serving)
  }

  predicate FreshEnough(s: Serving, baseline: Serving) {
    && s.target == baseline.target && s.store == baseline.store && s.clockDomain == baseline.clockDomain
    && baseline.sequence <= s.sequence && baseline.epoch <= s.epoch
    && (baseline.epoch < s.epoch ==> baseline.sequence < s.sequence && baseline.clockGeneration < s.clockGeneration)
    && (baseline.epoch == s.epoch ==> baseline.clockGeneration == s.clockGeneration)
  }

  /** A response is exactly about its request, from the pinned Runtime, and not
      older than the baseline the request was prepared against. */
  predicate ObservationValid(o: Observation, p: Prepared) {
    var r := o.response; var q := p.request;
    && 0 < |r.wire| <= q.maxResponse
    && o.channel == p.channel
    && r.peer == p.runtimeAuth.peer && r.key == p.runtimeAuth.key
    && r.algorithm == p.runtimeAuth.algorithm && r.version == p.runtimeAuth.version
    && r.id == q.id && r.requestDigest == q.digest && r.nonce == q.nonce
    && r.facts.serving.target == q.target && r.facts.serving.store == q.store
    && FreshEnough(r.facts.serving, p.baseline)
    && (match (q.expectedDigest, r.facts.lookup)
        case (Some(d), Known(e, _, _)) => d == e
        case (Some(d), Conflict(e)) => d != e
        case (None, Conflict(_)) => false
        case _ => true)
    && (r.facts.lookup.Known? ==> (r.facts.lookup.phase.TerminalPhase? == r.facts.lookup.result.Some?))
  }

  // ------------------------------------------------------------------ decisions

  /** The terminal result an observation reports, if it reports one. */
  function ReportedResult(o: Observation): Option<Id> {
    var l := o.response.facts.lookup;
    if l.Known? && l.phase.TerminalPhase? then l.result else None
  }

  predicate TerminalMatches(o: Observation, observed: Observed, receipt: Id) {
    var f := o.response.facts;
    && f.owner.Operational?
    && ReportedResult(o) == Some(receipt)
    && match observed
       case ObservedActive => f.head.LoopHead? && f.live.LiveReady?
       case ObservedRetired => f.head.EmptyHead? && f.live.ExactZero?
       case _ => false
  }

  /** A decision's own shape: exactly the terminal kinds carry a receipt. */
  predicate DecisionShape(observed: Observed, receipt: Option<Id>) {
    (observed.ObservedActive? || observed.ObservedRetired?) == receipt.Some?
  }

  predicate AttemptValid(a: Attempt) {
    && (a.closure.Some? ==> a.observation.None? && a.decision.None?)
    && (a.decision.Some? ==>
          && a.observation.Some?
          && DecisionShape(a.decision.value.observed, a.decision.value.receipt)
          && a.decision.value.query == a.observation.value.response.id
          && a.decision.value.sequence == a.observation.value.Sequence()
          && (a.decision.value.IsTerminal() ==>
                TerminalMatches(a.observation.value, a.decision.value.observed, a.decision.value.receipt.value)))
  }

  // ------------------------------------------------- direct receipt vs. queries

  /** The observation reports a terminal result other than the receipt's. */
  predicate Contradicts(direct: Receipt, a: Attempt) {
    && a.observation.Some?
    && ReportedResult(a.observation.value).Some?
    && ReportedResult(a.observation.value).value != direct.resultRef
  }

  predicate Conflicted(r: Rollout) {
    r.direct.Some? && exists a :: a in r.attempts && Contradicts(r.direct.value, a)
  }

  predicate DirectMatches(direct: Receipt, d: Decision) {
    && d.receipt == Some(direct.resultRef)
    && ((direct.outcome.LoopActive? && d.observed.ObservedActive?)
        || (direct.outcome.DeactivatedExactZero? && d.observed.ObservedRetired?))
  }

  /** The receipt completed in the observed epoch, after the observed snapshot. */
  predicate DirectFollows(direct: Receipt, a: Attempt) {
    && a.observation.Some?
    && var q := a.prepared.request; var s := a.observation.value.response.facts.serving;
    && q.target == direct.target && q.store == direct.store
    && q.operation == direct.operation && q.expectedDigest == Some(direct.requestDigest)
    && s.target == direct.target && s.store == direct.store
    && s.epoch == direct.epoch
    && a.observation.value.Sequence() < direct.sequence
  }

  /** How a receipt constrains the latest decision. */
  predicate DirectAllows(direct: Receipt, a: Attempt, d: Decision) {
    && (d.IsTerminal() ==> DirectMatches(direct, d))
    && (d.observed.ObservedPrepared? ==>
          && a.observation.Some? && d.sequence == a.observation.value.Sequence()
          && DirectFollows(direct, a))
  }

  /** Observed snapshot sequences do not regress from `a` to `b`. */
  predicate InOrder(a: Attempt, b: Attempt) {
    a.observation.Some? && b.observation.Some? ==> a.observation.value.Sequence() <= b.observation.value.Sequence()
  }

  predicate RolloutValid(r: Rollout) {
    var valid :=
      && |r.attempts| <= MAX_ATTEMPTS
      && (forall a :: a in r.attempts ==> AttemptValid(a))
      && (forall i, j :: 0 <= i < j < |r.attempts| ==>
            r.attempts[i].prepared.request.id != r.attempts[j].prepared.request.id)
      && (forall i, j :: 0 <= i < j < |r.attempts| ==> InOrder(r.attempts[i], r.attempts[j]))
      && (forall i :: 0 <= i < |r.attempts| - 1 ==> r.attempts[i].Resolved())
      && (r.direct.Some? ==>
            && ReceiptAnswers(r.direct.value, r.intent)
            && (r.Last().Some? && r.Last().value.decision.Some? ==>
                  DirectAllows(r.direct.value, r.Last().value, r.Last().value.decision.value))
            && (forall a :: a in r.attempts && a.decision.Some? ==> !Contradicts(r.direct.value, a)));
    valid
  }

  predicate IsTerminal(r: Rollout) {
    r.direct.Some? || (r.Last().Some? && r.Last().value.DecidedTerminal())
  }

  // ------------------------------------------------------------ query lineage

  /** Per attempt: still valid under the binding, and a terminal decision may be
      followed only by a query prepared in a strictly newer epoch. */
  predicate AttemptLineage(r: Rollout, i: nat, b: Binding, scope: Id)
    requires i < |r.attempts|
  {
    var a := r.attempts[i];
    && PreparedValid(a.prepared, b, scope, r.intent)
    && (a.observation.Some? ==> ObservationValid(a.observation.value, a.prepared))
    && (a.DecidedTerminal() && i + 1 < |r.attempts| ==>
          && a.observation.Some?
          && a.observation.value.Epoch() < b.lastEpoch
          && a.observation.value.Epoch() < r.attempts[i + 1].prepared.baseline.epoch)
  }

  predicate Lineage(r: Rollout, b: Binding, scope: Id) {
    forall i :: 0 <= i < |r.attempts| ==> AttemptLineage(r, i, b, scope)
  }

  predicate SameQuery(q: QueryRequest, p: QueryRequest) {
    q.id == p.id || q.digest == p.digest || q.nonce == p.nonce
  }

  // ----------------------------------------------------- terminal decision context

  function ModeOf(observed: Observed): Option<Mode> {
    match observed
    case ObservedActive => Some(LoopMode)
    case ObservedRetired => Some(DeactivateMode)
    case _ => None
  }

  predicate ShapeFits(shape: Option<Shape>, mode: Mode) {
    match shape
    case None => true
    case Some(OneSourceLoop) => mode.LoopMode?
    case Some(EmptyTarget) => mode.DeactivateMode?
    case Some(Omitted) => false
  }

  predicate HeadFits(observed: Observed, head: DesiredHead, revision: nat, slice: Digest, manifest: Digest) {
    && ((observed.ObservedActive? && head.LoopHead?) || (observed.ObservedRetired? && head.EmptyHead?))
    && head.revision == revision && head.slice == slice && head.manifest == manifest
  }

  /** A terminal decision is about this plan revision, this request and the very
      slice the request asked for. */
  predicate TerminalContext(a: Attempt, i: Intent, scope: Id, lineage: Id, revision: nat, shape: Option<Shape>)
    requires a.DecidedTerminal()
  {
    var d := a.decision.value;
    && ModeOf(d.observed).Some?
    && var mode := ModeOf(d.observed).value;
    && ShapeFits(shape, mode)
    && a.observation.Some?
    && i.request.decoded.Some?
    && var q := i.request.decoded.value; var f := a.observation.value.response.facts;
    && q.target == i.target && q.slice == i.slice && q.digest == i.digest && q.store == i.store
    && q.scope == scope && q.lineage == lineage && q.revision == revision && q.planDigest == i.planDigest
    && q.operation == i.operation && q.mode == mode && q.executionTarget == i.target && q.manifest == i.manifest
    && a.prepared.request.expectedDigest == Some(i.digest)
    && a.prepared.request.principal == q.principal
    && ReportedResult(a.observation.value).Some?
    && f.lookup.requestDigest == i.digest
    && f.revisionHighWater == revision
    && HeadFits(d.observed, f.head, revision, i.slice, i.manifest)
  }

  predicate Context(r: Rollout, scope: Id, lineage: Id, revision: nat, shape: Option<Shape>) {
    forall a :: a in r.attempts && a.DecidedTerminal() ==>
      TerminalContext(a, r.intent, scope, lineage, revision, shape)
  }

  // ----------------------------------------------------------- plan-advance gate

  predicate DirectSucceeded(direct: Receipt, i: Intent) {
    && i.request.decoded.Some?
    && direct.head.CommittedIncoming?
    && direct.head.Desired() == Some(i.slice)
    && match (i.request.decoded.value.mode, direct.outcome)
       case (LoopMode, LoopActive) => direct.lifecycle.MayHaveStarted?
       case (DeactivateMode, DeactivatedExactZero) => true
       case _ => false
  }

  predicate TerminalAttemptConfirms(direct: Receipt, a: Attempt, epoch: nat) {
    && a.observation.Some? && a.DecidedTerminal()
    && DirectMatches(direct, a.decision.value)
    && epoch <= a.observation.value.Epoch()
    && (a.observation.value.Epoch() == direct.epoch ==> direct.sequence <= a.observation.value.Sequence())
  }

  /** Whether a plan commit may archive the rollout; conflicting evidence is an
      error rather than a refusal. */
  function PermitsAdvance(r: Rollout, b: Binding): Result<bool> {
    if Conflicted(r) then Err(ConflictingTerminalEvidence)
    else if r.direct.None? then
      Ok(&& r.Last().Some? && r.Last().value.observation.Some? && r.Last().value.DecidedTerminal()
         && b.lastEpoch <= r.Last().value.observation.value.Epoch())
    else
      var direct := r.direct.value;
      if !DirectSucceeded(direct, r.intent) || direct.epoch > b.lastEpoch then Ok(false)
      else if r.Last().None? then Ok(direct.epoch == b.lastEpoch)
      else
        var last := r.Last().value;
        if last.closure.Some? || last.observation.None? || last.decision.None? then Ok(false)
        else if direct.epoch == b.lastEpoch && DirectFollows(direct, last) then Ok(true)
        else Ok(TerminalAttemptConfirms(direct, last, b.lastEpoch))
  }

  /** Whether the latest decision is terminal for the binding's current epoch. */
  predicate DecidedCurrent(a: Attempt, b: Binding) {
    a.DecidedTerminal() && a.observation.Some? && b.lastEpoch <= a.observation.value.Epoch()
  }

  /** What the gate guarantees about a rollout it lets go: uncontradicted, and
      settled in the binding's current epoch. */
  predicate SettledNow(r: Rollout, b: Binding) {
    && !Conflicted(r)
    && (|| (r.direct.Some? && DirectSucceeded(r.direct.value, r.intent) && r.direct.value.epoch == b.lastEpoch)
        || (r.Last().Some? && DecidedCurrent(r.Last().value, b)))
  }

  /** The epoch-independent part of it, which archiving preserves for ever. */
  predicate Settled(r: Rollout) {
    && !Conflicted(r)
    && ((r.direct.Some? && DirectSucceeded(r.direct.value, r.intent))
        || (r.Last().Some? && r.Last().value.DecidedTerminal()))
  }

  lemma GateSettles(r: Rollout, b: Binding)
    requires PermitsAdvance(r, b) == Ok(true)
    ensures SettledNow(r, b) && Settled(r) && IsTerminal(r)
    ensures r.direct.Some? ==> DirectSucceeded(r.direct.value, r.intent)
    ensures r.Last().Some? ==> r.Last().value.Resolved()
  {
  }

  /** The receipt says that the Runtime now serves what the intent asked for: its slice
      is the head, and the loop may have started or the target is at exact zero. */
  predicate ReceiptServes(d: Receipt, i: Intent) {
    && i.request.decoded.Some? && d.head == CommittedIncoming(i.slice)
    && var mode := i.request.decoded.value.mode;
    && (mode.LoopMode? ==> d.outcome == LoopActive && d.lifecycle == MayHaveStarted)
    && (mode.DeactivateMode? ==> d.outcome == DeactivatedExactZero)
  }

  /** The attempt was decided, and decided Active or Retired. */
  predicate EndsTerminal(a: Attempt) {
    a.decision.Some? && (a.decision.value.observed == ObservedActive || a.decision.value.observed == ObservedRetired)
  }

  /** When a plan may move past the rollout, in terms of its receipt and its last query:
      settled by the query alone, by the receipt of this epoch, or by both. */
  predicate Releasable(r: Rollout, epoch: nat) {
    var n := |r.attempts|;
    if r.direct.None? then
      n > 0 && EndsTerminal(r.attempts[n - 1])
      && r.attempts[n - 1].observation.Some? && epoch <= r.attempts[n - 1].observation.value.response.facts.serving.epoch
    else
      var d := r.direct.value;
      && ReceiptServes(d, r.intent)
      && if n == 0 then d.epoch == epoch
         else
           var a := r.attempts[n - 1];
           && a.decision.Some? && a.observation.Some?
           && var seen := a.observation.value.response.facts.serving;
           || (d.epoch == epoch && seen.epoch == epoch && seen.sequence < d.sequence)
           || (&& d.epoch <= epoch <= seen.epoch
               && EndsTerminal(a) && a.decision.value.receipt == Some(d.resultRef)
               && (a.decision.value.observed == ObservedActive <==> d.outcome == LoopActive)
               && (seen.epoch == d.epoch ==> d.sequence <= seen.sequence))
  }

  lemma ServesMeansSucceeded(d: Receipt, i: Intent)
    ensures DirectSucceeded(d, i) <==> ReceiptServes(d, i)
  {
  }

  lemma LastFollows(r: Rollout, b: Binding, scope: Id)
    requires RolloutValid(r) && Lineage(r, b, scope) && r.direct.Some? && r.attempts != []
    requires r.intent.target == b.target && r.intent.store == b.store
    ensures var a := r.attempts[|r.attempts| - 1]; var d := r.direct.value;
            DirectFollows(d, a) <==>
              a.observation.Some? && a.observation.value.Epoch() == d.epoch && a.observation.value.Sequence() < d.sequence
  {
    assert AttemptLineage(r, |r.attempts| - 1, b, scope);
  }

  /** The gate, decided in both directions: conflicting evidence is an error, and any
      other rollout is let go exactly when it is releasable. */
  lemma GateIff(r: Rollout, b: Binding, scope: Id)
    requires RolloutValid(r) && Lineage(r, b, scope) && r.intent.target == b.target && r.intent.store == b.store
    ensures PermitsAdvance(r, b) ==
              if Conflicted(r) then Err(ConflictingTerminalEvidence) else Ok(Releasable(r, b.lastEpoch))
  {
    if r.direct.Some? { ServesMeansSucceeded(r.direct.value, r.intent); }
    if r.attempts != [] {
      var a := r.attempts[|r.attempts| - 1];
      assert a in r.attempts && AttemptValid(a);
      if r.direct.Some? { LastFollows(r, b, scope); }
    }
  }

  /** So an archived rollout has no query left open. */
  lemma GateResolves(r: Rollout, b: Binding)
    requires RolloutValid(r) && PermitsAdvance(r, b) == Ok(true)
    ensures forall a :: a in r.attempts ==> a.Resolved()
  {
    GateSettles(r, b);
    forall a | a in r.attempts ensures a.Resolved() {
      var i :| 0 <= i < |r.attempts| && r.attempts[i] == a;
    }
  }

  /** The slice the next apply request must expect to find active. */
  function TerminalSlice(r: Rollout): Option<Digest> {
    if r.Last().Some? && r.Last().value.DecidedTerminal() && r.Last().value.observation.Some? then
      var head := r.Last().value.observation.value.response.facts.head;
      if head.NoHead? then None else Some(head.slice)
    else if r.direct.Some? && DirectSucceeded(r.direct.value, r.intent) then r.direct.value.head.Desired()
    else None
  }

  /** For every rollout whose terminal decisions are in context, the slice is
      the intent's own exactly when the rollout is settled. */
  lemma TerminalSliceIsIntentSlice(r: Rollout, scope: Id, lineage: Id, revision: nat, shape: Option<Shape>)
    requires RolloutValid(r) && Context(r, scope, lineage, revision, shape) && !Conflicted(r)
    ensures TerminalSlice(r) == (if Settled(r) then Some(r.intent.slice) else None)
  {
    if r.Last().Some? && r.Last().value.DecidedTerminal() {
      var a := r.Last().value;
      assert a in r.attempts;
      assert TerminalContext(a, r.intent, scope, lineage, revision, shape);
    }
  }

  // ------------------------------------------------------------------- conflicts

  /** In a valid rollout a contradiction can only sit in the last attempt, and
      that attempt is undecided. */
  lemma ConflictIsLastAndUndecided(r: Rollout)
    requires RolloutValid(r) && Conflicted(r)
    ensures r.Last().Some? && Contradicts(r.direct.value, r.Last().value)
    ensures r.Last().value.decision.None? && r.Last().value.closure.None?
  {
    var a :| a in r.attempts && Contradicts(r.direct.value, a);
    var i :| 0 <= i < |r.attempts| && r.attempts[i] == a;
    assert AttemptValid(a);
    assert i == |r.attempts| - 1;
  }
}
