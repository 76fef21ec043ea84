/**
 The reconcile classifier, which reads a durable query response, and its
 agreement with the journal that must accept its verdict.
 */
module Classifier {
  import opened Types
  import opened Rollouts
  import opened Sizes
  import opened Journal
  import opened Revalidation
  import opened Successors
  import opened Runs

  datatype Verdict = VPrepared | VActive(receipt: Id) | VRetired(receipt: Id) | VUncertain {
    function Observed(): Observed {
      match this
      case VPrepared => ObservedPrepared
      case VActive(_) => ObservedActive
      case VRetired(_) => ObservedRetired
      case VUncertain => ObservedUncertain
    }

    function Receipt(): Option<Id> { if VActive? || VRetired? then Some(receipt) else None }

    predicate IsTerminal() { VActive? || VRetired? }

    function Command(): Command { Decide(Observed(), Receipt()) }
  }

  /** What the Runtime must report for the verdict to be definite. */
  datatype Expected = Expected(target: Id, store: Digest, minimumEpoch: nat, digest: Digest, revision: nat,
                               slice: Digest, manifest: Digest, shape: Shape)

  predicate ExactShape(c: Content, q: ApplyRequest) {
    match (c.shape, c.subject, c.budgets, q.loop)
    case (OneSourceLoop, Some(s), Some(b), Some(l)) => l.instance == s.instance && l.domain == s.domain && l.budgets == b
    case (EmptyTarget, None, None, None) => true
    case _ => false
  }

  function ShapeMode(shape: Shape): Option<Mode> {
    match shape
    case OneSourceLoop => Some(LoopMode)
    case EmptyTarget => Some(DeactivateMode)
    case Omitted => None
  }

  /** The stored request, the plan, the binding and the query are all about the
      same apply. */
  predicate Correlated(h: Hashes, m: Manifest, p: Plan, i: Intent, b: Binding, a: ApplyRequest, q: QueryRequest) {
    && ExactShape(p.content, a)
    && a.target == p.target && a.target == i.target && a.target == b.target
    && a.slice == i.slice && a.digest == i.digest
    && a.store == i.store && a.store == b.store
    && a.scope == p.scope && a.lineage == p.lineage && a.revision == p.revision
    && a.planDigest == p.planDigest && a.planDigest == i.planDigest
    && a.operation == i.operation
    && Some(a.mode) == ShapeMode(p.content.shape)
    && a.executionTarget == p.target
    && a.manifest == p.content.manifest && a.manifest == m.digest
    && h.admits(m, a)
    && a.principal == q.principal && q.target == a.target && q.scope == a.scope && q.store == a.store
    && q.operation == i.operation && q.expectedDigest == Some(i.digest)
  }

  function ExpectedState(h: Hashes, s: State, q: QueryRequest): Option<Expected> {
    if s.plan.None? || s.rollout.None? || s.binding.None? || s.rollout.value.intent.request.decoded.None? then None
    else
      var p, i, b := s.plan.value, s.rollout.value.intent, s.binding.value;
      if !Correlated(h, s.manifest, p, i, b, i.request.decoded.value, q) then None
      else Some(Expected(p.target, b.store, b.lastEpoch, i.digest, p.revision, i.slice, p.content.manifest, p.content.shape))
  }

  predicate DesiredMatches(e: Expected, f: QueryFacts) {
    && f.revisionHighWater == e.revision
    && match (e.shape, f.head)
       case (OneSourceLoop, LoopHead(revision, slice, manifest)) =>
         revision == e.revision && slice == e.slice && manifest == e.manifest
       case (EmptyTarget, EmptyHead(revision, slice, manifest)) =>
         revision == e.revision && slice == e.slice && manifest == e.manifest
       case _ => false
  }

  function ClassifyFacts(e: Expected, f: QueryFacts): Verdict {
    if || f.serving.target != e.target || f.serving.store != e.store || f.serving.epoch < e.minimumEpoch
       || !f.owner.Operational? || !DesiredMatches(e, f)
    then VUncertain
    else match f.lookup
      case Known(digest, phase, result) =>
        if digest != e.digest then VUncertain
        else if !phase.TerminalPhase? then VPrepared
        else if result.None? then VUncertain
        else (match (e.shape, f.live)
              case (OneSourceLoop, LiveReady) => VActive(result.value)
              case (EmptyTarget, ExactZero) => VRetired(result.value)
              case _ => VUncertain)
      case _ => VUncertain
  }

  /** A direct receipt overrules a verdict of the other kind, and contradicts one
      with another receipt. */
  function Constrain(direct: Option<Receipt>, v: Verdict): Result<Verdict> {
    if direct.None? then Ok(v)
    else if v.IsTerminal() && v.receipt != direct.value.resultRef then Err(ConflictingTerminalEvidence)
    else match v
      case VActive(_) => Ok(if direct.value.outcome.LoopActive? then v else VUncertain)
      case VRetired(_) => Ok(if direct.value.outcome.DeactivatedExactZero? then v else VUncertain)
      case _ => Ok(v)
  }

  predicate RawConflict(direct: Option<Receipt>, f: QueryFacts) {
    && direct.Some? && f.lookup.Known? && f.lookup.phase.TerminalPhase? && f.lookup.result.Some?
    && f.lookup.result.value != direct.value.resultRef
  }

  function Classify(h: Hashes, s: State, q: QueryRequest, r: QueryResponse): Result<Verdict> {
    var direct := if s.rollout.Some? then s.rollout.value.direct else None;
    if r.id != q.id || r.requestDigest != q.digest || r.nonce != q.nonce then Ok(VUncertain)
    else if RawConflict(direct, r.facts) then Err(ConflictingTerminalEvidence)
    else
      var e := ExpectedState(h, s, q);
      if e.None? then Ok(VUncertain) else Constrain(direct, ClassifyFacts(e.value, r.facts))
  }

  // ------------------------------------------------------------------- agreement

  /** A durable observation that awaits its decision. */
  predicate Undecided(s: State) {
    && LastAttempt(s).Some?
    && LastAttempt(s).value.observation.Some? && LastAttempt(s).value.decision.None?
  }

  /** The classifier's verdict on the current durable observation. */
  function Verdicts(h: Hashes, s: State): Result<Verdict>
    requires LastAttempt(s).Some? && LastAttempt(s).value.observation.Some?
  {
    Classify(h, s, LastAttempt(s).value.prepared.request, LastAttempt(s).value.observation.value.response)
  }

  lemma LastLineage(s: State)
    requires EvidenceValid(s) && LastAttempt(s).Some? && LastAttempt(s).value.observation.Some?
    ensures s.binding.Some? && s.plan.Some?
    ensures PreparedValid(LastAttempt(s).value.prepared, s.binding.value, s.scope, s.rollout.value.intent)
    ensures ObservationValid(LastAttempt(s).value.observation.value, LastAttempt(s).value.prepared)
    ensures AttemptValid(LastAttempt(s).value) && LastAttempt(s).value.closure.None?
    ensures RolloutValid(s.rollout.value)
    ensures s.rollout.value.intent.manifest == s.plan.value.content.manifest
  {
    var r := s.rollout.value;
    assert LastAttempt(s).value in r.attempts;
    assert AttemptLineage(r, |r.attempts| - 1, s.binding.value, s.scope);
  }

  /** The classifier reports a conflict exactly when the journal sees one. */
  lemma ErrorsExactlyOnConflict(h: Hashes, s: State)
    requires EvidenceValid(s) && Undecided(s)
    ensures Verdicts(h, s).Err? <==> Conflicted(s.rollout.value)
    ensures Verdicts(h, s).Err? ==> Verdicts(h, s).error == ConflictingTerminalEvidence
  {
    LastLineage(s);
    var r := s.rollout.value;
    assert LastAttempt(s).value in r.attempts;
    if Conflicted(r) { ConflictIsLastAndUndecided(r); }
    assert Conflicted(r) <==> r.direct.Some? && Contradicts(r.direct.value, LastAttempt(s).value);
  }

  /** In a valid state, a receipt follows the observation exactly when it
      completed strictly later in the same epoch. */
  lemma FollowsMeansLater(s: State)
    requires EvidenceValid(s) && Undecided(s) && s.rollout.value.direct.Some?
    ensures var d := s.rollout.value.direct.value; var o := LastAttempt(s).value.observation.value;
            DirectFollows(d, LastAttempt(s).value) <==> o.Epoch() == d.epoch && o.Sequence() < d.sequence
  {
    LastLineage(s);
  }

  lemma TerminalVerdict(h: Hashes, s: State)
    requires EvidenceValid(s) && Undecided(s) && Verdicts(h, s).Ok? && Verdicts(h, s).value.IsTerminal()
    ensures var v := Verdicts(h, s).value; var o := LastAttempt(s).value.observation.value; var r := s.rollout.value;
            && TerminalMatches(o, v.Observed(), v.receipt)
            && (r.direct.Some? ==> DirectMatches(r.direct.value, Decision(o.response.id, o.Sequence(), v.Observed(), v.Receipt())))
            && s.binding.Some? && s.binding.value.lastEpoch <= o.Epoch()
  {
  }

  /** An Active, Retired or Uncertain verdict is always accepted; Prepared exactly
      when no receipt stands, or it completed strictly later in the same epoch. */
  lemma VerdictMoves(h: Hashes, s: State)
    requires EvidenceValid(s) && Undecided(s) && Verdicts(h, s).Ok?
    ensures var v := Verdicts(h, s).value; var r := s.rollout.value; var o := LastAttempt(s).value.observation.value;
            var accepted := !v.VPrepared? || r.direct.None?
                            || (o.Epoch() == r.direct.value.epoch && o.Sequence() < r.direct.value.sequence);
            && (accepted ==> DecideMove(s, v.Observed(), v.Receipt()).Next?)
            && (!accepted ==> DecideMove(s, v.Observed(), v.Receipt()) == Refuse(ConflictingTerminalEvidence))
  {
    LastLineage(s);
    ErrorsExactlyOnConflict(h, s);
    if s.rollout.value.direct.Some? { FollowsMeansLater(s); }
    if Verdicts(h, s).value.IsTerminal() { TerminalVerdict(h, s); }
  }

  lemma VerdictContext(h: Hashes, s: State, a: Attempt)
    requires LedgerValid(s) && EvidenceValid(s) && Undecided(s) && Verdicts(h, s).Ok?
    requires var v := Verdicts(h, s).value; var o := LastAttempt(s).value.observation.value;
             a == LastAttempt(s).value.(decision := Some(Decision(o.response.id, o.Sequence(), v.Observed(), v.Receipt())))
    requires s.plan.Some?
    ensures a.DecidedTerminal() ==>
              TerminalContext(a, s.rollout.value.intent, s.scope, s.lineage, s.plan.value.revision,
                              Some(s.plan.value.content.shape))
  {
    LastLineage(s);
  }

  /** The decision a verdict would be recorded as. */
  function Recorded(s: State, v: Verdict): Attempt
    requires Undecided(s)
  {
    var o := LastAttempt(s).value.observation.value;
    LastAttempt(s).value.(decision := Some(Decision(o.response.id, o.Sequence(), v.Observed(), v.Receipt())))
  }

  /** The journal would record terminal verdict `v`, size aside. */
  predicate JournalAccepts(s: State, v: Verdict)
    requires Undecided(s)
  {
    && DecideMove(s, v.Observed(), v.Receipt()).Next?
    && s.plan.Some? && Recorded(s, v).DecidedTerminal()
    && TerminalContext(Recorded(s, v), s.rollout.value.intent, s.scope, s.lineage, s.plan.value.revision,
                       Some(s.plan.value.content.shape))
  }

  /** The signed request asks for exactly the execution the plan describes. */
  predicate ExactRequest(h: Hashes, s: State)
    requires s.plan.Some? && s.rollout.Some?
  {
    && s.rollout.value.intent.request.decoded.Some?
    && ExactShape(s.plan.value.content, s.rollout.value.intent.request.decoded.value)
    && h.admits(s.manifest, s.rollout.value.intent.request.decoded.value)
  }

  lemma AcceptedIsExpected(h: Hashes, s: State, v: Verdict)
    requires LedgerValid(s) && EvidenceValid(s) && Undecided(s) && v.IsTerminal()
    requires JournalAccepts(s, v) && ExactRequest(h, s) && s.binding.Some?
    ensures ExpectedState(h, s, LastAttempt(s).value.prepared.request).Some?
  {
    LastLineage(s);
  }

  lemma AcceptedIsClassified(h: Hashes, s: State, v: Verdict)
    requires LedgerValid(s) && EvidenceValid(s) && Undecided(s) && v.IsTerminal()
    requires JournalAccepts(s, v) && ExactRequest(h, s)
    requires s.binding.Some? && s.binding.value.lastEpoch <= LastAttempt(s).value.observation.value.Epoch()
    ensures Verdicts(h, s) == Ok(v)
  {
    LastLineage(s);
    AcceptedIsExpected(h, s, v);
    assert LastAttempt(s).value in s.rollout.value.attempts;
  }

  /** The classifier reports a terminal verdict exactly when the journal would record
      it, the observation is of the current epoch, and the signed request is exactly
      the plan's. */
  lemma TerminalVerdictIff(h: Hashes, s: State, v: Verdict)
    requires LedgerValid(s) && EvidenceValid(s) && Undecided(s) && v.IsTerminal()
    ensures s.plan.Some? && s.binding.Some?
    ensures Verdicts(h, s) == Ok(v) <==>
              && JournalAccepts(s, v) && ExactRequest(h, s)
              && s.binding.value.lastEpoch <= LastAttempt(s).value.observation.value.Epoch()
  {
    LastLineage(s);
    if Verdicts(h, s) == Ok(v) {
      VerdictMoves(h, s);
      VerdictContext(h, s, Recorded(s, v));
      TerminalVerdict(h, s);
    } else if JournalAccepts(s, v) && ExactRequest(h, s)
              && s.binding.value.lastEpoch <= LastAttempt(s).value.observation.value.Epoch() {
      AcceptedIsClassified(h, s, v);
    }
  }

  /** The stored request is the one for the current plan: every fact of it agrees with
      the plan or with the intent it is stored in. */
  predicate RequestIsPlans(h: Hashes, s: State)
    requires s.plan.Some? && s.rollout.Some?
  {
    && ExactRequest(h, s)
    && var p, i := s.plan.value, s.rollout.value.intent; var q := i.request.decoded.value;
    && q.target == i.target && q.slice == i.slice && q.digest == i.digest && q.store == i.store
    && q.scope == s.scope && q.lineage == s.lineage && q.revision == p.revision && q.planDigest == i.planDigest
    && q.operation == i.operation && q.executionTarget == i.target && q.manifest == i.manifest
    && match p.content.shape
       case OneSourceLoop => q.mode == LoopMode
       case EmptyTarget => q.mode == DeactivateMode
       case Omitted => false
  }

  /** The Runtime serves the current epoch with everything up to this revision applied,
      and its head is what the intent asked for. */
  predicate Reached(s: State, f: QueryFacts)
    requires s.plan.Some? && s.rollout.Some? && s.binding.Some?
  {
    var p, slice := s.plan.value, s.rollout.value.intent.slice;
    && f.owner == Operational && s.binding.value.lastEpoch <= f.serving.epoch && f.revisionHighWater == p.revision
    && match p.content.shape
       case OneSourceLoop => f.head == LoopHead(p.revision, slice, p.content.manifest)
       case EmptyTarget => f.head == EmptyHead(p.revision, slice, p.content.manifest)
       case Omitted => false
  }

  lemma ExpectedIff(h: Hashes, s: State)
    requires LedgerValid(s) && EvidenceValid(s) && Undecided(s)
    ensures s.plan.Some? && s.binding.Some?
    ensures ExpectedState(h, s, LastAttempt(s).value.prepared.request).Some? <==> RequestIsPlans(h, s)
  {
    LastLineage(s);
  }

  /** The classifier reports Prepared exactly when the stored request is the plan's, the
      Runtime has reached it, and knows the apply in one of its three phases before the
      terminal one. */
  lemma PreparedVerdictIff(h: Hashes, s: State)
    requires LedgerValid(s) && EvidenceValid(s) && Undecided(s)
    ensures s.plan.Some? && s.binding.Some?
    ensures var f := LastAttempt(s).value.observation.value.response.facts;
            Verdicts(h, s) == Ok(VPrepared) <==>
              && RequestIsPlans(h, s) && Reached(s, f) && f.lookup.Known?
              && f.lookup.phase in {PreparedNoEffects, FirstActionIntent, HeadCommittedRetiringOld}
  {
    LastLineage(s);
    ExpectedIff(h, s);
  }

  /** And it reports Active or Retired exactly when the Runtime has reached the plan's
      request, reports its terminal result, is live or at zero as the plan's shape
      asks, and no receipt says otherwise. */
  lemma SettledVerdictIff(h: Hashes, s: State, v: Verdict)
    requires LedgerValid(s) && EvidenceValid(s) && Undecided(s) && v.IsTerminal()
    ensures s.plan.Some? && s.binding.Some?
    ensures var f := LastAttempt(s).value.observation.value.response.facts; var direct := s.rollout.value.direct;
            Verdicts(h, s) == Ok(v) <==>
              && RequestIsPlans(h, s) && Reached(s, f)
              && f.lookup.Known? && f.lookup.phase == TerminalPhase && f.lookup.result == Some(v.receipt)
              && (if v.VActive? then s.plan.value.content.shape == OneSourceLoop && f.live == LiveReady
                  else s.plan.value.content.shape == EmptyTarget && f.live == ExactZero)
              && (direct.Some? ==>
                    && direct.value.resultRef == v.receipt
                    && direct.value.outcome == if v.VActive? then LoopActive else DeactivatedExactZero)
  {
    LastLineage(s);
    ExpectedIff(h, s);
  }

  predicate Accepted(s: State, v: Verdict)
    requires Undecided(s)
  {
    var o := LastAttempt(s).value.observation.value; var direct := s.rollout.value.direct;
    v.VPrepared? && direct.Some? ==> o.Epoch() == direct.value.epoch && o.Sequence() < direct.value.sequence
  }

  lemma VerdictValid(h: Hashes, s: State, n: State)
    requires Valid(s) && Undecided(s) && Verdicts(h, s).Ok?
    requires var v := Verdicts(h, s).value; DecideMove(s, v.Observed(), v.Receipt()) == Next(n)
    ensures Valid(n) <==> SizeFits(n)
  {
    var v := Verdicts(h, s).value;
    DecideResidual(s, v.Observed(), v.Receipt(), n);
    DecideGuards(s, v.Observed(), v.Receipt(), n);
    VerdictContext(h, s, n.rollout.value.Last().value);
  }

  /** For every valid state with an undecided observation: the classifier errs
      exactly when the journal sees a conflict, and otherwise the journal commits
      its verdict, refusing only a Prepared that a standing receipt rules out. */
  lemma ClassifierAgrees(h: Hashes, s: State)
    requires Valid(s) && Undecided(s)
    ensures Verdicts(h, s).Err? <==> Conflicted(s.rollout.value)
    ensures Verdicts(h, s).Ok? ==>
              var v := Verdicts(h, s).value; var m := DecideMove(s, v.Observed(), v.Receipt());
              if Accepted(s, v) then m.Next? && (Valid(m.state) <==> SizeFits(m.state))
              else m == Refuse(ConflictingTerminalEvidence)
  {
    ErrorsExactlyOnConflict(h, s);
    if Verdicts(h, s).Ok? {
      var v := Verdicts(h, s).value;
      VerdictMoves(h, s);
      if Accepted(s, v) { VerdictValid(h, s, DecideMove(s, v.Observed(), v.Receipt()).state); }
    }
  }

  // -------------------------------------------------------------- terminal replay

  /** The current observation is decided with `v`, terminal for the binding's
      epoch, and the classifier still says `v` about it. */
  predicate Replays(h: Hashes, s: State, v: Verdict) {
    var replays :=
      && LastAttempt(s).Some? && s.binding.Some?
      && DecidedCurrent(LastAttempt(s).value, s.binding.value)
      && v.IsTerminal()
      && LastAttempt(s).value.decision.value.observed == v.Observed() && LastAttempt(s).value.decision.value.receipt == v.Receipt()
      && Verdicts(h, s) == Ok(v);
    replays
  }

  lemma DecisionReplays(h: Hashes, s: State, n: State)
    requires EvidenceValid(s) && Undecided(s) && Verdicts(h, s).Ok? && Verdicts(h, s).value.IsTerminal()
    requires var v := Verdicts(h, s).value; DecideMove(s, v.Observed(), v.Receipt()) == Next(n)
    ensures Replays(h, n, Verdicts(h, s).value)
  {
    var v := Verdicts(h, s).value;
    DecideGuards(s, v.Observed(), v.Receipt(), n);
    TerminalVerdict(h, s);
  }

  /** While plan and epoch stand, no step can add to a terminal decision but the
      matching direct receipt. */
  lemma ReplayAttempt(n: State, s: State)
    requires Evolves(n, s) && n.plan == s.plan && LastAttempt(s).Some?
    requires s.binding.Some? && n.binding == s.binding && DecidedCurrent(LastAttempt(s).value, s.binding.value)
    ensures n.rollout.Some? && n.rollout.value.intent == s.rollout.value.intent
    ensures n.rollout.value.attempts == s.rollout.value.attempts
    ensures s.rollout.value.direct.Some? ==> n.rollout.value.direct == s.rollout.value.direct
  {
  }

  lemma ReplayStep(h: Hashes, n: State, s: State, v: Verdict)
    requires Evolves(n, s) && n.plan == s.plan && Replays(h, s, v)
    requires n.binding == s.binding && (n.rollout.Some? ==> RolloutValid(n.rollout.value))
    ensures Replays(h, n, v) && n.rollout.value.attempts == s.rollout.value.attempts
  {
    ReplayAttempt(n, s);
    assert LastAttempt(n).value == LastAttempt(s).value && LastAttempt(n).value in n.rollout.value.attempts;
    assert Replays(h, s, v);
  }

  lemma SameEpochSameBinding(n: State, s: State)
    requires Evolves(n, s) && s.binding.Some? && n.binding.Some?
    requires n.binding.value.lastEpoch == s.binding.value.lastEpoch
    ensures n.binding == s.binding
  {
  }

  lemma {:induction false} EpochsRise(c: seq<State>, i: nat, j: nat)
    requires Chain(c) && i <= j < |c| && c[i].binding.Some?
    ensures c[j].binding.Some? && c[i].binding.value.lastEpoch <= c[j].binding.value.lastEpoch
    decreases j
  {
    if i < j {
      var k: nat := j - 1;
      EpochsRise(c, i, k);
      ChainEvolves(c, k);
    }
  }

  lemma ChainReplayStep(h: Hashes, c: seq<State>, k: nat, v: Verdict)
    requires Chain(c) && k + 1 < |c| && Replays(h, c[k], v)
    requires c[k + 1].Revision() == c[k].Revision()
    requires c[k].binding.Some? && c[k + 1].binding.Some?
    requires c[k + 1].binding.value.lastEpoch == c[k].binding.value.lastEpoch
    ensures Replays(h, c[k + 1], v)
    ensures c[k].rollout.Some? && c[k + 1].rollout.Some?
    ensures c[k + 1].rollout.value.attempts == c[k].rollout.value.attempts
  {
    ChainEvolves(c, k);
    ChainRollout(c, k + 1);
    SameEpochSameBinding(c[k + 1], c[k]);
    ReplayStep(h, c[k + 1], c[k], v);
  }

  /** Once a terminal verdict is committed, every later classification returns
      it, over the same attempts, until the plan or the epoch moves. */
  lemma {:induction false} TerminalReplayStable(h: Hashes, c: seq<State>, i: nat, j: nat, v: Verdict)
    requires Chain(c) && i <= j < |c| && Replays(h, c[i], v)
    requires c[j].Revision() == c[i].Revision()
    requires c[i].binding.Some? && c[j].binding.Some?
    requires c[j].binding.value.lastEpoch == c[i].binding.value.lastEpoch
    ensures Replays(h, c[j], v)
    ensures c[i].rollout.Some? && c[j].rollout.Some? && c[j].rollout.value.attempts == c[i].rollout.value.attempts
    decreases j
  {
    if i < j {
      var k: nat := j - 1;
      RevisionsRise(c, i, k);
      RevisionsRise(c, k, j);
      EpochsRise(c, i, k);
      EpochsRise(c, k, j);
      TerminalReplayStable(h, c, i, k, v);
      ChainReplayStep(h, c, k, v);
    }
  }

  // ------------------------------------------------------------------ blocked verdicts

  /** The observation classifies as Prepared, which a standing receipt rules out. */
  predicate Blocked(h: Hashes, s: State) {
    Undecided(s) && Verdicts(h, s) == Ok(VPrepared) && !Accepted(s, VPrepared)
  }

  lemma BlockedRefused(h: Hashes, s: State)
    requires EvidenceValid(s) && Blocked(h, s)
    ensures DecideMove(s, VPrepared.Observed(), VPrepared.Receipt()) == Refuse(ConflictingTerminalEvidence)
  {
    VerdictMoves(h, s);
  }

  lemma DecideIsMove(h: Hashes, s: State, v: Verdict)
    ensures MoveOf(h, s, v.Command()) == DecideMove(s, v.Observed(), v.Receipt())
  {
  }

  lemma ValidEvidence(s: State)
    requires Valid(s)
    ensures EvidenceValid(s)
  {
  }

  /** Nothing can happen to such a rollout but a decision on this very observation:
      it takes no closure, no further query, no other receipt, and no plan commit. */
  lemma BlockedStep(h: Hashes, n: State, s: State)
    requires Evolves(n, s) && Blocked(h, s) && RolloutValid(s.rollout.value)
    ensures n.plan == s.plan && n.history == s.history
    ensures n.rollout == s.rollout
            || (&& LastAttempt(n).Some? && LastAttempt(n).value.decision.Some?
                && LastAttempt(n).value == LastAttempt(s).value.(decision := LastAttempt(n).value.decision))
  {
    assert LastAttempt(s).value in s.rollout.value.attempts;
    if PlanChanged(n, s) { GateSettles(s.rollout.value, n.binding.value); }
  }

  /** With the rollout as it is, the verdict is a matter of the epoch alone: Prepared,
      and refused, while the binding's epoch is not past the observation's; Uncertain,
      and accepted, from then on. */
  lemma BlockedByEpoch(h: Hashes, n: State, s: State)
    requires Blocked(h, s) && n.rollout == s.rollout && n.plan == s.plan && n.manifest == s.manifest
    requires s.binding.Some? && n.binding.Some?
    requires n.binding.value.target == s.binding.value.target && n.binding.value.store == s.binding.value.store
    ensures if n.binding.value.lastEpoch <= LastAttempt(s).value.observation.value.Epoch() then Blocked(h, n)
            else Undecided(n) && Verdicts(h, n) == Ok(VUncertain) && Accepted(n, VUncertain)
  {
  }

  /** The same binding, at the same epoch or a later one. */
  predicate Refreshed(n: State, s: State) {
    && s.binding.Some? && n.binding.Some? && n.plan == s.plan && n.manifest == s.manifest
    && n.binding.value.target == s.binding.value.target && n.binding.value.store == s.binding.value.store
    && s.binding.value.lastEpoch <= n.binding.value.lastEpoch
  }

  lemma {:induction false} RolloutKeptMeansRefreshed(c: seq<State>, i: nat, j: nat)
    requires Chain(c) && i <= j < |c| && c[i].binding.Some? && c[i].rollout.Some?
    requires forall k :: i <= k <= j ==> c[k].rollout == c[i].rollout
    ensures Refreshed(c[j], c[i])
    decreases j
  {
    if i < j {
      var k: nat := j - 1;
      RolloutKeptMeansRefreshed(c, i, k);
      ChainEvolves(c, k);
    }
  }

  lemma BlockedIsBound(h: Hashes, s: State)
    requires Blocked(h, s)
    ensures s.binding.Some? && s.binding.value.lastEpoch <= LastAttempt(s).value.observation.value.Epoch()
  {
  }

  /** So over any chain that leaves the observation undecided, reconcile keeps running
      into that refusal exactly until the binding's epoch passes the observation's, and
      the verdict is then Uncertain and accepted. */
  lemma BlockedUntilEpochPasses(h: Hashes, c: seq<State>, i: nat, j: nat)
    requires Chain(c) && i <= j < |c| && Blocked(h, c[i])
    requires forall k :: i <= k <= j ==> c[k].rollout == c[i].rollout
    ensures c[j].binding.Some?
    ensures var epoch := LastAttempt(c[i]).value.observation.value.Epoch();
            if c[j].binding.value.lastEpoch <= epoch then Blocked(h, c[j])
            else Undecided(c[j]) && Verdicts(h, c[j]) == Ok(VUncertain) && Accepted(c[j], VUncertain)
  {
    BlockedIsBound(h, c[i]);
    RolloutKeptMeansRefreshed(c, i, j);
    BlockedByEpoch(h, c[j], c[i]);
  }
}
