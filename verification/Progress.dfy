/**
 What the mutators accept: along the protocol's normal course a call succeeds exactly
 under a condition its caller can check, final validation included.
 */
module Progress {
  import opened Types
  import opened Tables
  import opened Operations
  import Tenures
  import opened Rollouts
  import opened Allocations
  import opened Sizes
  import opened Journal
  import opened Revalidation
  import opened Mutations
  import opened Outcomes
  import opened Queries

  // -------------------------------------------------------------------- a first state

  function Initial(scope: Id, lineage: Id, manifest: Manifest, auth: AuthPin): State {
    State(scope, lineage, Allocation(manifest.target, 0, 0, []), manifest, None, [], [], auth, None, 0, None, [])
  }

  lemma InitialLedger(s: State)
    requires Fresh(s) && s.allocation.target == s.manifest.target
    ensures LedgerValid(s) && Tenures.TenuresValid(s.tenures, s.scope) && EvidenceValid(s)
  {
    assert Committed(s.operations) == {};
  }

  lemma InitialIdentities(s: State)
    requires Fresh(s)
    ensures IdentitiesValid(s.Records(), s.highWater)
  {
    assert s.Records() == [];
  }

  /** A journal can be initialised for every manifest that fits. */
  lemma InitialIsValid(scope: Id, lineage: Id, manifest: Manifest, auth: AuthPin)
    ensures var s := Initial(scope, lineage, manifest, auth);
            Fresh(s) && (Valid(s) <==> SizeFits(s)) && (SizeFits(s) <==> 319 + |manifest.wire| <= MAX_SNAPSHOT_BYTES)
  {
    var s := Initial(scope, lineage, manifest, auth);
    InitialLedger(s);
    InitialIdentities(s);
  }

  // -------------------------------------------------------------------- plans, tenures

  predicate NothingPending(s: State) {
    forall o :: o in s.operations ==> o.phase.OpCommitted? || o.phase.OpTerminal?
  }

  /** The one row under `op` is the pending one, and nothing else is pending. */
  lemma PendingAlone(h: Hashes, s: State, op: Id, c: Candidate, n: State)
    requires NothingPending(s) && !HasRow(s, op) && PlanPrepared(h, s, op, c, n)
    ensures n == s.(operations := n.operations) && CandidateFits(h, n, c)
    ensures forall o :: o in n.operations && o.id == op <==> o == PendingRow(h, s, op, c)
    ensures Committed(n.operations) == Committed(s.operations)
    ensures RowReleased(n, PendingRow(h, s, op, c)) <==> Released(s)
  {
    forall o | o in n.operations && o.phase.OpCommitted? ensures o in s.operations { }
  }

  lemma PendingConcludes(h: Hashes, s: State, n: State, o: Operation, c: Candidate, m: State)
    requires n == s.(operations := n.operations) && Committed(n.operations) == Committed(s.operations)
    requires o == PendingRow(h, s, o.id, c) && (RowReleased(n, o) <==> Released(s))
    ensures RowConcludes(h, n, o, c, m) <==>
              && s.Revision() < U64_MAX && Released(s) && ApplyDelta(s.allocation, c.delta) == Some(m.allocation)
              && AfterRow(n, o, PlanOf(h, s, o, c), m) && SizeFits(m) && Coherent(c.content, m.allocation)
              && DigestFresh(Committed(s.operations), h.plan(s.scope, s.lineage, s.Revision() + 1, c.content))
  {
  }

  lemma PendingCommitted(h: Hashes, s: State, op: Id, c: Candidate, n: State, m: State)
    requires NothingPending(s) && !HasRow(s, op) && PlanPrepared(h, s, op, c, n)
    ensures PlanCommitted(h, n, op, c, m) <==>
              0 < |c.content.bytes| <= MAX_CONTENT_BYTES && RowConcludes(h, n, PendingRow(h, s, op, c), c, m)
  {
    PendingAlone(h, s, op, c, n);
    assert PendingRow(h, s, op, c) in n.operations;
  }

  /** A plan prepared while nothing else was pending commits exactly when no rollout
      stands in its way, its content is not empty or too large, the result fits, the
      content describes the new allocation and no earlier plan has the same digest. What
      it leaves is the plan of the next revision, with the delta it was prepared with. */
  lemma PreparedPlanCommits(h: Hashes, s: State, op: Id, c: Candidate, n: State, m: State)
    requires Valid(s) && Valid(n) && NothingPending(s) && !HasRow(s, op) && Yields(h, s, PreparePlan(op, c), n)
    ensures var o := PendingRow(h, s, op, c);
            Yields(h, n, CommitPlan(op, c), m) <==>
              && Released(s) && s.Revision() < U64_MAX && 0 < |c.content.bytes| <= MAX_CONTENT_BYTES
              && ApplyDelta(s.allocation, c.delta) == Some(m.allocation) && AfterRow(n, o, PlanOf(h, s, o, c), m)
              && SizeFits(m) && Coherent(c.content, m.allocation)
              && DigestFresh(Committed(s.operations), h.plan(s.scope, s.lineage, s.Revision() + 1, c.content))
  {
    PrepareIntended(h, s, op, c, n);
    CommitIntended(h, n, op, c, m);
    PendingAlone(h, s, op, c, n);
    PendingCommitted(h, s, op, c, n, m);
    PendingConcludes(h, s, n, PendingRow(h, s, op, c), c, m);
  }

  lemma PrepareIntended(h: Hashes, s: State, op: Id, c: Candidate, n: State)
    requires Valid(s)
    ensures Yields(h, s, PreparePlan(op, c), n) <==> PlanPrepared(h, s, op, c, n)
  {
    CallsAsIntended(h, s, PreparePlan(op, c), n);
  }

  lemma CommitIntended(h: Hashes, s: State, op: Id, c: Candidate, n: State)
    requires Valid(s)
    ensures Yields(h, s, CommitPlan(op, c), n) <==> PlanCommitted(h, s, op, c, n)
  {
    CallsAsIntended(h, s, CommitPlan(op, c), n);
  }

  lemma PreparedTenureRow(s: State, q: TenureRequest, domain: Digest, n: State)
    requires SortedBy(s.tenures, Tenures.TenureKey) && PrepareTenureMove(s, q, domain) == Next(n)
    ensures var k := Find(n.tenures, Tenures.TenureKey, q.operation);
            k.Some? && n.tenures[k.value] == Tenure(q, domain, TenurePrepared, None)
    ensures Tenures.Proven(n.tenures) == Tenures.Proven(s.tenures)
  {
    var t := Tenure(q, domain, TenurePrepared, None);
    InsertMembers(s.tenures, Tenures.TenureKey, t);
    InsertSorts(s.tenures, Tenures.TenureKey, t);
    FindMember(n.tenures, Tenures.TenureKey, t);
    assert Tenures.Proven(n.tenures) == Tenures.Proven(s.tenures);
  }

  lemma TenureRowResolves(s: State, q: TenureRequest, domain: Digest, r: TenureResponse)
    requires var k := Find(s.tenures, Tenures.TenureKey, q.operation);
             k.Some? && s.tenures[k.value] == Tenure(q, domain, TenurePrepared, None)
    requires Tenures.Answers(r, q)
    requires forall t :: t in Tenures.Proven(s.tenures) ==>
               Tenures.Epoch(t) < r.proof.epoch && Tenures.Epoch(t) <= r.proof.supersedes
    ensures CommitTenureMove(s, q, r).Next?
  {
  }

  lemma TenureCommitMoves(h: Hashes, s: State, q: TenureRequest, domain: Digest, n: State, r: TenureResponse)
    requires SortedBy(s.tenures, Tenures.TenureKey) && PrepareTenureMove(s, q, domain) == Next(n)
    requires Tenures.Answers(r, q)
    requires forall t :: t in Tenures.Proven(s.tenures) ==>
               Tenures.Epoch(t) < r.proof.epoch && Tenures.Epoch(t) <= r.proof.supersedes
    ensures MoveOf(h, n, CommitTenure(q, r)).Next?
  {
    PreparedTenureRow(s, q, domain, n);
    TenureRowResolves(n, q, domain, r);
  }

  lemma TenureMarkMoves(h: Hashes, s: State, q: TenureRequest, domain: Digest, n: State)
    requires SortedBy(s.tenures, Tenures.TenureKey) && PrepareTenureMove(s, q, domain) == Next(n)
    ensures MoveOf(h, n, MarkTenureUncertain(q)).Next?
  {
    PreparedTenureRow(s, q, domain, n);
  }

  /** A prepared tenure commits with every answer whose proof outranks and supersedes
      the proofs committed before, exactly when the result fits. */
  lemma PreparedTenureCommits(h: Hashes, s: State, q: TenureRequest, domain: Digest, n: State, r: TenureResponse)
    requires Valid(n) && SortedBy(s.tenures, Tenures.TenureKey) && PrepareTenureMove(s, q, domain) == Next(n)
    requires Tenures.Answers(r, q)
    requires forall t :: t in Tenures.Proven(s.tenures) ==>
               Tenures.Epoch(t) < r.proof.epoch && Tenures.Epoch(t) <= r.proof.supersedes
    ensures MoveOf(h, n, CommitTenure(q, r)).Next?
    ensures var m := MoveOf(h, n, CommitTenure(q, r)).state; Yields(h, n, CommitTenure(q, r), m) <==> SizeFits(m)
  {
    TenureCommitMoves(h, s, q, domain, n, r);
    SizeDecides(h, n, CommitTenure(q, r), MoveOf(h, n, CommitTenure(q, r)).state);
  }

  /** Whatever became of the exchange, its uncertainty can be recorded, exactly when the
      result fits. */
  lemma PreparedTenureMarks(h: Hashes, s: State, q: TenureRequest, domain: Digest, n: State)
    requires Valid(n) && SortedBy(s.tenures, Tenures.TenureKey) && PrepareTenureMove(s, q, domain) == Next(n)
    ensures MoveOf(h, n, MarkTenureUncertain(q)).Next?
    ensures var m := MoveOf(h, n, MarkTenureUncertain(q)).state; Yields(h, n, MarkTenureUncertain(q), m) <==> SizeFits(m)
  {
    TenureMarkMoves(h, s, q, domain, n);
    SizeDecides(h, n, MarkTenureUncertain(q), MoveOf(h, n, MarkTenureUncertain(q)).state);
  }

  // -------------------------------------------------------------------------- queries

  /** A freshly built query is admissible exactly when it binds the request digest,
      speaks for the apply's own principal with the pinned Ed25519 key, and fits. */
  lemma FreshQueryAdmissible(s: State, principal: Id, entropy: Entropy)
    requires LedgerValid(s) && EvidenceValid(s) && s.binding.Some? && s.rollout.Some?
    ensures var q := BuildQuery(s, principal, entropy); var i := s.rollout.value.intent;
            PreparedValid(NewPrepared(q, s.binding.value, s.auth), s.binding.value, s.scope, i) <==>
              SpeaksForApply(s, principal, entropy)
  {
  }

  lemma UnusedQueryMoves(h: Hashes, s: State, q: QueryRequest)
    requires s.binding.Some? && s.rollout.Some? && Unused(s, q)
    ensures var p := NewPrepared(q, s.binding.value, s.auth); var m := MoveOf(h, s, PrepareQuery(q));
            if PreparedValid(p, s.binding.value, s.scope, s.rollout.value.intent) && MayQuery(s)
            then m == Next(WithQuery(s, q)) else m.Refuse?
  {
  }

  lemma ValidLedgerAndEvidence(s: State)
    requires Valid(s)
    ensures LedgerValid(s) && EvidenceValid(s) && IdentitiesValid(s.Records(), s.highWater)
  {
  }

  /** What a freshly built query must bring along. */
  predicate SpeaksForApply(s: State, principal: Id, entropy: Entropy)
    requires s.rollout.Some?
  {
    var i := s.rollout.value.intent;
    && entropy.bindDigest && 0 < |entropy.wire| <= MAX_QUERY_REQUEST_BYTES
    && i.request.decoded.Some? && principal == i.request.decoded.value.principal
    && s.auth.algorithm == ED25519 && s.auth.version == ED25519
  }

  /** A freshly built query under unused identities is accepted exactly when it speaks
      for the apply, the last query leaves room for it, and the result fits. */
  lemma FreshQueryAccepted(h: Hashes, s: State, principal: Id, entropy: Entropy)
    requires Valid(s) && s.binding.Some? && s.rollout.Some? && Unused(s, BuildQuery(s, principal, entropy))
    ensures var q := BuildQuery(s, principal, entropy);
            && (Yields(h, s, PrepareQuery(q), WithQuery(s, q)) <==>
                  SpeaksForApply(s, principal, entropy) && MayQuery(s) && SizeFits(WithQuery(s, q)))
            && forall m :: Yields(h, s, PrepareQuery(q), m) ==> m == WithQuery(s, q)
  {
    var q := BuildQuery(s, principal, entropy);
    ValidLedgerAndEvidence(s);
    FreshQueryAdmissible(s, principal, entropy);
    UnusedQueryMoves(h, s, q);
    if SpeaksForApply(s, principal, entropy) && MayQuery(s) {
      SizeDecides(h, s, PrepareQuery(q), WithQuery(s, q));
    } else {
      forall m ensures !Yields(h, s, PrepareQuery(q), m) { RefusalYieldsNothing(h, s, PrepareQuery(q), m); }
    }
  }

  lemma OpenQueryCloseMoves(h: Hashes, s: State, closure: Closure)
    requires LastAttempt(s).Some? && LastAttempt(s).value.Open()
    ensures MoveOf(h, s, CloseQuery(closure)) == Next(WithLast(s, LastAttempt(s).value.(closure := Some(closure))))
  {
  }

  /** An open query is closed exactly when the result fits. */
  lemma OpenQueryCloses(h: Hashes, s: State, closure: Closure)
    requires Valid(s) && LastAttempt(s).Some? && LastAttempt(s).value.Open()
    ensures var n := WithLast(s, LastAttempt(s).value.(closure := Some(closure)));
            Yields(h, s, CloseQuery(closure), n) <==> SizeFits(n)
  {
    OpenQueryCloseMoves(h, s, closure);
    SizeDecides(h, s, CloseQuery(closure), WithLast(s, LastAttempt(s).value.(closure := Some(closure))));
  }

  lemma OpenQueryAnswerMoves(h: Hashes, s: State, response: QueryResponse, channel: Channel)
    requires IdentitiesValid(s.Records(), s.highWater) && LastAttempt(s).Some? && LastAttempt(s).value.Open()
    requires ObservationValid(Observation(response, channel), LastAttempt(s).value.prepared)
    ensures var o := Observation(response, channel); var m := MoveOf(h, s, RecordResponse(response, channel));
            if s.highWater <= o.Sequence() then m == Next(WithAnswer(s, o)) else m.Refuse?
  {
    HighWaterCoversPrior(s);
  }

  /** A valid answer to an open query is recorded exactly when it is at or above the
      journal-wide high water and the result fits. */
  lemma OpenQueryAnswers(h: Hashes, s: State, response: QueryResponse, channel: Channel)
    requires Valid(s) && LastAttempt(s).Some? && LastAttempt(s).value.Open()
    requires ObservationValid(Observation(response, channel), LastAttempt(s).value.prepared)
    ensures var o := Observation(response, channel); var n := WithAnswer(s, o);
            && (Yields(h, s, RecordResponse(response, channel), n) <==> s.highWater <= o.Sequence() && SizeFits(n))
            && forall m :: Yields(h, s, RecordResponse(response, channel), m) ==> m == n
  {
    ValidLedgerAndEvidence(s);
    OpenQueryAnswerMoves(h, s, response, channel);
    var o := Observation(response, channel);
    if s.highWater <= o.Sequence() {
      SizeDecides(h, s, RecordResponse(response, channel), WithAnswer(s, o));
    } else {
      forall m ensures !Yields(h, s, RecordResponse(response, channel), m) {
        RefusalYieldsNothing(h, s, RecordResponse(response, channel), m);
      }
    }
  }
}
