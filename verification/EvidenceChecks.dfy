/**
 The validator's passes over rollouts and their queries.
 */
module EvidenceChecks {
  import opened Types
  import opened Operations
  import opened Rollouts
  import opened Journal

  // ------------------------------------------------------------------- one rollout

  /** The attempts so far, in the terms of the pass: identities collected in a set
      and the last observed sequence. */
  ghost predicate AttemptsValid(attempts: seq<Attempt>) {
    var valid :=
      && (forall a :: a in attempts ==> AttemptValid(a))
      && (forall i, j :: 0 <= i < j < |attempts| ==> attempts[i].prepared.request.id != attempts[j].prepared.request.id)
      && (forall i, j :: 0 <= i < j < |attempts| ==> InOrder(attempts[i], attempts[j]));
    valid
  }

  ghost predicate AttemptsTracked(attempts: seq<Attempt>, ids: set<Id>, last: Option<nat>) {
    var tracked :=
      && ids == (set a | a in attempts :: a.prepared.request.id)
      && last == PriorSequence(attempts)
      && (forall a :: a in attempts && a.observation.Some? ==> last.Some? && a.observation.value.Sequence() <= last.value);
    tracked
  }

  predicate AttemptObjection(a: Attempt, ids: set<Id>, last: Option<nat>) {
    || !AttemptValid(a)
    || a.prepared.request.id in ids
    || (a.observation.Some? && last.Some? && last.value > a.observation.value.Sequence())
  }

  lemma {:induction false} PriorIsObserved(attempts: seq<Attempt>)
    ensures PriorSequence(attempts).Some? ==>
              exists a :: a in attempts && a.observation.Some? && a.observation.value.Sequence() == PriorSequence(attempts).value
  {
    if attempts != [] && attempts[|attempts| - 1].observation.None? {
      PriorIsObserved(attempts[..|attempts| - 1]);
    }
  }

  lemma AttemptsPrefix(attempts: seq<Attempt>, i: nat)
    requires AttemptsValid(attempts) && i <= |attempts|
    ensures AttemptsValid(attempts[..i])
  {
    forall a | a in attempts[..i] ensures a in attempts { }
  }

  lemma AttemptAccepted(attempts: seq<Attempt>, a: Attempt, ids: set<Id>, last: Option<nat>)
    requires AttemptsValid(attempts) && AttemptsTracked(attempts, ids, last) && !AttemptObjection(a, ids, last)
    ensures AttemptsValid(attempts + [a])
    ensures AttemptsTracked(attempts + [a], ids + {a.prepared.request.id},
                            if a.observation.Some? then Some(a.observation.value.Sequence()) else last)
  {
    var attempts' := attempts + [a];
    assert attempts'[..|attempts|] == attempts;
    assert forall x :: x in attempts' <==> x in attempts || x == a;
    forall i, j | 0 <= i < j < |attempts'|
      ensures attempts'[i].prepared.request.id != attempts'[j].prepared.request.id
      ensures InOrder(attempts'[i], attempts'[j])
    {
      assert attempts[i] in attempts;
      if j < |attempts| { assert InOrder(attempts[i], attempts[j]); }
    }
  }

  lemma AttemptRefused(attempts: seq<Attempt>, a: Attempt, ids: set<Id>, last: Option<nat>)
    requires AttemptsTracked(attempts, ids, last) && AttemptObjection(a, ids, last)
    ensures !AttemptsValid(attempts + [a])
  {
    var attempts' := attempts + [a];
    assert attempts'[|attempts|] == a;
    forall k | 0 <= k < |attempts| ensures attempts'[k] == attempts[k] { }
    if AttemptValid(a) && a.prepared.request.id !in ids {
      PriorIsObserved(attempts);
      var b :| b in attempts && b.observation.Some? && b.observation.value.Sequence() == last.value;
      var k :| 0 <= k < |attempts| && attempts[k] == b;
      assert !InOrder(attempts'[k], attempts'[|attempts|]);
    } else if AttemptValid(a) {
      var b :| b in attempts && b.prepared.request.id == a.prepared.request.id;
      var k :| 0 <= k < |attempts| && attempts[k] == b;
      assert attempts'[k].prepared.request.id == attempts'[|attempts|].prepared.request.id;
    }
  }

  /** What one turn of the loop learns about the whole rollout. */
  lemma AttemptStep(attempts: seq<Attempt>, i: nat, ids: set<Id>, last: Option<nat>)
    requires i < |attempts| && AttemptsValid(attempts[..i]) && AttemptsTracked(attempts[..i], ids, last)
    ensures var a := attempts[i];
            if AttemptObjection(a, ids, last) then !AttemptsValid(attempts)
            else && AttemptsValid(attempts[..i + 1])
                 && AttemptsTracked(attempts[..i + 1], ids + {a.prepared.request.id},
                                    if a.observation.Some? then Some(a.observation.value.Sequence()) else last)
  {
    assert attempts[..i + 1] == attempts[..i] + [attempts[i]];
    if AttemptObjection(attempts[i], ids, last) {
      AttemptRefused(attempts[..i], attempts[i], ids, last);
      if AttemptsValid(attempts) { AttemptsPrefix(attempts, i + 1); }
    } else {
      AttemptAccepted(attempts[..i], attempts[i], ids, last);
    }
  }

  /** Only the last attempt may still be open. */
  ghost predicate ResolvedBefore(attempts: seq<Attempt>, i: nat) {
    forall k :: 0 <= k < i && k < |attempts| - 1 ==> attempts[k].Resolved()
  }

  method CheckAttempts(attempts: seq<Attempt>) returns (ok: bool)
    ensures ok <==> AttemptsValid(attempts) && ResolvedBefore(attempts, |attempts|)
  {
    var last: Option<nat>, ids: set<Id> := None, {};
    for i := 0 to |attempts|
      invariant AttemptsValid(attempts[..i]) && AttemptsTracked(attempts[..i], ids, last)
      invariant ResolvedBefore(attempts, i)
    {
      var a := attempts[i];
      AttemptStep(attempts, i, ids, last);
      if AttemptObjection(a, ids, last) { return false; }
      ids := ids + {a.prepared.request.id};
      if a.observation.Some? { last := Some(a.observation.value.Sequence()); }
      if i + 1 != |attempts| && !a.Resolved() { return false; }
    }
    assert attempts[..|attempts|] == attempts;
    ok := true;
  }

  predicate ReceiptConsistent(r: Rollout) {
    var consistent :=
      r.direct.Some? ==>
        && ReceiptAnswers(r.direct.value, r.intent)
        && (r.Last().Some? && r.Last().value.decision.Some? ==>
              DirectAllows(r.direct.value, r.Last().value, r.Last().value.decision.value))
        && (forall a :: a in r.attempts && a.decision.Some? ==> !Contradicts(r.direct.value, a));
    consistent
  }

  lemma RolloutIsAttempts(r: Rollout)
    ensures RolloutValid(r) <==>
              && |r.attempts| <= MAX_ATTEMPTS && AttemptsValid(r.attempts)
              && ResolvedBefore(r.attempts, |r.attempts|) && ReceiptConsistent(r)
  {
  }

  method CheckRollout(r: Rollout) returns (ok: bool)
    ensures ok <==> RolloutValid(r)
  {
    RolloutIsAttempts(r);
    if |r.attempts| > MAX_ATTEMPTS { return false; }
    ok := CheckAttempts(r.attempts);
    ok := ok && ReceiptConsistent(r);
  }

  // --------------------------------------------------- identities across rollouts

  /** Every query attempt of the journal, in order. */
  function Flat(records: seq<Rollout>): seq<Attempt> {
    if records == [] then [] else Flat(records[..|records| - 1]) + records[|records| - 1].attempts
  }

  function Offset(records: seq<Rollout>, r: nat): nat
    requires r <= |records|
  {
    |Flat(records[..r])|
  }

  lemma {:induction false} FlatAt(records: seq<Rollout>, r: nat, i: nat)
    requires HasAttempt(records, r, i)
    ensures Offset(records, r) + i < |Flat(records)| && Flat(records)[Offset(records, r) + i] == AttemptAt(records, r, i)
  {
    var rest := records[..|records| - 1];
    assert rest[..if r < |rest| then r else |rest|] == records[..r];
    if r < |rest| { FlatAt(rest, r, i); }
  }

  lemma {:induction false} FlatFrom(records: seq<Rollout>, p: nat) returns (r: nat, i: nat)
    requires p < |Flat(records)|
    ensures HasAttempt(records, r, i) && Offset(records, r) + i == p
  {
    var rest := records[..|records| - 1];
    if p < |Flat(rest)| {
      r, i := FlatFrom(rest, p);
      assert rest[..r] == records[..r];
    } else {
      r, i := |rest|, p - |Flat(rest)|;
    }
  }

  lemma {:induction false} OffsetsRise(records: seq<Rollout>, r: nat, q: nat)
    requires r < q <= |records|
    ensures Offset(records, r) + |records[r].attempts| <= Offset(records, q)
  {
    var init := records[..q];
    assert init[..q - 1] == records[..q - 1] && init[q - 1] == records[q - 1];
    if r < q - 1 { OffsetsRise(records, r, q - 1); }
  }

  ghost predicate AllDistinct(attempts: seq<Attempt>) {
    forall i, j :: 0 <= i < j < |attempts| ==> !SameQuery(attempts[i].prepared.request, attempts[j].prepared.request)
  }

  lemma DistinctQueriesFlat(records: seq<Rollout>)
    ensures DistinctQueries(records) <==> AllDistinct(Flat(records))
  {
    var flat := Flat(records);
    if DistinctQueries(records) {
      forall i, j | 0 <= i < j < |flat| ensures !SameQuery(flat[i].prepared.request, flat[j].prepared.request) {
        var r, k := FlatFrom(records, i);
        var q, l := FlatFrom(records, j);
        FlatAt(records, r, k);
        FlatAt(records, q, l);
      }
    }
    if AllDistinct(flat) {
      forall r: nat, i: nat, q: nat, j: nat | HasAttempt(records, r, i) && HasAttempt(records, q, j) && (r != q || i != j)
        ensures !SameQuery(AttemptAt(records, r, i).prepared.request, AttemptAt(records, q, j).prepared.request)
      {
        FlatAt(records, r, i);
        FlatAt(records, q, j);
        if r < q { OffsetsRise(records, r, q); } else if q < r { OffsetsRise(records, q, r); }
        var p, p' := Offset(records, r) + i, Offset(records, q) + j;
        assert p != p' && (p < p' ==> !SameQuery(flat[p].prepared.request, flat[p'].prepared.request));
      }
    }
  }

  function Sequences(attempts: seq<Attempt>): set<nat> {
    set a | a in attempts && a.observation.Some? :: a.observation.value.Sequence()
  }

  function MaxSequence(attempts: seq<Attempt>): (m: nat)
    ensures forall n :: n in Sequences(attempts) ==> n <= m
    ensures m == 0 || m in Sequences(attempts)
  {
    if attempts == [] then 0
    else
      var rest, a := attempts[..|attempts| - 1], attempts[|attempts| - 1];
      assert attempts == rest + [a];
      assert Sequences(attempts) ==
             Sequences(rest) + (if a.observation.Some? then {a.observation.value.Sequence()} else {});
      var m := MaxSequence(rest);
      if a.observation.Some? && a.observation.value.Sequence() > m then a.observation.value.Sequence() else m
  }

  lemma ObservedFlat(records: seq<Rollout>, n: nat)
    ensures n in Sequences(Flat(records)) <==> exists r: nat, i: nat :: ObservedAt(records, r, i, n)
  {
    var flat := Flat(records);
    if n in Sequences(flat) {
      var a :| a in flat && a.observation.Some? && a.observation.value.Sequence() == n;
      var p :| 0 <= p < |flat| && flat[p] == a;
      var r, i := FlatFrom(records, p);
      FlatAt(records, r, i);
      assert ObservedAt(records, r, i, n);
    }
    if r: nat, i: nat :| ObservedAt(records, r, i, n) {
      FlatAt(records, r, i);
      assert AttemptAt(records, r, i) in flat;
    }
  }

  lemma HighWaterFlat(records: seq<Rollout>, high: nat)
    ensures HighWater(records, high) <==> high == MaxSequence(Flat(records))
  {
    var flat := Flat(records);
    if HighWater(records, high) {
      forall n | n in Sequences(flat) ensures n <= high { ObservedFlat(records, n); }
      if high != 0 { ObservedFlat(records, high); }
    }
    if high == MaxSequence(flat) {
      forall r: nat, i: nat, n: nat | ObservedAt(records, r, i, n) ensures n <= high { ObservedFlat(records, n); }
      if high != 0 { ObservedFlat(records, high); }
    }
  }

  /** The sets and the maximum the pass carries from rollout to rollout. */
  datatype Seen = Seen(ids: set<Id>, digests: set<Digest>, nonces: set<Bytes>, maximum: nat)

  ghost predicate SeenTracks(seen: Seen, flat: seq<Attempt>) {
    var tracks :=
      && seen.ids == (set a | a in flat :: a.prepared.request.id)
      && seen.digests == (set a | a in flat :: a.prepared.request.digest)
      && seen.nonces == (set a | a in flat :: a.prepared.request.nonce)
      && seen.maximum == MaxSequence(flat)
      && AllDistinct(flat);
    tracks
  }

  predicate Taken(seen: Seen, q: QueryRequest) { q.id in seen.ids || q.digest in seen.digests || q.nonce in seen.nonces }

  function Note(seen: Seen, a: Attempt): Seen {
    var q := a.prepared.request;
    Seen(seen.ids + {q.id}, seen.digests + {q.digest}, seen.nonces + {q.nonce},
         if a.observation.Some? && a.observation.value.Sequence() > seen.maximum
         then a.observation.value.Sequence() else seen.maximum)
  }

  lemma NoteTracks(seen: Seen, flat: seq<Attempt>, a: Attempt)
    requires SeenTracks(seen, flat)
    ensures if Taken(seen, a.prepared.request) then !AllDistinct(flat + [a]) else SeenTracks(Note(seen, a), flat + [a])
  {
    var flat' := flat + [a];
    assert flat'[|flat|] == a && flat'[..|flat|] == flat;
    assert forall x :: x in flat' <==> x in flat || x == a;
    if Taken(seen, a.prepared.request) {
      var b :| b in flat && SameQuery(b.prepared.request, a.prepared.request);
      var k :| 0 <= k < |flat| && flat[k] == b;
      assert flat'[k] == b;
    } else {
      forall k | 0 <= k < |flat| ensures !SameQuery(flat[k].prepared.request, a.prepared.request) {
        assert flat[k] in flat;
      }
    }
  }

  lemma DistinctPrefix(flat: seq<Attempt>, more: seq<Attempt>)
    requires AllDistinct(flat + more)
    ensures AllDistinct(flat)
  {
    var all := flat + more;
    forall k | 0 <= k < |flat| ensures all[k] == flat[k] { }
  }

  lemma LineageStep(seen: Seen, before: seq<Attempt>, attempts: seq<Attempt>, i: nat)
    requires i < |attempts| && SeenTracks(seen, before + attempts[..i])
    ensures if Taken(seen, attempts[i].prepared.request) then !AllDistinct(before + attempts)
            else SeenTracks(Note(seen, attempts[i]), before + attempts[..i + 1])
  {
    var flat := before + attempts[..i];
    assert flat + [attempts[i]] == before + attempts[..i + 1];
    assert before + attempts == (flat + [attempts[i]]) + attempts[i + 1..];
    NoteTracks(seen, flat, attempts[i]);
    if AllDistinct(before + attempts) { DistinctPrefix(flat + [attempts[i]], attempts[i + 1..]); }
  }

  ghost predicate LineageBetween(r: Rollout, i: nat, j: nat, b: Binding, scope: Id) {
    forall k :: i <= k < j && k < |r.attempts| ==> AttemptLineage(r, k, b, scope)
  }

  lemma LineageTurn(r: Rollout, i: nat, b: Binding, scope: Id)
    requires i < |r.attempts| && LineageBetween(r, 0, i, b, scope)
    ensures LineageBetween(r, i, i + 1, b, scope) <==> LineageBetween(r, 0, i + 1, b, scope)
    ensures Lineage(r, b, scope) ==> LineageBetween(r, i, i + 1, b, scope)
  {
  }

  method CheckAttemptLineage(r: Rollout, i: nat, b: Binding, scope: Id) returns (ok: bool)
    requires i < |r.attempts|
    ensures ok <==> LineageBetween(r, i, i + 1, b, scope)
  {
    ok := AttemptLineage(r, i, b, scope);
  }

  /** One rollout's queries: each in lineage, none known before. `before` are the
      attempts of the rollouts already passed. */
  method CheckLineage(r: Rollout, b: Binding, scope: Id, seen: Seen, ghost before: seq<Attempt>)
    returns (ok: bool, seen': Seen)
    requires SeenTracks(seen, before)
    ensures ok <==> Lineage(r, b, scope) && AllDistinct(before + r.attempts)
    ensures ok ==> SeenTracks(seen', before + r.attempts)
  {
    seen' := seen;
    assert before + r.attempts[..0] == before;
    for i := 0 to |r.attempts|
      invariant SeenTracks(seen', before + r.attempts[..i]) && LineageBetween(r, 0, i, b, scope)
    {
      LineageStep(seen', before, r.attempts, i);
      LineageTurn(r, i, b, scope);
      ok := CheckAttemptLineage(r, i, b, scope);
      if !ok || Taken(seen', r.attempts[i].prepared.request) { return false, seen'; }
      seen' := Note(seen', r.attempts[i]);
    }
    assert r.attempts[..|r.attempts|] == r.attempts;
    ok := true;
  }

  method CheckArchived(r: Rollout, revision: nat, scope: Id, lineage: Id, target: Id, b: Option<Binding>, current: nat,
                       seen: Seen, ghost before: seq<Attempt>)
    returns (ok: bool, seen': Seen)
    requires SeenTracks(seen, before)
    ensures ok <==> ArchivedFits(r, revision, scope, lineage, target, b, current) && AllDistinct(before + r.attempts)
    ensures ok ==> SeenTracks(seen', before + r.attempts)
  {
    seen' := seen;
    ok := CheckRollout(r);
    if !ok || Conflicted(r) || !IsTerminal(r) || !IntentBound(r.intent, target, b) { return false, seen; }
    ok, seen' := CheckLineage(r, b.value, scope, seen, before);
    ok := ok && 0 < revision < current && Context(r, scope, lineage, revision, None);
  }

  method CheckCurrent(r: Rollout, plan: Option<Plan>, scope: Id, lineage: Id, target: Id, b: Option<Binding>,
                      seen: Seen, ghost before: seq<Attempt>)
    returns (ok: bool, seen': Seen)
    requires SeenTracks(seen, before)
    ensures ok <==> CurrentFits(r, plan, scope, lineage, target, b) && AllDistinct(before + r.attempts)
    ensures ok ==> SeenTracks(seen', before + r.attempts)
  {
    seen' := seen;
    ok := CheckRollout(r);
    if !ok || plan.None? || !IntentBound(r.intent, target, b) { return false, seen; }
    ok, seen' := CheckLineage(r, b.value, scope, seen, before);
    ok := && ok && Context(r, scope, lineage, plan.value.revision, Some(plan.value.content.shape))
          && r.intent.planDigest == plan.value.planDigest
          && r.intent.target == plan.value.target
          && r.intent.manifest == plan.value.content.manifest;
  }

  // ------------------------------------------------------------------ whole archive

  function HistoryRevision(s: State, k: nat): nat
    requires k < |s.history|
  {
    RevisionOf(s.operations, s.history[k].intent.planDigest)
  }

  ghost predicate ArchivedAtFits(s: State, k: nat)
    requires k < |s.history|
  {
    && ArchivedFits(s.history[k], HistoryRevision(s, k), s.scope, s.lineage, s.allocation.target, s.binding, s.Revision())
    && (k > 0 ==> HistoryRevision(s, k - 1) < HistoryRevision(s, k))
  }

  ghost predicate ArchiveUpTo(s: State, k: nat) {
    forall i :: 0 <= i < k && i < |s.history| ==> ArchivedAtFits(s, i)
  }

  lemma {:induction false} RevisionsSorted(s: State, j: nat, k: nat)
    requires ArchiveUpTo(s, |s.history|) && j < k < |s.history|
    ensures HistoryRevision(s, j) < HistoryRevision(s, k)
    decreases k
  {
    assert ArchivedAtFits(s, k);
    if j < k - 1 { RevisionsSorted(s, j, k - 1); }
  }

  /** Comparing neighbours is enough to order the whole archive. */
  lemma ArchiveIsHistory(s: State)
    ensures ArchiveUpTo(s, |s.history|) <==>
              HistoryFits(s.history, s.operations, s.scope, s.lineage, s.allocation.target, s.binding, s.Revision())
  {
    if ArchiveUpTo(s, |s.history|) {
      forall k | 0 <= k < |s.history|
        ensures ArchivedFits(s.history[k], RevisionOf(s.operations, s.history[k].intent.planDigest), s.scope, s.lineage,
                             s.allocation.target, s.binding, s.Revision())
      {
        assert ArchivedAtFits(s, k);
      }
      forall j, k | 0 <= j < k < |s.history|
        ensures RevisionOf(s.operations, s.history[j].intent.planDigest)
                < RevisionOf(s.operations, s.history[k].intent.planDigest)
      {
        RevisionsSorted(s, j, k);
      }
    }
    if HistoryFits(s.history, s.operations, s.scope, s.lineage, s.allocation.target, s.binding, s.Revision()) {
      forall k | 0 <= k < |s.history| ensures ArchivedAtFits(s, k) { }
    }
  }

  // ---------------------------------------------------------------- apply identities

  ghost predicate AppliesTracked(records: seq<Rollout>, operations: set<Id>, digests: set<Digest>) {
    var tracked :=
      && operations == (set r | r in records :: r.intent.operation)
      && digests == (set r | r in records :: r.intent.digest)
      && DistinctApplies(records);
    tracked
  }

  lemma AppliesStep(records: seq<Rollout>, k: nat, operations: set<Id>, digests: set<Digest>)
    requires k < |records| && AppliesTracked(records[..k], operations, digests)
    ensures var i := records[k].intent;
            if i.operation in operations || i.digest in digests then !DistinctApplies(records)
            else AppliesTracked(records[..k + 1], operations + {i.operation}, digests + {i.digest})
  {
    var i, before := records[k].intent, records[..k];
    assert records[..k + 1] == before + [records[k]];
    assert forall r :: r in records[..k + 1] <==> r in before || r == records[k];
    if i.operation in operations || i.digest in digests {
      var r :| r in before && (r.intent.operation == i.operation || r.intent.digest == i.digest);
      var j :| 0 <= j < k && before[j] == r;
      assert records[j] == r;
    } else {
      forall j | 0 <= j < k ensures records[j].intent.operation != i.operation && records[j].intent.digest != i.digest {
        assert before[j] in before;
      }
    }
  }

  lemma FlatStep(records: seq<Rollout>, k: nat)
    requires k < |records|
    ensures Flat(records[..k + 1]) == Flat(records[..k]) + records[k].attempts
  {
    assert records[..k + 1][..k] == records[..k];
  }

  lemma {:induction false} FlatPrefix(records: seq<Rollout>, k: nat)
    requires k <= |records| && AllDistinct(Flat(records))
    ensures AllDistinct(Flat(records[..k]))
  {
    if k < |records| {
      var rest := records[..|records| - 1];
      DistinctPrefix(Flat(rest), records[|records| - 1].attempts);
      FlatPrefix(rest, k);
      assert rest[..k] == records[..k];
    } else {
      assert records[..k] == records;
    }
  }

  ghost predicate EvidenceSound(s: State) { EvidenceValid(s) && IdentitiesValid(s.Records(), s.highWater) }

  lemma EvidenceParts(s: State)
    ensures EvidenceSound(s) <==>
              && ArchiveUpTo(s, |s.history|)
              && (s.rollout.Some? ==>
                    CurrentFits(s.rollout.value, s.plan, s.scope, s.lineage, s.allocation.target, s.binding))
              && DistinctApplies(s.Records())
              && AllDistinct(Flat(s.Records()))
              && s.highWater == MaxSequence(Flat(s.Records()))
  {
    ArchiveIsHistory(s);
    DistinctQueriesFlat(s.Records());
    HighWaterFlat(s.Records(), s.highWater);
  }

  /** What is known after `k` of the retained rollouts. */
  ghost predicate Passed(s: State, k: nat, seen: Seen, operations: set<Id>, digests: set<Digest>)
    requires k <= |s.Records()|
  {
    var passed :=
      && ArchiveUpTo(s, k)
      && AppliesTracked(s.Records()[..k], operations, digests)
      && SeenTracks(seen, Flat(s.Records()[..k]));
    passed
  }

  /** A rollout whose queries repeat an earlier identity spoils the journal. */
  lemma RepeatedQuery(records: seq<Rollout>, k: nat)
    requires k < |records| && !AllDistinct(Flat(records[..k]) + records[k].attempts)
    ensures !AllDistinct(Flat(records))
  {
    FlatStep(records, k);
    if AllDistinct(Flat(records)) { FlatPrefix(records, k + 1); }
  }

  lemma RecordPassed(s: State, k: nat, seen: Seen, operations: set<Id>, digests: set<Digest>, seen': Seen)
    requires k < |s.Records()| && Passed(s, k, seen, operations, digests)
    requires k < |s.history| ==> ArchivedAtFits(s, k)
    requires SeenTracks(seen', Flat(s.Records()[..k]) + s.Records()[k].attempts)
    ensures var i := s.Records()[k].intent;
            if i.operation in operations || i.digest in digests then !DistinctApplies(s.Records())
            else Passed(s, k + 1, seen', operations + {i.operation}, digests + {i.digest})
  {
    FlatStep(s.Records(), k);
    AppliesStep(s.Records(), k, operations, digests);
  }

  method CheckHistory(s: State) returns (ok: bool, seen: Seen, operations: set<Id>, digests: set<Digest>)
    ensures !ok ==> !EvidenceSound(s)
    ensures ok ==> Passed(s, |s.history|, seen, operations, digests)
  {
    EvidenceParts(s);
    ok, seen, operations, digests := true, Seen({}, {}, {}, 0), {}, {};
    ghost var records := s.Records();
    for k := 0 to |s.history|
      invariant Passed(s, k, seen, operations, digests)
    {
      var r, revision := s.history[k], HistoryRevision(s, k);
      assert records[k] == r;
      var fits, seen' := CheckArchived(r, revision, s.scope, s.lineage, s.allocation.target, s.binding, s.Revision(),
                                       seen, Flat(records[..k]));
      if !fits || (k > 0 && HistoryRevision(s, k - 1) >= revision) {
        if !AllDistinct(Flat(records[..k]) + r.attempts) { RepeatedQuery(records, k); }
        else { assert !ArchivedAtFits(s, k); }
        return false, seen, operations, digests;
      }
      RecordPassed(s, k, seen, operations, digests, seen');
      if r.intent.operation in operations || r.intent.digest in digests { return false, seen, operations, digests; }
      seen, operations, digests := seen', operations + {r.intent.operation}, digests + {r.intent.digest};
    }
    ok := true;
  }

  lemma AllPassed(s: State, seen: Seen, operations: set<Id>, digests: set<Digest>)
    requires Passed(s, |s.Records()|, seen, operations, digests)
    requires s.rollout.Some? ==>
               CurrentFits(s.rollout.value, s.plan, s.scope, s.lineage, s.allocation.target, s.binding)
    ensures EvidenceSound(s) <==> s.highWater == seen.maximum
  {
    EvidenceParts(s);
    assert s.Records()[..|s.Records()|] == s.Records();
  }

  /** The pass over archive and current rollout decides exactly the evidence and
      identity conditions. */
  method CheckEvidence(s: State) returns (ok: bool)
    ensures ok <==> EvidenceSound(s)
  {
    var seen, operations, digests;
    ok, seen, operations, digests := CheckHistory(s);
    if !ok { return; }
    if s.rollout.Some? {
      EvidenceParts(s);
      var r := s.rollout.value;
      ghost var records, k := s.Records(), |s.history|;
      assert records[k] == r;
      var fits, seen' := CheckCurrent(r, s.plan, s.scope, s.lineage, s.allocation.target, s.binding, seen,
                                      Flat(records[..k]));
      if !fits {
        if !AllDistinct(Flat(records[..k]) + r.attempts) { RepeatedQuery(records, k); }
        return false;
      }
      RecordPassed(s, k, seen, operations, digests, seen');
      if r.intent.operation in operations || r.intent.digest in digests { return false; }
      seen := seen';
      operations, digests := operations + {r.intent.operation}, digests + {r.intent.digest};
    }
    AllPassed(s, seen, operations, digests);
    ok := s.highWater == seen.maximum;
  }
}
