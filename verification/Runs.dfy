/**
 Whole histories of one journal: chains of states the store accepts, and runs of
 mutators, which are such chains.
 */
module Runs {
  import opened Types
  import opened Tables
  import opened Operations
  import Tenures
  import opened Rollouts
  import opened Journal
  import opened Revalidation
  import opened Successors

  // ---------------------------------------------------------------------- one step

  lemma CommitsKept(ops: seq<Operation>, was: seq<Operation>, revision: nat)
    requires OperationsSuccessor(ops, was, revision)
    ensures Committed(was) <= Committed(ops)
  {
    forall o | o in Committed(was) ensures o in Committed(ops) {
      var k := Find(ops, OpKey, o.id);
      assert RowFollows(ops[k.value], o);
      assert ops[k.value] in ops;
    }
  }

  function RevisionKey(ops: seq<Operation>): Rollout -> nat { (r: Rollout) => RevisionOf(ops, r.intent.planDigest) }

  /** The retained rollouts are ordered by plan revision, in this ledger and in
      any that grew out of it. */
  lemma RecordsByRevision(s: State, ops: seq<Operation>, revision: nat, generation: nat)
    requires LedgerValid(s) && EvidenceValid(s)
    requires OperationsValid(ops, revision, generation) && Committed(s.operations) <= Committed(ops)
    ensures SortedBy(s.Records(), RevisionKey(ops))
    ensures forall r :: r in s.Records() ==> 0 < RevisionOf(ops, r.intent.planDigest) <= s.Revision()
    ensures s.rollout.Some? ==> RevisionOf(ops, s.rollout.value.intent.planDigest) == s.Revision()
  {
    var records := s.Records();
    forall k | 0 <= k < |s.history|
      ensures RevisionOf(ops, s.history[k].intent.planDigest) == RevisionOf(s.operations, s.history[k].intent.planDigest)
      ensures 0 < RevisionOf(s.operations, s.history[k].intent.planDigest) < s.Revision()
    {
      assert ArchivedFits(s.history[k], RevisionOf(s.operations, s.history[k].intent.planDigest), s.scope, s.lineage,
                          s.allocation.target, s.binding, s.Revision());
      RevisionOfKept(s.operations, s.Revision(), s.allocation.generation, ops, revision, generation,
                     s.history[k].intent.planDigest);
    }
    if s.rollout.Some? { RevisionOfPlan(s, ops, revision, generation); }
    forall k | 0 <= k < |s.history| ensures records[k] == s.history[k] { }
  }

  lemma ArchiveContains(n: State, s: State)
    requires HistorySuccessor(n, s) && PlanChanged(n, s)
    ensures n.rollout.None? && n.Records() == n.history && |n.history| == |s.Records()|
    ensures forall r :: r in s.Records() ==> r in n.history
  {
    forall r | r in s.Records() ensures r in n.history {
      assert Retains(n.history, r);
    }
  }

  /** The store's rule only asks that archived rollouts be retained somewhere;
      validity pins the rest: a plan commit appends exactly the current rollout. */
  lemma ArchiveExact(n: State, s: State)
    requires LedgerValid(s) && EvidenceValid(s) && LedgerValid(n) && EvidenceValid(n)
    requires HistorySuccessor(n, s) && PlanChanged(n, s)
    requires OperationsSuccessor(n.operations, s.operations, s.Revision())
    ensures n.history == s.Records() && n.rollout.None?
  {
    CommitsKept(n.operations, s.operations, s.Revision());
    RecordsByRevision(s, n.operations, n.Revision(), n.allocation.generation);
    RecordsByRevision(n, n.operations, n.Revision(), n.allocation.generation);
    ArchiveContains(n, s);
    SortedSame(s.Records(), n.history, RevisionKey(n.operations));
  }

  /** What one accepted step does to plan, rollouts, binding and tenures: either
      it commits a plan and archives the current rollout behind the gate, or it
      keeps plan and archive and extends the current rollout's evidence. */
  predicate Evolves(n: State, s: State) {
    var evolves :=
      && n.scope == s.scope && n.lineage == s.lineage && n.manifest == s.manifest
      && Tenures.TenuresSuccessor(n.tenures, s.tenures)
      && BindingsSuccessor(n.binding, s.binding)
      && Committed(s.operations) <= Committed(n.operations)
      && RolloutSuccessor(n, s)
      && (if PlanChanged(n, s)
          then && n.Revision() == s.Revision() + 1 && n.history == s.Records() && n.rollout.None?
               && (s.rollout.Some? ==>
                     n.binding.Some? && PermitsAdvance(s.rollout.value, n.binding.value) == Ok(true))
          else n.plan == s.plan && n.history == s.history);
    evolves
  }

  lemma FollowsEvolves(n: State, s: State)
    requires LedgerValid(s) && EvidenceValid(s) && LedgerValid(n) && EvidenceValid(n) && Follows(n, s)
    ensures Evolves(n, s)
  {
    CommitsKept(n.operations, s.operations, s.Revision());
    if PlanChanged(n, s) { ArchiveExact(n, s); }
  }

  lemma StepEvolves(n: State, s: State)
    requires Valid(s) && Successor(n, s)
    ensures Evolves(n, s)
  {
    FollowsEvolves(n, s);
  }

  // ------------------------------------------------------------------------ chains

  /** Each element is related to the one before it. */
  ghost predicate Linked<T>(c: seq<T>, follows: (T, T) -> bool) {
    forall i :: 0 <= i < |c| - 1 ==> LinkedAt(c, follows, i)
  }

  ghost predicate LinkedAt<T>(c: seq<T>, follows: (T, T) -> bool, i: nat)
    requires i + 1 < |c|
  {
    follows(c[i + 1], c[i])
  }

  ghost predicate ValidAt(c: seq<State>, i: nat)
    requires i < |c|
  {
    Valid(c[i])
  }

  /** Valid states, each accepted by the store after the one before it. */
  ghost predicate Chain(c: seq<State>) {
    var chain := c != [] && (forall i :: 0 <= i < |c| ==> ValidAt(c, i)) && Linked(c, Successor);
    chain
  }

  /** The store accepts `n` after `s`. */
  ghost predicate Accepts(s: State, n: State) { Linked([s, n], Successor) }

  lemma AcceptsSuccessors(s: State, n: State)
    ensures Accepts(s, n) <==> Successor(n, s)
  {
    var c := [s, n];
    if Linked(c, Successor) { assert LinkedAt(c, Successor, 0); }
    if Successor(n, s) {
      forall i | 0 <= i < |c| - 1 ensures LinkedAt(c, Successor, i) { }
    }
  }

  lemma LinkedExtended<T>(c: seq<T>, follows: (T, T) -> bool, x: T)
    requires c != [] && Linked(c, follows) && follows(x, c[|c| - 1])
    ensures Linked(c + [x], follows)
  {
    var c' := c + [x];
    forall i | 0 <= i < |c'| - 1 ensures LinkedAt(c', follows, i) {
      if i + 1 < |c| { assert LinkedAt(c, follows, i); }
    }
  }

  /** A chain can start at any valid state and go on with any successor. */
  lemma ChainStarts(s: State)
    requires Valid(s)
    ensures Chain([s])
  {
    assert ValidAt([s], 0);
  }

  lemma SuccessorValid(n: State, s: State)
    requires Successor(n, s)
    ensures Valid(n)
  {
  }

  lemma ChainExtended(c: seq<State>, n: State)
    requires Chain(c) && Accepts(c[|c| - 1], n)
    ensures Chain(c + [n])
  {
    AcceptsSuccessors(c[|c| - 1], n);
    LinkedExtended(c, Successor, n);
    SuccessorValid(n, c[|c| - 1]);
    forall i | 0 <= i < |c| + 1 ensures ValidAt(c + [n], i) {
      if i < |c| { assert ValidAt(c, i); }
    }
  }

  lemma ChainStep(c: seq<State>, i: nat)
    requires Chain(c) && i + 1 < |c|
    ensures Successor(c[i + 1], c[i])
  {
    assert LinkedAt(c, Successor, i);
  }

  lemma ChainValid(c: seq<State>, i: nat)
    requires Chain(c) && i < |c|
    ensures Valid(c[i])
  {
    assert ValidAt(c, i);
  }

  lemma ChainEvolves(c: seq<State>, i: nat)
    requires Chain(c) && i + 1 < |c|
    ensures Evolves(c[i + 1], c[i])
  {
    ChainValid(c, i);
    ChainStep(c, i);
    StepEvolves(c[i + 1], c[i]);
  }

  /** The current rollout of every state is internally valid. */
  lemma ChainRollout(c: seq<State>, i: nat)
    requires Chain(c) && i < |c|
    ensures c[i].rollout.Some? ==> RolloutValid(c[i].rollout.value)
  {
    ChainValid(c, i);
    MovedRolloutValid(c[i]);
  }

  // ------------------------------------------------------------- conflicts are final

  /** Contradicting evidence freezes the rollout and blocks the next plan. */
  lemma ConflictStep(n: State, s: State)
    requires Evolves(n, s) && s.rollout.Some? && RolloutValid(s.rollout.value) && Conflicted(s.rollout.value)
    ensures n.rollout == s.rollout && n.plan == s.plan && n.history == s.history
  {
    var r := s.rollout.value;
    ConflictIsLastAndUndecided(r);
    assert !PlanChanged(n, s);
    var r' := n.rollout.value;
    if r'.attempts != [] { assert r'.attempts[|r'.attempts| - 1] in r'.attempts; }
  }

  lemma ChainConflictStep(c: seq<State>, i: nat, r: Rollout)
    requires Chain(c) && i + 1 < |c| && c[i].rollout == Some(r) && Conflicted(r)
    ensures c[i + 1].rollout == Some(r) && c[i + 1].plan == c[i].plan && c[i + 1].history == c[i].history
  {
    ChainEvolves(c, i);
    ChainRollout(c, i);
    ConflictStep(c[i + 1], c[i]);
  }

  /** Over any continuation of any length, through any mutators, the rollout, the
      plan and the archive stay as they are. */
  lemma {:induction false} ConflictAbsorbing(c: seq<State>, i: nat, j: nat, r: Rollout)
    requires Chain(c) && i <= j < |c| && c[i].rollout == Some(r) && Conflicted(r)
    ensures c[j].rollout == Some(r) && c[j].plan == c[i].plan && c[j].history == c[i].history
    decreases j
  {
    if i < j {
      var k: nat := j - 1;
      ConflictAbsorbing(c, i, k, r);
      ChainConflictStep(c, k, r);
    }
  }

  // ------------------------------------------------------------------------ the gate

  /** Step `i` of the chain archived `r`, settled in the epoch of that moment. */
  ghost predicate ArchivedAt(c: seq<State>, i: nat, r: Rollout) {
    && i + 1 < |c|
    && c[i].rollout == Some(r) && PlanChanged(c[i + 1], c[i])
    && c[i + 1].binding.Some? && SettledNow(r, c[i + 1].binding.value) && Settled(r)
    && (forall a :: a in r.attempts ==> a.Resolved())
  }

  lemma ArchiveStep(n: State, s: State, r: Rollout)
    requires Evolves(n, s) && r in n.history && r !in s.history
    requires s.rollout.Some? ==> RolloutValid(s.rollout.value)
    ensures s.rollout == Some(r) && PlanChanged(n, s)
    ensures n.binding.Some? && SettledNow(r, n.binding.value) && Settled(r)
    ensures forall a :: a in r.attempts ==> a.Resolved()
  {
    GateSettles(s.rollout.value, n.binding.value);
    GateResolves(s.rollout.value, n.binding.value);
  }

  /** Every rollout archived along a chain passed the plan-advance gate. */
  lemma {:induction false} EveryArchiveWasSettled(c: seq<State>, j: nat, r: Rollout)
    requires Chain(c) && j < |c| && r in c[j].history
    ensures r in c[0].history || exists i :: 0 <= i < j && ArchivedAt(c, i, r)
  {
    if j > 0 {
      var k: nat := j - 1;
      ChainEvolves(c, k);
      if r in c[k].history {
        EveryArchiveWasSettled(c, k, r);
      } else {
        ChainRollout(c, k);
        ArchiveStep(c[k + 1], c[k], r);
        assert ArchivedAt(c, k, r);
      }
    }
  }

  // --------------------------------------------------------- compare-and-swap chain

  /** What a freshly built apply request must expect the Runtime to hold. */
  function ExpectedActive(s: State): Option<Digest> {
    if s.history == [] then None else TerminalSlice(s.history[|s.history| - 1])
  }

  lemma ArchivedContext(s: State, k: nat)
    requires EvidenceValid(s) && k < |s.history|
    ensures RolloutValid(s.history[k]) && !Conflicted(s.history[k])
    ensures exists revision :: Context(s.history[k], s.scope, s.lineage, revision, None)
  {
    var revision := RevisionOf(s.operations, s.history[k].intent.planDigest);
    assert ArchivedFits(s.history[k], revision, s.scope, s.lineage, s.allocation.target, s.binding, s.Revision());
    assert Context(s.history[k], s.scope, s.lineage, revision, None);
  }

  /** In any valid state, the expectation is the last archived slice exactly when
      that rollout was settled. */
  lemma ExpectationOfSettled(s: State)
    requires EvidenceValid(s) && s.history != []
    ensures var last := s.history[|s.history| - 1];
            ExpectedActive(s) == (if Settled(last) then Some(last.intent.slice) else None)
  {
    var k := |s.history| - 1;
    ArchivedContext(s, k);
    var revision :| Context(s.history[k], s.scope, s.lineage, revision, None);
    TerminalSliceIsIntentSlice(s.history[k], s.scope, s.lineage, revision, None);
  }

  lemma ExpectationOfState(s: State)
    requires Valid(s) && s.history != [] && Settled(s.history[|s.history| - 1])
    ensures ExpectedActive(s) == Some(s.history[|s.history| - 1].intent.slice)
  {
    ExpectationOfSettled(s);
  }

  /** From an empty archive on, each new apply expects exactly the slice of the
      apply archived before it, and nothing only when there is none. */
  lemma CompareAndSwapChain(c: seq<State>, j: nat)
    requires Chain(c) && j < |c| && c[0].history == []
    ensures ExpectedActive(c[j]) ==
              (if c[j].history == [] then None else Some(c[j].history[|c[j].history| - 1].intent.slice))
  {
    if c[j].history != [] {
      var last := c[j].history[|c[j].history| - 1];
      EveryArchiveWasSettled(c, j, last);
      var i :| 0 <= i < j && ArchivedAt(c, i, last);
      ChainValid(c, j);
      ExpectationOfState(c[j]);
    }
  }

  // ------------------------------------------------------ one apply per plan revision

  lemma RevisionStep(n: State, s: State)
    requires Evolves(n, s)
    ensures s.Revision() <= n.Revision()
    ensures n.Revision() == s.Revision() && s.rollout.Some? ==>
              n.rollout.Some? && n.rollout.value.intent == s.rollout.value.intent
  {
  }

  lemma {:induction false} RevisionsRise(c: seq<State>, i: nat, j: nat)
    requires Chain(c) && i <= j < |c|
    ensures c[i].Revision() <= c[j].Revision()
    decreases j
  {
    if i < j {
      var k: nat := j - 1;
      RevisionsRise(c, i, k);
      ChainEvolves(c, k);
      RevisionStep(c[k + 1], c[k]);
    }
  }

  /** One plan revision has at most one durable apply intent, with one request. */
  lemma {:induction false} OneIntentPerRevision(c: seq<State>, i: nat, j: nat)
    requires Chain(c) && i <= j < |c| && c[i].rollout.Some? && c[j].Revision() == c[i].Revision()
    ensures c[j].rollout.Some? && c[j].rollout.value.intent == c[i].rollout.value.intent
    decreases j
  {
    if i < j {
      var k: nat := j - 1;
      RevisionsRise(c, i, k);
      ChainEvolves(c, k);
      RevisionStep(c[k + 1], c[k]);
      OneIntentPerRevision(c, i, k);
    }
  }

  /** A terminal rollout stops being terminal only without a direct receipt, by a
      query prepared after the binding's epoch left its observation behind. */
  lemma TerminalLost(n: State, s: State)
    requires Evolves(n, s) && s.rollout.Some? && n.rollout.Some?
    requires IsTerminal(s.rollout.value) && !IsTerminal(n.rollout.value)
    ensures s.rollout.value.direct.None? && n.binding.Some?
    ensures var last := s.rollout.value.Last().value;
            && |n.rollout.value.attempts| == |s.rollout.value.attempts| + 1
            && last.observation.Some? && last.observation.value.Epoch() < n.binding.value.lastEpoch
  {
  }

  // -------------------------------------------------------------------------- fencing

  function TenureTables(c: seq<State>): seq<seq<Tenure>> { seq(|c|, i requires 0 <= i < |c| => c[i].tenures) }

  lemma ChainTenuresValid(c: seq<State>, i: nat)
    requires Chain(c) && i < |c|
    ensures Tenures.TenuresValidAt(TenureTables(c), i, c[0].scope)
  {
    ChainScope(c, i);
    ChainValid(c, i);
  }

  lemma ChainTenuresStep(c: seq<State>, i: nat)
    requires Chain(c) && i + 1 < |c|
    ensures Tenures.TenureStep(TenureTables(c), i)
  {
    ChainEvolves(c, i);
  }

  /** The tenure tables of a chain of states form a tenure chain, so everything
      proved there about fencing holds of whole journals. */
  lemma ChainOfTenures(c: seq<State>)
    requires Chain(c)
    ensures Tenures.TenureChain(TenureTables(c), c[0].scope)
  {
    forall i | 0 <= i < |c| ensures Tenures.TenuresValidAt(TenureTables(c), i, c[0].scope) {
      ChainTenuresValid(c, i);
    }
    forall i | 0 <= i < |c| - 1 ensures Tenures.TenureStep(TenureTables(c), i) {
      ChainTenuresStep(c, i);
    }
  }

  lemma {:induction false} ChainScope(c: seq<State>, i: nat)
    requires Chain(c) && i < |c|
    ensures c[i].scope == c[0].scope && c[i].lineage == c[0].lineage
  {
    if i > 0 {
      var k: nat := i - 1;
      ChainScope(c, k);
      ChainEvolves(c, k);
    }
  }

  /** At most one writer can act in any state, and a proof that has been
      superseded once can never be acted on again. */
  lemma FencedForever(c: seq<State>, i: nat, j: nat, t: Tenure, w: Id, w': Id)
    requires Chain(c) && i <= j < |c| && t in Tenures.Proven(c[i].tenures)
    ensures t in Tenures.Proven(c[j].tenures)
    ensures Tenures.Latest(c[i].tenures) != Some(t) ==>
              Tenures.LiveProof(c[j].tenures, w) != Some(t.response.value.proof)
    ensures Tenures.LiveProof(c[j].tenures, w).Some? && Tenures.LiveProof(c[j].tenures, w').Some? ==> w == w'
  {
    ChainOfTenures(c);
    var ts := TenureTables(c);
    Tenures.Fencing(ts, c[0].scope, i, j);
    Tenures.SupersededForever(ts, c[0].scope, i, j, t, w, w');
  }
}
