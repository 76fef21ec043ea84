/**
 The journal as it executes: validation as a whole, and one mutator call. Both are
 proved to compute the declarative `Valid` and `Apply`.
 */
module Mutators {
  import opened Types
  import opened Operations
  import Tenures
  import opened Allocations
  import opened Sizes
  import opened Journal
  import Validators
  import EvidenceChecks
  import opened Successors
  import Mutations
  import opened Outcomes

  // ---------------------------------------------------------------- predicted length

  method PredictRollout(r: Rollout) returns (n: nat)
    ensures n == RolloutLen(r)
  {
    n := 16 + 32 + 32 + 16 + 32 + 4 + |r.intent.request.bytes| + AUTH_PIN_BYTES + 32 + 32 + 32 + RUNTIME_AUTH_BYTES + 1 + 4;
    if r.direct.Some? { n := n + 4 + |r.direct.value.wire|; }
    ghost var base := n;
    for i := 0 to |r.attempts|
      invariant n == base + AttemptsLen(r.attempts[..i])
    {
      assert r.attempts[..i + 1][..i] == r.attempts[..i];
      n := n + AttemptLen(r.attempts[i]);
    }
    assert r.attempts[..|r.attempts|] == r.attempts;
  }

  method PredictTables(s: State) returns (n: nat)
    ensures n == OperationsLen(s.operations) + TenuresLen(s.tenures)
  {
    n := 0;
    for i := 0 to |s.operations|
      invariant n == OperationsLen(s.operations[..i])
    {
      assert s.operations[..i + 1][..i] == s.operations[..i];
      n := n + OperationLen(s.operations[i]);
    }
    assert s.operations[..|s.operations|] == s.operations;
    for i := 0 to |s.tenures|
      invariant n == OperationsLen(s.operations) + TenuresLen(s.tenures[..i])
    {
      assert s.tenures[..i + 1][..i] == s.tenures[..i];
      n := n + TenureLen(s.tenures[i]);
    }
    assert s.tenures[..|s.tenures|] == s.tenures;
  }

  method PredictHistory(history: seq<Rollout>) returns (n: nat)
    ensures n == RolloutsLen(history)
  {
    n := 0;
    for i := 0 to |history|
      invariant n == RolloutsLen(history[..i])
    {
      assert history[..i + 1][..i] == history[..i];
      var k := PredictRollout(history[i]);
      n := n + k;
    }
    assert history[..|history|] == history;
  }

  /** The accumulated prediction. */
  method PredictLength(s: State) returns (n: nat)
    ensures n == PayloadLen(s)
  {
    var tables := PredictTables(s);
    var archive := PredictHistory(s.history);
    n := 4 + 2 + 16 + 16 + 16 + 4 + |s.manifest.wire| + 32 + 8 + 8 + 4
         + |s.allocation.records| * (16 + 8 + 16 + 16 + 1) + PlanLen(s.plan) + 4 + 4 + tables
         + AUTH_PIN_BYTES + 8 + BindingLen(s.binding) + 1 + 4 + archive;
    if s.rollout.Some? {
      var current := PredictRollout(s.rollout.value);
      n := n + current;
    }
  }

  // ---------------------------------------------------------------------- validation

  /** Everything but the operations, in the order of the source. */
  predicate LedgerShape(s: State) {
    && AllocationValid(s.allocation)
    && s.allocation.target == s.manifest.target
    && Capacity(s)
    && (s.plan.Some? ==> PlanFits(s.plan.value, s.scope, s.lineage, s.allocation, s.manifest, s.operations))
    && (s.plan.None? ==> NothingCommitted(s.allocation, s.operations))
    && (s.binding.Some? ==> BindingFits(s.binding.value, s.allocation, s.manifest, s.plan))
  }

  lemma ValidParts(s: State)
    ensures Valid(s) <==>
              && LedgerShape(s) && OperationsValid(s.operations, s.Revision(), s.allocation.generation)
              && Tenures.TenuresValid(s.tenures, s.scope) && EvidenceChecks.EvidenceSound(s) && SizeFits(s)
  {
  }

  method Validate(s: State) returns (ok: bool)
    ensures ok <==> Valid(s)
  {
    ValidParts(s);
    if !LedgerShape(s) { return false; }
    ok := Validators.CheckOperations(s.operations, s.Revision(), s.allocation.generation);
    if !ok { return; }
    ok := Validators.CheckTenures(s.tenures, s.scope);
    if !ok { return; }
    ok := EvidenceChecks.CheckEvidence(s);
    if !ok { return; }
    var n := PredictLength(s);
    ok := HEADER_BYTES + n <= MAX_SNAPSHOT_BYTES;
  }

  /** One mutator call: on a valid state it ends with the intended result, if there is
      one, and with an error otherwise. */
  method Mutate(h: Hashes, s: State, c: Command) returns (r: Result<State>)
    ensures r == Apply(h, s, c)
    ensures Valid(s) ==> forall n :: r == Ok(n) <==> Intended(h, s, c, n)
  {
    var m := MoveOf(h, s, c);
    var valid := false;
    if m.Next? { valid := Validate(m.state); }
    r := Concluded(m, s, valid);
    ApplyIntended(h, s, c);
  }

  lemma ApplyIntended(h: Hashes, s: State, c: Command)
    ensures Valid(s) ==> forall n :: Apply(h, s, c) == Ok(n) <==> Intended(h, s, c, n)
  {
    if Valid(s) {
      forall n ensures Apply(h, s, c) == Ok(n) <==> Intended(h, s, c, n) {
        Mutations.YieldsApply(h, s, c, n);
        CallsAsIntended(h, s, c, n);
      }
    }
  }

  method CheckSuccessor(n: State, s: State) returns (ok: bool)
    ensures ok <==> Successor(n, s)
  {
    if !Follows(n, s) { return false; }
    ok := Validate(n);
  }

  /** The next snapshot, if `n` may follow. */
  method Succeed(x: Snapshot, n: State) returns (r: Result<Snapshot>)
    ensures r == TrySuccessor(x, n)
  {
    var ok := CheckSuccessor(n, x.state);
    r := SnapshotAfter(x, n, ok);
  }
}
