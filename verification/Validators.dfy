/**
 The validator as the journal runs it: single passes that accumulate sets, counts
 and maxima. Each is proved to decide exactly the declarative condition.
 */
module Validators {
  import opened Types
  import opened Tables
  import opened Operations
  import Tenures
  import opened Sizes
  import opened Journal

  // --------------------------------------------------------------------- operations

  function Expects(o: Operation): nat { o.expected }

  function SortBy<T>(xs: seq<T>, key: T -> nat): seq<T> {
    if xs == [] then [] else Insert(SortBy(xs[..|xs| - 1], key), key, xs[|xs| - 1])
  }

  lemma {:induction false} SortPermutes<T>(xs: seq<T>, key: T -> nat)
    ensures multiset(SortBy(xs, key)) == multiset(xs)
  {
    if xs != [] {
      var rest := xs[..|xs| - 1];
      SortPermutes(rest, key);
      InsertPermutes(SortBy(rest, key), key, xs[|xs| - 1]);
      assert xs == rest + [xs[|xs| - 1]];
    }
  }

  lemma SortMembers<T>(xs: seq<T>, key: T -> nat)
    ensures |SortBy(xs, key)| == |xs|
    ensures forall x :: x in SortBy(xs, key) <==> x in xs
  {
    SortPermutes(xs, key);
    var ys := SortBy(xs, key);
    assert |multiset(ys)| == |ys| && |multiset(xs)| == |xs|;
    forall x ensures x in ys <==> x in xs {
      assert x in ys <==> x in multiset(ys);
      assert x in xs <==> x in multiset(xs);
    }
  }

  lemma {:induction false} SortSorts<T>(xs: seq<T>, key: T -> nat)
    requires forall i, j :: 0 <= i < j < |xs| ==> key(xs[i]) != key(xs[j])
    ensures SortedBy(SortBy(xs, key), key)
  {
    if xs != [] {
      var rest := xs[..|xs| - 1];
      var sorted := SortBy(rest, key);
      SortSorts(rest, key);
      SortPermutes(rest, key);
      forall y | y in sorted ensures key(y) != key(xs[|xs| - 1]) {
        assert y in multiset(sorted) && y in multiset(rest);
        var i :| 0 <= i < |rest| && rest[i] == y;
      }
      InsertSorts(sorted, key, xs[|xs| - 1]);
    }
  }

  ghost predicate HasKey<T(!new)>(xs: seq<T>, key: T -> nat, r: nat) { exists x :: x in xs && key(x) == r }

  /** Strictly sorted keys that cover exactly the numbers below `n` are their own
      positions. */
  lemma {:induction false} KeysArePositions<T(!new)>(xs: seq<T>, key: T -> nat, n: nat, k: nat)
    requires SortedBy(xs, key) && k < |xs| && k < n
    requires forall r :: 0 <= r < n ==> HasKey(xs, key, r)
    ensures key(xs[k]) == k
  {
    assert HasKey(xs, key, k);
    var x :| x in xs && key(x) == k;
    var j :| 0 <= j < |xs| && xs[j] == x;
    if j < k { KeysArePositions(xs, key, n, j); }
    if k > 0 { KeysArePositions(xs, key, n, k - 1); }
  }

  lemma CoveredCount<T(!new)>(xs: seq<T>, key: T -> nat, n: nat)
    requires SortedBy(xs, key)
    requires forall x :: x in xs ==> key(x) < n
    requires forall r :: 0 <= r < n ==> HasKey(xs, key, r)
    ensures |xs| == n
  {
    if |xs| < n {
      assert HasKey(xs, key, |xs|);
      var x :| x in xs && key(x) == |xs|;
      var j :| 0 <= j < |xs| && xs[j] == x;
      KeysArePositions(xs, key, n, j);
    } else if |xs| > n {
      assert xs[n] in xs && n > 0;
      KeysArePositions(xs, key, n, n - 1);
    }
  }

  /** Rows whose plan digests were collected without a repetition. */
  predicate DigestsDistinct(rows: seq<Operation>) {
    forall i, j :: 0 <= i < j < |rows| ==> rows[i].planDigest != rows[j].planDigest
  }

  function GenerationBefore(rows: seq<Operation>, k: nat): nat
    requires k <= |rows|
  {
    if k == 0 then 0 else Generation(rows[k - 1])
  }

  /** Row `k` is at its own revision and its generation rises by at most one. */
  predicate RowFits(rows: seq<Operation>, k: nat)
    requires k < |rows|
  {
    rows[k].expected == k && GenerationBefore(rows, k) <= Generation(rows[k]) <= GenerationBefore(rows, k) + 1
  }

  predicate Contiguous(rows: seq<Operation>) { forall k :: 0 <= k < |rows| ==> RowFits(rows, k) }

  function FinalGeneration(rows: seq<Operation>): nat {
    if rows == [] then 0 else Generation(rows[|rows| - 1])
  }

  /** A ledger's rows, sorted by the revision they expect. */
  lemma LedgerSorts(rows: seq<Operation>, commits: set<Operation>, revision: nat, generation: nat)
    requires forall o :: o in rows <==> o in commits
    requires DigestsDistinct(rows) && Ledger(commits, revision, generation)
    ensures var sorted := SortBy(rows, Expects);
            && |sorted| == revision
            && forall k :: 0 <= k < |sorted| ==> sorted[k].expected == k && sorted[k] in commits
  {
    var sorted := SortBy(rows, Expects);
    SortMembers(rows, Expects);
    forall i, j | 0 <= i < j < |rows| ensures Expects(rows[i]) != Expects(rows[j]) {
      assert rows[i] in commits && rows[j] in commits && rows[i] != rows[j];
    }
    SortSorts(rows, Expects);
    forall r | 0 <= r < revision ensures HasKey(sorted, Expects, r) {
      assert CommitAt(commits, r);
      var o :| o in commits && o.expected == r;
      assert o in sorted;
    }
    CoveredCount(sorted, Expects, revision);
    forall k | 0 <= k < |sorted| ensures sorted[k].expected == k && sorted[k] in commits {
      KeysArePositions(sorted, Expects, revision, k);
      assert sorted[k] in sorted;
    }
  }

  lemma LedgerIsContiguous(rows: seq<Operation>, commits: set<Operation>, revision: nat, generation: nat)
    requires forall o :: o in rows <==> o in commits
    requires DigestsDistinct(rows) && Ledger(commits, revision, generation)
    ensures var sorted := SortBy(rows, Expects);
            |sorted| == revision && Contiguous(sorted) && FinalGeneration(sorted) == generation
  {
    LedgerSorts(rows, commits, revision, generation);
    var sorted := SortBy(rows, Expects);
    forall k | 0 <= k < |sorted| ensures RowFits(sorted, k) {
      if k > 0 { assert sorted[k - 1] in commits; }
    }
  }

  lemma RowAt(sorted: seq<Operation>, o: Operation)
    requires Contiguous(sorted) && o in sorted
    ensures o.expected < |sorted| && sorted[o.expected] == o && RowFits(sorted, o.expected)
  {
    var k :| 0 <= k < |sorted| && sorted[k] == o;
    assert RowFits(sorted, k);
  }

  lemma ContiguousIsLedger(sorted: seq<Operation>, commits: set<Operation>, revision: nat, generation: nat)
    requires forall o :: o in sorted <==> o in commits
    requires forall o, p :: o in commits && p in commits && o != p ==> o.planDigest != p.planDigest
    requires |sorted| == revision && Contiguous(sorted) && FinalGeneration(sorted) == generation
    ensures Ledger(commits, revision, generation)
  {
    forall r | 0 <= r < revision ensures CommitAt(commits, r) {
      assert RowFits(sorted, r) && sorted[r] in sorted;
    }
    forall o | o in commits
      ensures o.expected < revision && (o.expected + 1 == revision ==> Generation(o) == generation)
      ensures o.expected == 0 ==> Generation(o) <= 1
    {
      RowAt(sorted, o);
    }
    forall o, p | o in commits && p in commits && o != p ensures o.expected != p.expected {
      RowAt(sorted, o);
      RowAt(sorted, p);
    }
    forall o, p | o in commits && p in commits && p.expected == o.expected + 1
      ensures Generation(o) <= Generation(p) <= Generation(o) + 1
    {
      RowAt(sorted, o);
      RowAt(sorted, p);
    }
  }

  /** The first pass: canonical order, each row by itself, and no plan digest
      committed twice. */
  method CheckRows(ops: seq<Operation>, revision: nat) returns (ok: bool, committed: seq<Operation>)
    ensures ok ==> && SortedBy(ops, OpKey)
                   && (forall o :: o in ops ==> OperationValid(o) && AtRevision(o, revision))
                   && (forall o :: o in committed <==> o in Committed(ops))
                   && DigestsDistinct(committed)
    ensures forall generation :: OperationsValid(ops, revision, generation) ==> ok
  {
    committed := [];
    var digests: set<Option<Digest>> := {};
    for i := 0 to |ops|
      invariant SortedBy(ops[..i], OpKey)
      invariant forall o :: o in ops[..i] ==> OperationValid(o) && AtRevision(o, revision)
      invariant forall o :: o in committed <==> o in Committed(ops[..i])
      invariant DigestsDistinct(committed)
      invariant digests == set o | o in committed :: o.planDigest
    {
      var o := ops[i];
      assert o in ops && ops[..i + 1] == ops[..i] + [o];
      if i > 0 && ops[i - 1].id >= o.id { return false, []; }
      if !OperationValid(o) || !AtRevision(o, revision) { return false, []; }
      if o.phase.OpCommitted? {
        if o.planDigest in digests {
          ghost var p :| p in committed && p.planDigest == o.planDigest;
          assert p in Committed(ops) && o in Committed(ops);
          return false, [];
        }
        committed := committed + [o];
        digests := digests + {o.planDigest};
      }
    }
    assert ops[..|ops|] == ops;
    ok := true;
  }

  method CheckContiguous(rows: seq<Operation>, generation: nat) returns (ok: bool)
    ensures ok <==> Contiguous(rows) && FinalGeneration(rows) == generation
  {
    var previous := 0;
    for k := 0 to |rows|
      invariant forall j :: 0 <= j < k ==> RowFits(rows, j)
      invariant previous == GenerationBefore(rows, k)
    {
      var o := rows[k];
      assert previous == GenerationBefore(rows, k);
      if o.expected != k || Generation(o) < previous || Generation(o) > previous + 1 {
        assert !RowFits(rows, k);
        return false;
      }
      previous := Generation(o);
    }
    ok := previous == generation;
  }

  /** The whole check, sorting the committed rows by the revision they expect. */
  method CheckOperations(ops: seq<Operation>, revision: nat, generation: nat) returns (ok: bool)
    ensures ok <==> OperationsValid(ops, revision, generation)
  {
    var rows;
    ok, rows := CheckRows(ops, revision);
    if !ok { return; }
    var committed := SortBy(rows, Expects);
    ok := CheckContiguous(committed, generation);
    ok := ok && |committed| == revision;
    LedgerEquivalence(rows, Committed(ops), revision, generation);
  }

  lemma LedgerEquivalence(rows: seq<Operation>, commits: set<Operation>, revision: nat, generation: nat)
    requires DigestsDistinct(rows) && forall o :: o in rows <==> o in commits
    ensures var sorted := SortBy(rows, Expects);
            Ledger(commits, revision, generation)
            <==> |sorted| == revision && Contiguous(sorted) && FinalGeneration(sorted) == generation
  {
    SortMembers(rows, Expects);
    DistinctRows(rows, commits);
    var sorted := SortBy(rows, Expects);
    if Ledger(commits, revision, generation) {
      LedgerIsContiguous(rows, commits, revision, generation);
    } else if |sorted| == revision && Contiguous(sorted) && FinalGeneration(sorted) == generation {
      ContiguousIsLedger(sorted, commits, revision, generation);
    }
  }

  lemma DistinctRows(rows: seq<Operation>, commits: set<Operation>)
    requires DigestsDistinct(rows) && forall o :: o in rows <==> o in commits
    ensures forall o, p :: o in commits && p in commits && o != p ==> o.planDigest != p.planDigest
  {
    forall o, p | o in commits && p in commits && o != p ensures o.planDigest != p.planDigest {
      assert o in rows && p in rows;
      var i :| 0 <= i < |rows| && rows[i] == o;
      var j :| 0 <= j < |rows| && rows[j] == p;
    }
  }

  // ------------------------------------------------------------------------ tenures

  function UnresolvedCount(ts: seq<Tenure>): nat {
    if ts == [] then 0
    else UnresolvedCount(ts[..|ts| - 1]) + (if Tenures.Unresolved(ts[|ts| - 1]) then 1 else 0)
  }

  lemma {:induction false} SomeUnresolved(ts: seq<Tenure>)
    ensures UnresolvedCount(ts) > 0 <==> exists t :: t in ts && Tenures.Unresolved(t)
  {
    if ts != [] {
      var rest, last := ts[..|ts| - 1], ts[|ts| - 1];
      SomeUnresolved(rest);
      assert ts == rest + [last];
    }
  }

  ghost predicate OneUnresolved(ts: seq<Tenure>) {
    forall t, u :: t in ts && u in ts && Tenures.Unresolved(t) && Tenures.Unresolved(u) ==> t == u
  }

  lemma OneUnresolvedStep(rest: seq<Tenure>, last: Tenure)
    requires last !in rest
    ensures OneUnresolved(rest + [last]) <==>
              OneUnresolved(rest) && (Tenures.Unresolved(last) ==> forall t :: t in rest ==> !Tenures.Unresolved(t))
  {
    var ts := rest + [last];
    assert forall t :: t in ts <==> t in rest || t == last;
  }

  lemma {:induction false} AtMostOneUnresolved(ts: seq<Tenure>)
    requires SortedBy(ts, Tenures.TenureKey)
    ensures UnresolvedCount(ts) <= 1 <==> OneUnresolved(ts)
  {
    if ts != [] {
      var rest, last := ts[..|ts| - 1], ts[|ts| - 1];
      AtMostOneUnresolved(rest);
      SomeUnresolved(rest);
      assert ts == rest + [last];
      assert last !in rest;
      OneUnresolvedStep(rest, last);
    }
  }

  datatype Collected = Collected(digests: set<Digest>, intents: set<Digest>, nonces: set<Bytes>, proofs: set<Proof>)

  /** Rows so far agree with the collected identities and proofs. */
  ghost predicate TenuresTracked(ts: seq<Tenure>, c: Collected) {
    var tracked :=
      && c.digests == (set t | t in ts :: t.request.digest)
      && c.intents == (set t | t in ts :: t.request.intent)
      && c.nonces == (set t | t in ts :: t.request.nonce)
      && c.proofs == (set t | t in Tenures.Proven(ts) :: t.response.value.proof);
    tracked
  }

  function Collect(c: Collected, t: Tenure): Collected {
    Collected(c.digests + {t.request.digest}, c.intents + {t.request.intent}, c.nonces + {t.request.nonce},
              if t.response.Some? then c.proofs + {t.response.value.proof} else c.proofs)
  }

  lemma CollectTracks(ts: seq<Tenure>, t: Tenure, c: Collected)
    requires TenuresTracked(ts, c)
    ensures TenuresTracked(ts + [t], Collect(c, t))
  {
    var ts' := ts + [t];
    assert forall u :: u in ts' <==> u in ts || u == t;
    assert Tenures.Proven(ts') == Tenures.Proven(ts) + (if t.response.Some? then {t} else {});
  }

  ghost predicate RowsValid(ts: seq<Tenure>, scope: Id) {
    var valid :=
      && SortedBy(ts, Tenures.TenureKey)
      && (forall t :: t in ts ==> Tenures.RowValid(t, scope))
      && (forall t, u :: t in ts && u in ts && t != u ==> !Tenures.SameIdentity(t.request, u.request))
      && (forall t, u :: t in Tenures.Proven(ts) && u in Tenures.Proven(ts) && Tenures.Epoch(t) == Tenures.Epoch(u) ==>
            t.response.value.proof == u.response.value.proof);
    valid
  }

  lemma RowsPrefix(ts: seq<Tenure>, scope: Id, i: nat)
    requires RowsValid(ts, scope) && i <= |ts|
    ensures RowsValid(ts[..i], scope)
  {
    forall t | t in ts[..i] ensures t in ts { }
    forall t | t in Tenures.Proven(ts[..i]) ensures t in Tenures.Proven(ts) { }
  }

  /** One more row is legal exactly when it sorts last, is valid by itself, and
      neither its identities nor its epoch are taken. */
  predicate RowObjection(ts: seq<Tenure>, t: Tenure, scope: Id, c: Collected) {
    || (ts != [] && Tenures.TenureKey(ts[|ts| - 1]) >= Tenures.TenureKey(t))
    || !Tenures.RowValid(t, scope)
    || t.request.digest in c.digests || t.request.intent in c.intents || t.request.nonce in c.nonces
    || (t.response.Some? && exists p :: p in c.proofs && p.epoch == Tenures.Epoch(t) && p != t.response.value.proof)
  }

  lemma RowAccepted(ts: seq<Tenure>, t: Tenure, scope: Id, c: Collected)
    requires RowsValid(ts, scope) && TenuresTracked(ts, c) && !RowObjection(ts, t, scope, c)
    ensures RowsValid(ts + [t], scope)
  {
    var ts' := ts + [t];
    assert forall u :: u in ts' <==> u in ts || u == t;
    assert Tenures.Proven(ts') == Tenures.Proven(ts) + (if t.response.Some? then {t} else {});
    forall u | u in ts ensures Tenures.TenureKey(u) < Tenures.TenureKey(t) {
      var k :| 0 <= k < |ts| && ts[k] == u;
    }
    forall u | u in ts ensures !Tenures.SameIdentity(u.request, t.request) && !Tenures.SameIdentity(t.request, u.request) {
      assert u.request.digest in c.digests && u.request.intent in c.intents && u.request.nonce in c.nonces;
    }
    if t.response.Some? {
      forall u | u in Tenures.Proven(ts) && Tenures.Epoch(u) == Tenures.Epoch(t)
        ensures u.response.value.proof == t.response.value.proof
      {
        assert u.response.value.proof in c.proofs;
      }
    }
  }

  lemma RowRefused(ts: seq<Tenure>, t: Tenure, scope: Id, c: Collected)
    requires TenuresTracked(ts, c) && RowObjection(ts, t, scope, c)
    ensures !RowsValid(ts + [t], scope)
  {
    var ts' := ts + [t];
    assert ts'[|ts|] == t && (t.response.Some? ==> t in Tenures.Proven(ts'));
    forall k | 0 <= k < |ts| ensures ts'[k] == ts[k] && ts[k] in ts' { }
    forall u | u in Tenures.Proven(ts) ensures u in Tenures.Proven(ts') { }
  }

  /** What one turn of the loop learns about the whole table. */
  lemma RowStep(ts: seq<Tenure>, i: nat, scope: Id, c: Collected)
    requires i < |ts| && RowsValid(ts[..i], scope) && TenuresTracked(ts[..i], c)
    ensures if RowObjection(ts[..i], ts[i], scope, c) then !RowsValid(ts, scope)
            else && RowsValid(ts[..i + 1], scope) && TenuresTracked(ts[..i + 1], Collect(c, ts[i]))
                 && UnresolvedCount(ts[..i + 1]) == UnresolvedCount(ts[..i]) + Flag(Tenures.Unresolved(ts[i]))
  {
    assert ts[..i + 1] == ts[..i] + [ts[i]] && ts[..i + 1][..i] == ts[..i];
    if RowObjection(ts[..i], ts[i], scope, c) {
      RowRefused(ts[..i], ts[i], scope, c);
      if RowsValid(ts, scope) { RowsPrefix(ts, scope, i + 1); }
    } else {
      RowAccepted(ts[..i], ts[i], scope, c);
      CollectTracks(ts[..i], ts[i], c);
    }
  }

  lemma TenuresAreRows(ts: seq<Tenure>, scope: Id)
    ensures Tenures.TenuresValid(ts, scope) <==> RowsValid(ts, scope) && UnresolvedCount(ts) <= 1
  {
    if SortedBy(ts, Tenures.TenureKey) { AtMostOneUnresolved(ts); }
  }

  method CheckTenures(ts: seq<Tenure>, scope: Id) returns (ok: bool)
    ensures ok <==> Tenures.TenuresValid(ts, scope)
  {
    TenuresAreRows(ts, scope);
    var c := Collected({}, {}, {}, {});
    var unresolved := 0;
    for i := 0 to |ts|
      invariant RowsValid(ts[..i], scope) && TenuresTracked(ts[..i], c)
      invariant unresolved == UnresolvedCount(ts[..i])
    {
      RowStep(ts, i, scope, c);
      if RowObjection(ts[..i], ts[i], scope, c) { return false; }
      c := Collect(c, ts[i]);
      if Tenures.Unresolved(ts[i]) { unresolved := unresolved + 1; }
    }
    assert ts[..|ts|] == ts;
    ok := unresolved <= 1;
  }
}
