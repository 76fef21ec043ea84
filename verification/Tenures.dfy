/**
 Writer-tenure transactions: the state check, the successor check, and fencing
 over whole chains of journal snapshots.
 */
module Tenures {
  import opened Types
  import opened Tables

  function TenureKey(t: Tenure): nat { t.request.operation }

  /** A response answers exactly this request, and its proof is for the
      request's scope and writer under the request's nonce. */
  predicate Answers(r: TenureResponse, q: TenureRequest) {
    && r.operation == q.operation && r.requestDigest == q.digest && r.nonce == q.nonce
    && |r.wire| <= q.maxResponse
    && r.proof.scope == q.scope && r.proof.writer == q.writer && r.proof.nonce == q.nonce
  }

  predicate Unresolved(t: Tenure) { !t.phase.TenureCommitted? }

  predicate RowValid(t: Tenure, scope: Id) {
    && t.request.scope == scope
    && t.phase.TenureCommitted? == t.response.Some?
    && (t.response.Some? ==> Answers(t.response.value, t.request))
  }

  predicate SameIdentity(q: TenureRequest, p: TenureRequest) {
    q.operation == p.operation || q.digest == p.digest || q.intent == p.intent || q.nonce == p.nonce
  }

  function Epoch(t: Tenure): nat { if t.response.Some? then t.response.value.proof.epoch else 0 }

  /** Committed rows. */
  function Proven(ts: seq<Tenure>): set<Tenure> { set t | t in ts && t.response.Some? }

  predicate TenuresValid(ts: seq<Tenure>, scope: Id) {
    var valid :=
      && SortedBy(ts, TenureKey)
      && (forall t :: t in ts ==> RowValid(t, scope))
      && (forall t, u :: t in ts && u in ts && t != u ==> !SameIdentity(t.request, u.request))
      && (forall t, u :: t in Proven(ts) && u in Proven(ts) && Epoch(t) == Epoch(u) ==>
            t.response.value.proof == u.response.value.proof)
      && (forall t, u :: t in ts && u in ts && Unresolved(t) && Unresolved(u) ==> t == u);
    valid
  }

  /** A proof for operation `id` must be above, and explicitly supersede, every
      proof another operation already committed. */
  function ProofObjection(ts: seq<Tenure>, id: Id, proof: Proof): Option<Error> {
    if exists t :: t in Proven(ts) && TenureKey(t) != id && proof.epoch <= Epoch(t)
    then Some(TenureEpochNotMonotonic)
    else if exists t :: t in Proven(ts) && TenureKey(t) != id && proof.supersedes < Epoch(t)
    then Some(TenureSupersessionGap)
    else None
  }

  /** What a journal snapshot may do to the row `t` of its predecessor `was`. */
  predicate RowSuccessor(u: Tenure, t: Tenure, was: seq<Tenure>) {
    && u.request == t.request && u.domain == t.domain
    && t.phase.Permits(u.phase)
    && (t.response.Some? ==> u.response == t.response)
    && (t.phase == u.phase ==> t == u)
    && (u.phase.TenureCommitted? ==> u.response.Some?)
    && (!t.phase.TenureCommitted? && u.phase.TenureCommitted? ==>
          ProofObjection(was, TenureKey(u), u.response.value.proof).None?)
  }

  predicate TenuresSuccessor(ts: seq<Tenure>, was: seq<Tenure>) {
    && (forall t :: t in was ==>
          var i := Find(ts, TenureKey, TenureKey(t));
          i.Some? && RowSuccessor(ts[i.value], t, was))
    && (forall u :: u in ts && Find(was, TenureKey, TenureKey(u)).None? ==>
          u.phase.TenurePrepared? && u.response.None?)
  }

  lemma UnchangedTenures(ts: seq<Tenure>, scope: Id)
    requires TenuresValid(ts, scope)
    ensures TenuresSuccessor(ts, ts)
  {
    forall t | t in ts
      ensures var i := Find(ts, TenureKey, TenureKey(t)); i.Some? && ts[i.value] == t
    {
      FindMember(ts, TenureKey, t);
    }
  }

  /** Epochs are unique in every valid journal, not only in reachable ones: two
      rows with one epoch would share a proof, hence its nonce. */
  lemma EpochsDistinct(ts: seq<Tenure>, scope: Id, t: Tenure, u: Tenure)
    requires TenuresValid(ts, scope) && t in Proven(ts) && u in Proven(ts) && Epoch(t) == Epoch(u)
    ensures t == u
  {
    assert t.request.nonce == t.response.value.proof.nonce == u.request.nonce;
  }

  /** The committed row with the highest epoch. */
  function Latest(ts: seq<Tenure>): (r: Option<Tenure>)
    ensures r.None? <==> Proven(ts) == {}
    ensures r.Some? ==> r.value in Proven(ts) && forall t :: t in Proven(ts) ==> Epoch(t) <= Epoch(r.value)
  {
    if ts == [] then None
    else
      var last := ts[|ts| - 1];
      var rest := ts[..|ts| - 1];
      assert ts == rest + [last];
      assert Proven(ts) == Proven(rest) + (if last.response.Some? then {last} else {});
      var r := Latest(rest);
      if last.response.Some? && (r.None? || Epoch(r.value) <= Epoch(last)) then Some(last) else r
  }

  /** The journal's selection loop, which reports an epoch tie as a conflict. On
      a valid table it never does. */
  method GlobalLatest(ts: seq<Tenure>) returns (r: Result<Option<Tenure>>)
    ensures r.Err? ==> exists t, u :: t in Proven(ts) && u in Proven(ts) && t != u && Epoch(t) == Epoch(u)
    ensures forall scope :: TenuresValid(ts, scope) ==> r == Ok(Latest(ts))
  {
    var selected: Option<Tenure> := None;
    for i := 0 to |ts|
      invariant Proven(ts[..i]) <= Proven(ts)
      invariant selected.None? <==> Proven(ts[..i]) == {}
      invariant selected.Some? ==> selected.value in Proven(ts[..i])
      invariant selected.Some? ==> forall t :: t in Proven(ts[..i]) ==> Epoch(t) <= Epoch(selected.value)
    {
      var t := ts[i];
      assert ts[..i + 1] == ts[..i] + [t];
      assert Proven(ts[..i + 1]) == Proven(ts[..i]) + (if t.response.Some? then {t} else {});
      if t.response.Some? {
        if selected.None? || Epoch(selected.value) < Epoch(t) {
          selected := Some(t);
        } else if Epoch(selected.value) == Epoch(t) && t != selected.value {
          assert t in Proven(ts) && selected.value in Proven(ts);
          forall scope | TenuresValid(ts, scope) ensures false {
            EpochsDistinct(ts, scope, t, selected.value);
          }
          return Err(TenureEpochConflict);
        }
      }
    }
    assert ts[..|ts|] == ts;
    forall scope | TenuresValid(ts, scope) ensures selected == Latest(ts) {
      if selected.Some? { EpochsDistinct(ts, scope, selected.value, Latest(ts).value); }
    }
    r := Ok(selected);
  }

  /** The proof a writer may currently act on. */
  function LiveProof(ts: seq<Tenure>, writer: Id): Option<Proof> {
    var t := Latest(ts);
    if t.Some? && t.value.response.value.proof.writer == writer then Some(t.value.response.value.proof)
    else None
  }

  // ------------------------------------------------------------- one mutation

  lemma PrepareKeepsTenures(ts: seq<Tenure>, scope: Id, t: Tenure)
    requires TenuresValid(ts, scope)
    requires RowValid(t, scope) && t.phase.TenurePrepared?
    requires forall u :: u in ts ==> !Unresolved(u) && !SameIdentity(u.request, t.request)
    ensures TenuresValid(Insert(ts, TenureKey, t), scope)
    ensures TenuresSuccessor(Insert(ts, TenureKey, t), ts)
  {
    InsertSorts(ts, TenureKey, t);
    InsertMembers(ts, TenureKey, t);
    var ts' := Insert(ts, TenureKey, t);
    assert Proven(ts') == Proven(ts);
    forall u | u in ts
      ensures var i := Find(ts', TenureKey, TenureKey(u)); i.Some? && ts'[i.value] == u
    {
      FindMember(ts', TenureKey, u);
    }
  }

  lemma UpdateKeepsTenures(ts: seq<Tenure>, scope: Id, k: nat, t: Tenure)
    requires TenuresValid(ts, scope) && k < |ts|
    requires RowValid(t, scope) && Unresolved(ts[k]) && RowSuccessor(t, ts[k], ts)
    ensures TenuresValid(ts[k := t], scope)
  {
    var ts' := ts[k := t];
    UpdateMembers(ts, TenureKey, k, t);
    assert ts[k] in ts;
    assert Proven(ts') == Proven(ts) + (if t.response.Some? then {t} else {});
    forall u | u in ts && u != ts[k] ensures TenureKey(u) != TenureKey(t) {
      if TenureKey(u) == TenureKey(t) { KeysAreUnique(ts, TenureKey, u, ts[k]); }
    }
  }

  lemma UpdateIsSuccessor(ts: seq<Tenure>, scope: Id, k: nat, t: Tenure)
    requires TenuresValid(ts, scope) && k < |ts|
    requires Unresolved(ts[k]) && RowSuccessor(t, ts[k], ts)
    ensures TenuresSuccessor(ts[k := t], ts)
  {
    var ts' := ts[k := t];
    UpdateMembers(ts, TenureKey, k, t);
    forall u | u in ts
      ensures var i := Find(ts', TenureKey, TenureKey(u)); i.Some? && RowSuccessor(ts'[i.value], u, ts)
    {
      FindMember(ts', TenureKey, if u == ts[k] then t else u);
    }
    forall u | u in ts' ensures Find(ts, TenureKey, TenureKey(u)).Some? {
      var w := if u == t then ts[k] else u;
      assert w in ts;
    }
  }

  // ------------------------------------------------------- fencing over chains

  /** Any sequence of journal snapshots the store accepts, seen at its tenure
      tables. */
  ghost predicate TenureChain(c: seq<seq<Tenure>>, scope: Id) {
    && (forall i :: 0 <= i < |c| ==> TenuresValidAt(c, i, scope))
    && (forall i :: 0 <= i < |c| - 1 ==> TenureStep(c, i))
  }

  /** In a valid table the live proof of a writer is its proof, if that is the one of the
      highest epoch of all, and there is none otherwise. */
  lemma LiveProofIff(ts: seq<Tenure>, scope: Id, writer: Id, proof: Proof)
    requires TenuresValid(ts, scope)
    ensures LiveProof(ts, writer) == Some(proof) <==>
              && proof.writer == writer
              && (exists t :: t in Proven(ts) && t.response.value.proof == proof)
              && (forall t :: t in Proven(ts) ==> Epoch(t) <= proof.epoch)
  {
    var l := Latest(ts);
    if t :| t in Proven(ts) && t.response.value.proof == proof && l.Some? && Epoch(t) == Epoch(l.value) {
      assert l.value.response.value.proof == proof;
    }
  }

  ghost predicate TenuresValidAt(c: seq<seq<Tenure>>, i: nat, scope: Id)
    requires i < |c|
  {
    TenuresValid(c[i], scope)
  }

  ghost predicate TenureStep(c: seq<seq<Tenure>>, i: nat)
    requires i + 1 < |c|
  {
    TenuresSuccessor(c[i + 1], c[i])
  }

  lemma ProvenKept(ts: seq<Tenure>, was: seq<Tenure>)
    requires TenuresSuccessor(ts, was)
    requires forall t :: t in was ==> t.phase.TenureCommitted? == t.response.Some?
    ensures Proven(was) <= Proven(ts)
  {
    forall t | t in Proven(was) ensures t in Proven(ts) {
      assert t in was;
      var i := Find(ts, TenureKey, TenureKey(t));
      assert RowSuccessor(ts[i.value], t, was);
      assert ts[i.value] == t && ts[i.value] in ts;
    }
  }

  /** A newly proven row was the unresolved one, and its proof was unobjectionable. */
  lemma NewlyProven(ts: seq<Tenure>, was: seq<Tenure>, u: Tenure)
    requires SortedBy(ts, TenureKey) && TenuresSuccessor(ts, was) && u in Proven(ts) - Proven(was)
    requires forall t :: t in was ==> t.phase.TenureCommitted? == t.response.Some?
    requires forall t :: t in ts ==> t.phase.TenureCommitted? == t.response.Some?
    ensures exists v :: v in was && Unresolved(v) && v.request == u.request
    ensures ProofObjection(was, TenureKey(u), u.response.value.proof).None?
  {
    assert u in ts;
    var k := Find(was, TenureKey, TenureKey(u));
    var v := was[k.value];
    assert v in was;
    FindMember(ts, TenureKey, u);
    assert RowSuccessor(u, v, was);
  }

  lemma OneNewProof(ts: seq<Tenure>, was: seq<Tenure>, scope: Id, t: Tenure, u: Tenure)
    requires TenuresValid(was, scope) && TenuresValid(ts, scope) && TenuresSuccessor(ts, was)
    requires t in Proven(ts) - Proven(was) && u in Proven(ts) - Proven(was)
    ensures t == u
  {
    NewlyProven(ts, was, t);
    NewlyProven(ts, was, u);
    var v :| v in was && Unresolved(v) && v.request == t.request;
    var w :| w in was && Unresolved(w) && w.request == u.request;
    assert v == w;
    KeysAreUnique(ts, TenureKey, t, u);
  }

  lemma NewProofOutranks(ts: seq<Tenure>, was: seq<Tenure>, scope: Id, t: Tenure, u: Tenure)
    requires TenuresValid(was, scope) && TenuresValid(ts, scope) && TenuresSuccessor(ts, was)
    requires t in Proven(was) && u in Proven(ts) - Proven(was)
    ensures Epoch(t) < Epoch(u) && Epoch(t) <= u.response.value.proof.supersedes
  {
    ProvenKept(ts, was);
    NewlyProven(ts, was, u);
    if TenureKey(t) == TenureKey(u) { KeysAreUnique(ts, TenureKey, t, u); }
  }

  /** One step never drops a proof and commits at most one, above all others. */
  lemma FencingStep(ts: seq<Tenure>, was: seq<Tenure>, scope: Id)
    requires TenuresValid(was, scope) && TenuresValid(ts, scope) && TenuresSuccessor(ts, was)
    ensures Proven(was) <= Proven(ts)
    ensures forall t, u :: t in Proven(ts) - Proven(was) && u in Proven(ts) - Proven(was) ==> t == u
    ensures forall t, u :: t in Proven(was) && u in Proven(ts) - Proven(was) ==>
              Epoch(t) < Epoch(u) && Epoch(t) <= u.response.value.proof.supersedes
  {
    ProvenKept(ts, was);
    forall t, u | t in Proven(ts) - Proven(was) && u in Proven(ts) - Proven(was) ensures t == u {
      OneNewProof(ts, was, scope, t, u);
    }
    forall t, u | t in Proven(was) && u in Proven(ts) - Proven(was)
      ensures Epoch(t) < Epoch(u) && Epoch(t) <= u.response.value.proof.supersedes
    {
      NewProofOutranks(ts, was, scope, t, u);
    }
  }

  lemma FencingAt(c: seq<seq<Tenure>>, scope: Id, k: nat)
    requires TenureChain(c, scope) && k + 1 < |c|
    ensures Proven(c[k]) <= Proven(c[k + 1])
    ensures forall t, u :: t in Proven(c[k]) && u in Proven(c[k + 1]) - Proven(c[k]) ==>
              Epoch(t) < Epoch(u) && Epoch(t) <= u.response.value.proof.supersedes
  {
    assert TenureStep(c, k) && TenuresValidAt(c, k, scope) && TenuresValidAt(c, k + 1, scope);
    FencingStep(c[k + 1], c[k], scope);
  }

  /** Over any chain, proofs are permanent and each later one outranks, and
      explicitly supersedes, every earlier one. */
  lemma {:induction false} Fencing(c: seq<seq<Tenure>>, scope: Id, i: nat, j: nat)
    requires TenureChain(c, scope) && i <= j < |c|
    ensures Proven(c[i]) <= Proven(c[j])
    ensures forall t, u :: t in Proven(c[i]) && u in Proven(c[j]) - Proven(c[i]) ==>
              Epoch(t) < Epoch(u) && Epoch(t) <= u.response.value.proof.supersedes
    decreases j
  {
    if i < j {
      var k: nat := j - 1;
      Fencing(c, scope, i, k);
      FencingAt(c, scope, k);
    }
  }

  /** Rows are sorted by operation id, yet commit order is epoch order: of two
      proofs first seen at different steps, the later one has the higher epoch. */
  lemma CommitOrderIsEpochOrder(c: seq<seq<Tenure>>, scope: Id, i: nat, j: nat, t: Tenure, u: Tenure)
    requires TenureChain(c, scope) && i < j < |c|
    requires t in Proven(c[i]) && u in Proven(c[j]) && forall k :: 0 <= k < j ==> u !in Proven(c[k])
    ensures Epoch(t) < Epoch(u)
  {
    Fencing(c, scope, i, j);
  }

  /** At most one writer can act, and a proof that is not the live one now never
      becomes live again. */
  lemma SupersededForever(c: seq<seq<Tenure>>, scope: Id, i: nat, j: nat, t: Tenure, w: Id, w': Id)
    requires TenureChain(c, scope) && i <= j < |c| && t in Proven(c[i])
    ensures Latest(c[i]) != Some(t) ==> Latest(c[j]) != Some(t)
    ensures Latest(c[i]) != Some(t) ==> LiveProof(c[j], w) != Some(t.response.value.proof)
    ensures LiveProof(c[j], w).Some? && LiveProof(c[j], w').Some? ==> w == w'
  {
    Fencing(c, scope, i, j);
    assert TenuresValidAt(c, i, scope);
    if Latest(c[i]) != Some(t) {
      var l := Latest(c[i]).value;
      if Epoch(l) == Epoch(t) { EpochsDistinct(c[i], scope, l, t); }
      assert l in Proven(c[j]);
    }
  }
}
