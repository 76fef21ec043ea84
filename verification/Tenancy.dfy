/**
 Acquiring a writer tenure: the request is durable before the one exchange, and
 its answer, or the uncertainty about it, is durable after.
 */
module Tenancy {
  import opened Types
  import opened Tables
  import opened Tenures
  import opened Journal
  import opened Successors
  import opened Mutations
  import opened Worlds
  import opened Stores
  import Queries

  datatype Reply = Answered(response: TenureResponse) | NotSent | DeliveryUncertain

  datatype Acquired = Acquired(proof: Proof, replayed: bool)

  /** The proof is committed under this operation. */
  predicate ProofDurable(s: State, operation: Id, proof: Proof) {
    var t := TenureRow(s, operation);
    t.Some? && t.value.response.Some? && t.value.response.value.proof == proof
  }

  /** The request may have reached the authority, and the journal says so. */
  predicate MarkedUncertain(s: State, operation: Id) {
    var t := TenureRow(s, operation);
    t.Some? && t.value.phase.TenureUncertain?
  }

  lemma UncertainMoves(s: State, q: TenureRequest)
    requires !MarkUncertainMove(s, q).Refuse?
    ensures MarkedUncertain(MovedTo(MarkUncertainMove(s, q), s), q.operation)
  {
    var k := Find(s.tenures, TenureKey, q.operation).value;
    if s.tenures[k].phase.TenurePrepared? {
      FindUpdated(s.tenures, k, s.tenures[k].(phase := TenureUncertain));
    }
  }

  lemma {:induction false} FindUpdated(ts: seq<Tenure>, k: nat, t: Tenure)
    requires Find(ts, TenureKey, TenureKey(t)) == Some(k) && k < |ts|
    ensures Find(ts[k := t], TenureKey, TenureKey(t)) == Some(k)
  {
    if TenureKey(ts[0]) != TenureKey(t) {
      FindUpdated(ts[1..], k - 1, t);
      assert ts[k := t][1..] == ts[1..][k - 1 := t];
    }
  }

  lemma UncertainLeaves(h: Hashes, s: State, q: TenureRequest, n: State)
    requires Yields(h, s, MarkTenureUncertain(q), n)
    ensures MarkedUncertain(n, q.operation)
  {
    YieldsMove(h, s, MarkTenureUncertain(q), n);
    UncertainMoves(s, q);
  }

  lemma CommitMoves(s: State, q: TenureRequest, r: TenureResponse)
    requires !CommitTenureMove(s, q, r).Refuse?
    ensures ProofDurable(MovedTo(CommitTenureMove(s, q, r), s), q.operation, r.proof)
  {
    var k := Find(s.tenures, TenureKey, q.operation).value;
    if !s.tenures[k].phase.TenureCommitted? {
      FindUpdated(s.tenures, k, s.tenures[k].(phase := TenureCommitted, response := Some(r)));
    }
  }

  lemma CommitLeaves(h: Hashes, s: State, q: TenureRequest, r: TenureResponse, n: State)
    requires Yields(h, s, CommitTenure(q, r), n)
    ensures ProofDurable(n, q.operation, r.proof)
  {
    YieldsMove(h, s, CommitTenure(q, r), n);
    CommitMoves(s, q, r);
  }

  /** What the exchange told, as the command that records it. */
  function ReplyCommand(q: TenureRequest, reply: Reply): Command
    requires !reply.NotSent?
  {
    if reply.Answered? then CommitTenure(q, reply.response) else MarkTenureUncertain(q)
  }

  /** And what is reported once it is durable. */
  function ReplyResult(reply: Reply): Result<Proof> {
    if reply.Answered? then Ok(reply.response.proof) else Err(TenureExchangeFailed)
  }

  /** What becomes of the reply: nothing, if the request was not sent; otherwise the disk
      holds nothing but what recording it yields, and it is recorded and reported whenever
      the journal takes it and the commit goes through. */
  ghost predicate ReplyDurable(n: State, disk: State, x: Snapshot, h: Hashes, q: TenureRequest, reply: Reply, fate: Fate,
                               r: Result<Proof>)
  {
    if reply.NotSent? then r == Err(TenureExchangeFailed) && n == x.state && disk == x.state
    else
      var c := ReplyCommand(q, reply);
      var durable :=
        && (disk == x.state || Yields(h, x.state, c, disk))
        && (r.Ok? ==> Yields(h, x.state, c, n))
        && (Grants(x, fate) ==> forall m :: Yields(h, x.state, c, m) ==> r == ReplyResult(reply) && n == m);
      durable
  }

  lemma MarkErrors(h: Hashes, s: State, q: TenureRequest, e: Error)
    ensures Fails(h, s, MarkTenureUncertain(q), e) ==> e != TenureExchangeFailed
  {
    FailsApply(h, s, MarkTenureUncertain(q), e);
  }

  /** Commits a verified answer. */
  method RecordAnswer(store: Store, h: Hashes, q: TenureRequest, response: TenureResponse, fate: Fate)
    returns (r: Result<Proof>)
    requires store.Valid() && store.operational
    modifies store
    ensures store.Valid() && Queries.Quiet(store.Now(), old(store.Now()))
    ensures r.Ok? ==> && store.operational && r.value == response.proof
                      && ProofDurable(store.snapshot.state, q.operation, r.value)
    ensures ReplyDurable(store.snapshot.state, store.disk.state, old(store.snapshot), h, q, Answered(response), fate, r)
  {
    ghost var s := store.snapshot.state;
    var committed := Queries.RecordChange(store, h, CommitTenure(q, response), fate);
    if committed.Err? { return Err(committed.error); }
    CommitLeaves(h, s, q, response, store.snapshot.state);
    r := Ok(response.proof);
  }

  /** Records that the request may have arrived. */
  method RecordUncertain(store: Store, h: Hashes, q: TenureRequest, fate: Fate) returns (r: Result<Proof>)
    requires store.Valid() && store.operational
    modifies store
    ensures store.Valid() && Queries.Quiet(store.Now(), old(store.Now()))
    ensures r.Err? && (r == Err(TenureExchangeFailed) ==>
                         store.operational && MarkedUncertain(store.snapshot.state, q.operation))
    ensures ReplyDurable(store.snapshot.state, store.disk.state, old(store.snapshot), h, q, Reply.DeliveryUncertain, fate, r)
  {
    ghost var s := store.snapshot.state;
    var marked := Queries.RecordChange(store, h, MarkTenureUncertain(q), fate);
    if marked.Err? {
      MarkErrors(h, s, q, marked.error);
      return Err(if store.operational then marked.error else UncertainPersistence);
    }
    UncertainLeaves(h, s, q, store.snapshot.state);
    r := Err(TenureExchangeFailed);
  }

  /** What the exchange told is durable before it is reported. */
  method RecordReply(store: Store, h: Hashes, q: TenureRequest, reply: Reply, answered: Fate)
    returns (r: Result<Proof>)
    requires store.Valid() && store.operational
    modifies store
    ensures store.Valid() && Queries.Quiet(store.Now(), old(store.Now()))
    ensures r.Ok? ==> store.operational && reply.Answered? && r.value == reply.response.proof
    ensures r.Ok? ==> ProofDurable(store.snapshot.state, q.operation, r.value)
    ensures reply.DeliveryUncertain? && r == Err(TenureExchangeFailed) ==>
              store.operational && MarkedUncertain(store.snapshot.state, q.operation)
    ensures ReplyDurable(store.snapshot.state, store.disk.state, old(store.snapshot), h, q, reply, answered, r)
  {
    match reply
    case NotSent => r := Err(TenureExchangeFailed);
    case DeliveryUncertain => r := RecordUncertain(store, h, q, answered);
    case Answered(response) => r := RecordAnswer(store, h, q, response, answered);
  }

  /** The row under the request's operation is this very request, for this authority. */
  predicate RowMatches(s: State, q: TenureRequest, domain: Digest) {
    var t := TenureRow(s, q.operation);
    t.Some? && t.value.request.wire == q.wire && t.value.domain == domain
  }

  /** One exchange at most, only with the request durable and unanswered; its answer,
      or the uncertainty about it, is durable before the call returns. */
  method AcquireOnce(store: Store, h: Hashes, q: TenureRequest, domain: Digest, reply: Reply,
                     prepared: Fate, answered: Fate) returns (r: Result<Acquired>)
    requires store.Valid()
    modifies store
    ensures store.Valid() && store.Now().commits <= old(store.Now()).commits + 2
    ensures store.Now().queries == old(store.Now()).queries && store.Now().applies == old(store.Now()).applies
    ensures || store.Now().tenures == old(store.Now()).tenures
            || (&& |store.Now().tenures| == |old(store.Now()).tenures| + 1
                && store.Now().tenures[..|old(store.Now()).tenures|] == old(store.Now()).tenures
                && store.Now().tenures[|old(store.Now()).tenures|].request == q)
    ensures r.Ok? ==> store.operational && ProofDurable(store.snapshot.state, q.operation, r.value.proof)
    ensures r.Ok? ==> (r.value.replayed <==> store.Now().tenures == old(store.Now()).tenures)
    ensures store.Now().tenures != old(store.Now()).tenures && reply.DeliveryUncertain? && r == Err(TenureExchangeFailed) ==>
              store.operational && MarkedUncertain(store.snapshot.state, q.operation)
    ensures old(store.operational) && prepared.Done? && answered.Done? && old(store.snapshot).sequence + 2 <= U64_MAX ==>
              forall n :: Yields(h, old(store.snapshot.state), PrepareTenure(q, domain), n) && RowMatches(n, q, domain) ==>
                Acquires(store.snapshot.state, n, h, q, reply, r)
  {
    if !store.operational { return Err(StoreStopped); }
    var done := Queries.RecordChange(store, h, PrepareTenure(q, domain), prepared);
    if done.Err? { return Err(done.error); }
    var t := TenureRow(store.snapshot.state, q.operation);
    if t.None? { return Err(MissingTenureTransaction); }
    if t.value.request.wire != q.wire { return Err(TenureTransactionConflict); }
    if t.value.domain != domain { return Err(TenureAuthorityDomainMismatch); }
    if t.value.response.Some? { return Ok(Acquired(t.value.response.value.proof, true)); }
    r := Exchange(store, h, q, reply, answered);
  }

  /** The one exchange about a durable, unanswered request. */
  method Exchange(store: Store, h: Hashes, q: TenureRequest, reply: Reply, fate: Fate) returns (r: Result<Acquired>)
    requires store.Valid() && store.operational && TenureOpen(store.snapshot.state, q)
    modifies store
    ensures store.Valid() && store.Now().commits <= old(store.Now()).commits + 1
    ensures store.Now().queries == old(store.Now()).queries && store.Now().applies == old(store.Now()).applies
    ensures store.Now().tenures == old(store.Now()).tenures + [TenureSending(q, |old(store.Now()).past| - 1)]
    ensures r.Ok? ==> && store.operational && !r.value.replayed
                      && ProofDurable(store.snapshot.state, q.operation, r.value.proof)
    ensures reply.DeliveryUncertain? && r == Err(TenureExchangeFailed) ==>
              store.operational && MarkedUncertain(store.snapshot.state, q.operation)
    ensures Grants(old(store.snapshot), fate) ==>
              Acquires(store.snapshot.state, old(store.snapshot.state), h, q, reply, r)
  {
    store.Log(SendTenure(q));
    var proof := RecordReply(store, h, q, reply, fate);
    r := if proof.Err? then Err(proof.error) else Ok(Acquired(proof.value, false));
  }

  /** With the request durable in `n`: a proof that is there is returned again; otherwise
      the reply is recorded, and an answer's proof returned. */
  ghost predicate Acquires(final: State, n: State, h: Hashes, q: TenureRequest, reply: Reply, r: Result<Acquired>) {
    var t := TenureRow(n, q.operation);
    var acquires :=
      t.Some?
      && if t.value.response.Some? then final == n && r == Ok(Acquired(t.value.response.value.proof, true))
         else if reply.NotSent? then final == n && r == Err(TenureExchangeFailed)
         else forall m :: Yields(h, n, ReplyCommand(q, reply), m) ==>
                && final == m
                && r == if reply.Answered? then Ok(Acquired(reply.response.proof, false)) else Err(TenureExchangeFailed);
    acquires
  }
}
