/**
 The query orchestrator: prepare, exchange once, commit the answer or the closure.
 */
module Queries {
  import opened Types
  import opened Rollouts
  import opened Journal
  import opened Revalidation
  import opened Successors
  import opened Runs
  import opened Mutations
  import opened Worlds
  import opened Stores

  /** Who the caller claims to be: the store's owner, the principal that signs and
      the fingerprint of its key. */
  datatype Credentials = Credentials(owner: Digest, principal: Id, signer: Digest)

  /** A fresh query identity and what signing makes of it. */
  datatype Entropy = Entropy(id: Id, nonce: Bytes, bindDigest: bool, wire: Bytes, digest: Digest)

  /** The one-use permission to send one prepared query. */
  datatype Token = Token(store: Digest, sequence: nat, prepared: Prepared)

  /** What the exchange brings back. */
  datatype Reply =
    | Answered(response: QueryResponse, requestChannel: Channel, currentChannel: Channel)
    | Failed(closure: Closure)

  datatype Queried =
    | Response(response: QueryResponse)
    | ClosedWithoutResponse
    | QueryFailed(error: Error)

  // --------------------------------------------------------------------- one commit

  /** At most one commit, and nothing handed to the network or minted. */
  predicate Quiet(w': World, w: World) {
    && w'.queries == w.queries && w'.applies == w.applies && w'.tenures == w.tenures && w'.tokens == w.tokens
    && w.commits <= w'.commits <= w.commits + 1
  }

  lemma PrepareAppends(h: Hashes, s: State, q: QueryRequest, n: State)
    requires Yields(h, s, PrepareQuery(q), n) && !PrepareQueryMove(s, q).Same?
    ensures Appends(n, s, q) && s.binding.Some? && n.rollout.Some?
    ensures n.rollout.value.Last() == Some(Attempt(NewPrepared(q, s.binding.value, s.auth), None, None, None))
  {
    YieldsMove(h, s, PrepareQuery(q), n);
    QueryGuards(s, q, n);
  }

  /** There is no next snapshot for the state. */
  predicate Unsequenced(e: Error) { e == SnapshotSequenceExhausted || e == FreshStateAfterInitialization }

  /** Commits what a call yields. */
  method CommitYield(store: Store, h: Hashes, c: Command, n: State, fate: Fate, ghost minted: Option<QueryRequest>)
    returns (r: Result<()>)
    requires store.Valid() && store.operational && Yields(h, store.snapshot.state, c, n)
    requires minted.Some? ==> Appends(n, store.snapshot.state, minted.value)
    modifies store
    ensures store.Valid()
    ensures store.snapshot.owner == old(store.snapshot).owner && store.snapshot.store == old(store.snapshot).store
    ensures r.Ok? ==> && store.operational && store.snapshot.sequence == old(store.snapshot).sequence + 1
                      && store.snapshot.state == n && store.Now() == Do(old(store.Now()), Publish(n, minted))
    ensures r.Err? ==> Quiet(store.Now(), old(store.Now())) && store.snapshot == old(store.snapshot)
    ensures r.Err? && store.operational ==> store.Now() == old(store.Now()) && Unsequenced(r.error)
    ensures store.disk == old(store.disk) || store.disk.state == n
    ensures Grants(old(store.snapshot), fate) && !c.RotateAuth? ==> r.Ok?
  {
    store.Followed(h, c, n);
    var next := TryNext(store.snapshot, n);
    if next.Err? { return Err(next.error); }
    r := store.Commit(next.value, fate, minted);
  }

  /** One mutator, committed. Either it is durable, or nothing happened, or the
      handle has stopped. It succeeds whenever the call does and the commit goes through,
      and the disk never holds anything but what the call yields. */
  method Record(store: Store, h: Hashes, c: Command, fate: Fate, ghost minted: Option<QueryRequest>) returns (r: Result<()>)
    requires store.Valid() && store.operational
    requires minted.Some? ==> c == PrepareQuery(minted.value) && !PrepareQueryMove(store.snapshot.state, minted.value).Same?
    modifies store
    ensures store.Valid()
    ensures store.snapshot.owner == old(store.snapshot).owner && store.snapshot.store == old(store.snapshot).store
    ensures r.Ok? ==> && store.operational && store.snapshot.sequence == old(store.snapshot).sequence + 1
                      && Yields(h, old(store.snapshot.state), c, store.snapshot.state)
                      && store.Now() == Do(old(store.Now()), Publish(store.snapshot.state, minted))
    ensures r.Err? ==> Quiet(store.Now(), old(store.Now())) && store.snapshot == old(store.snapshot)
    ensures r.Err? && store.operational ==>
              store.Now() == old(store.Now()) && (Unsequenced(r.error) || Fails(h, old(store.snapshot.state), c, r.error))
    ensures store.disk == old(store.disk) || Yields(h, old(store.snapshot.state), c, store.disk.state)
    ensures forall n :: Yields(h, old(store.snapshot.state), c, n) && Grants(old(store.snapshot), fate) && !c.RotateAuth? ==>
              r.Ok? && store.snapshot.state == n
    ensures forall e :: Fails(h, old(store.snapshot.state), c, e) ==> r == Err(e) && store.operational
  {
    ghost var s := store.snapshot.state;
    var n := TryMutate(h, store.snapshot.state, c);
    if n.Err? { return Err(n.error); }
    forall m | Yields(h, s, c, m) ensures m == n.value { YieldsOnce(h, s, c, m, n.value); }
    if minted.Some? { PrepareAppends(h, store.snapshot.state, minted.value, n.value); }
    r := CommitYield(store, h, c, n.value, fate, minted);
  }

  /** The same, but a call that changes nothing commits nothing. */
  method RecordChange(store: Store, h: Hashes, c: Command, fate: Fate) returns (r: Result<()>)
    requires store.Valid() && store.operational
    modifies store
    ensures store.Valid() && Quiet(store.Now(), old(store.Now()))
    ensures store.snapshot.owner == old(store.snapshot).owner && store.snapshot.store == old(store.snapshot).store
    ensures store.snapshot.sequence <= old(store.snapshot).sequence + 1
    ensures r.Ok? ==> store.operational && Yields(h, old(store.snapshot.state), c, store.snapshot.state)
    ensures forall e :: Fails(h, old(store.snapshot.state), c, e) ==> r == Err(e) && store.operational
    ensures r.Err? ==> store.snapshot == old(store.snapshot)
    ensures r.Err? && store.operational ==>
              store.Now() == old(store.Now()) && (Unsequenced(r.error) || Fails(h, old(store.snapshot.state), c, r.error))
    ensures store.disk == old(store.disk) || Yields(h, old(store.snapshot.state), c, store.disk.state)
    ensures forall n :: Yields(h, old(store.snapshot.state), c, n) && Grants(old(store.snapshot), fate) && !c.RotateAuth? ==>
              r.Ok? && store.snapshot.state == n
    ensures Yields(h, old(store.snapshot.state), c, old(store.snapshot.state)) ==>
              r.Ok? && store.snapshot == old(store.snapshot) && store.Now() == old(store.Now())
  {
    ghost var s := store.snapshot.state;
    var n := TryMutate(h, store.snapshot.state, c);
    if n.Err? { return Err(n.error); }
    forall m | Yields(h, s, c, m) ensures m == n.value { YieldsOnce(h, s, c, m, n.value); }
    if n.value == store.snapshot.state { return Ok(()); }
    r := CommitYield(store, h, c, n.value, fate, None);
  }

  // ------------------------------------------------------------------------ prepare

  /** The stored query is the principal's own, under the key pinned with it. */
  predicate DurableQuery(p: Prepared, principal: Id) {
    && p.request.wire != [] && p.request.principal == principal
    && p.request.key == p.auth.key && p.request.algorithm == p.auth.algorithm && p.request.version == p.auth.version
    && p.request.target == p.channel.target && p.request.store == p.baseline.store
  }

  function BuildQuery(s: State, principal: Id, entropy: Entropy): QueryRequest
    requires s.binding.Some? && s.rollout.Some?
  {
    var i := s.rollout.value.intent;
    QueryRequest(entropy.wire, entropy.id, entropy.digest, entropy.nonce, i.target, s.scope, s.binding.value.store, i.operation,
                 if entropy.bindDigest then Some(i.digest) else None, principal, s.auth.key, s.auth.algorithm,
                 s.auth.version, MAX_QUERY_RESPONSE_BYTES)
  }

  /** Why no fresh query may be prepared now. */
  function PrepareObjection(x: Snapshot, who: Credentials): Option<Error> {
    var last := LastAttempt(x.state);
    if x.owner != who.owner then Some(OwnerIdentityMismatch)
    else if last.Some? && !DurableQuery(last.value.prepared, who.principal) then Some(StoredRequestMismatch)
    else if last.Some? && last.value.observation.Some? && last.value.decision.None? then Some(DurableQueryAwaitingDecision)
    else if last.Some? && last.value.Open() then Some(UnresolvedQueryUncertain)
    else if x.state.auth.fingerprint != who.signer then Some(SigningKeyMismatch)
    else if x.state.binding.None? || x.state.rollout.None? then Some(DanglingRollout)
    else None
  }

  /** In a valid state a stored query is durable for the principal that signed it, and
      for nobody else. */
  lemma DurableIff(s: State, principal: Id)
    requires EvidenceValid(s) && LastAttempt(s).Some?
    ensures DurableQuery(LastAttempt(s).value.prepared, principal) <==>
              LastAttempt(s).value.prepared.request.principal == principal
  {
    var r := s.rollout.value;
    assert AttemptLineage(r, |r.attempts| - 1, s.binding.value, s.scope);
  }

  /** The caller owns the store, holds the pinned key, and made the last query itself. */
  predicate MayPrepare(x: Snapshot, who: Credentials) {
    && x.owner == who.owner && x.state.rollout.Some? && x.state.auth.fingerprint == who.signer
    && (LastAttempt(x.state).Some? ==>
          LastAttempt(x.state).value.Resolved() && LastAttempt(x.state).value.prepared.request.principal == who.principal)
  }

  /** A fresh query may be prepared exactly by such a caller, with the last query
      resolved. */
  lemma PrepareAllowed(x: Snapshot, who: Credentials)
    requires EvidenceValid(x.state)
    ensures PrepareObjection(x, who).None? <==> MayPrepare(x, who)
  {
    if LastAttempt(x.state).Some? {
      DurableIff(x.state, who.principal);
      assert LastAttempt(x.state).value in x.state.rollout.value.attempts;
      assert AttemptValid(LastAttempt(x.state).value);
    }
  }

  lemma NotOpenNotSame(s: State, q: QueryRequest)
    requires LastAttempt(s).Some? ==> !LastAttempt(s).value.Open()
    ensures !PrepareQueryMove(s, q).Same?
  {
  }

  /** Makes the query durable and only then returns the permission to send it. */
  method RecordQuery(store: Store, h: Hashes, q: QueryRequest, fate: Fate) returns (r: Result<Token>)
    requires store.Valid() && store.operational && !PrepareQueryMove(store.snapshot.state, q).Same?
    modifies store
    ensures store.Valid()
    ensures store.snapshot.owner == old(store.snapshot).owner && store.snapshot.store == old(store.snapshot).store
    ensures r.Ok? ==> && store.operational && store.snapshot.sequence == old(store.snapshot).sequence + 1
                      && Yields(h, old(store.snapshot.state), PrepareQuery(q), store.snapshot.state)
                      && store.Now() == Do(old(store.Now()), Publish(store.snapshot.state, Some(q)))
                      && FreshLast(old(store.snapshot.state), q, store.snapshot.state)
                      && r.value == Token(store.snapshot.store, store.snapshot.sequence,
                                          LastAttempt(store.snapshot.state).value.prepared)
    ensures r.Err? ==> Quiet(store.Now(), old(store.Now())) && store.snapshot == old(store.snapshot)
    ensures r.Err? && store.operational ==> store.Now() == old(store.Now())
    ensures store.disk == old(store.disk) || FreshLast(old(store.snapshot.state), q, store.disk.state)
    ensures Grants(old(store.snapshot), fate) ==>
              forall n :: Yields(h, old(store.snapshot.state), PrepareQuery(q), n) ==> r.Ok? && store.snapshot.state == n
  {
    ghost var s := store.snapshot.state;
    var done := Record(store, h, PrepareQuery(q), fate, Some(q));
    PreparedLast(h, s, q, store.disk.state);
    if done.Err? { return Err(done.error); }
    r := Ok(Token(store.snapshot.store, store.snapshot.sequence, LastAttempt(store.snapshot.state).value.prepared));
  }

  /** The last attempt of `n` is the open query `q`, pinned to what `s` was bound to. */
  predicate FreshLast(s: State, q: QueryRequest, n: State) {
    && s.binding.Some?
    && LastAttempt(n) == Some(Attempt(NewPrepared(q, s.binding.value, s.auth), None, None, None))
  }

  lemma PreparedLast(h: Hashes, s: State, q: QueryRequest, n: State)
    requires !PrepareQueryMove(s, q).Same?
    ensures Yields(h, s, PrepareQuery(q), n) ==> FreshLast(s, q, n)
  {
    if Yields(h, s, PrepareQuery(q), n) { PrepareAppends(h, s, q, n); }
  }

  /** Prepares one fresh query. An unresolved earlier query is never replaced. */
  method PrepareFresh(store: Store, h: Hashes, who: Credentials, entropy: Entropy, fate: Fate) returns (r: Result<Token>)
    requires store.Valid()
    modifies store
    ensures store.Valid()
    ensures store.snapshot.owner == old(store.snapshot).owner && store.snapshot.store == old(store.snapshot).store
    ensures r.Ok? ==> && store.operational && old(store.operational) && PrepareObjection(old(store.snapshot), who).None?
                      && store.snapshot.sequence == old(store.snapshot).sequence + 1
                      && r.value.store == store.snapshot.store && r.value.sequence == store.snapshot.sequence
                      && OpenQuery(store.snapshot.state, r.value.prepared.request)
                      && LastAttempt(store.snapshot.state).value.prepared == r.value.prepared
                      && store.Now() == Do(old(store.Now()), Publish(store.snapshot.state, Some(r.value.prepared.request)))
    ensures r.Ok? ==> var s := old(store.snapshot.state); var q := BuildQuery(s, who.principal, entropy);
                      && Yields(h, s, PrepareQuery(q), store.snapshot.state) && FreshLast(s, q, store.snapshot.state)
                      && q.id == entropy.id && q.digest == entropy.digest && q.nonce == entropy.nonce
                      && q.wire == entropy.wire && q.principal == who.principal
    ensures r.Err? ==> Quiet(store.Now(), old(store.Now())) && store.snapshot == old(store.snapshot)
    ensures r.Err? && store.operational ==> store.Now() == old(store.Now())
    ensures old(store.operational) && PrepareObjection(old(store.snapshot), who).Some? ==>
              r == Err(PrepareObjection(old(store.snapshot), who).value) && store.operational
    ensures store.disk == old(store.disk) || OpenLast(store.disk.state)
    ensures old(store.operational) && PrepareObjection(old(store.snapshot), who).None? && Grants(old(store.snapshot), fate) ==>
              var s := old(store.snapshot.state);
              forall n :: Yields(h, s, PrepareQuery(BuildQuery(s, who.principal, entropy)), n) ==>
                r.Ok? && store.snapshot.state == n
  {
    if !store.operational { return Err(StoreStopped); }
    var s := store.snapshot.state;
    var objection := PrepareObjection(store.snapshot, who);
    if objection.Some? { return Err(objection.value); }
    var q := BuildQuery(s, who.principal, entropy);
    NotOpenNotSame(s, q);
    r := RecordQuery(store, h, q, fate);
  }

  /** What a freshly prepared query satisfies by construction when it is read back. */
  lemma PreparedIsDurable(h: Hashes, s: State, principal: Id, entropy: Entropy, n: State)
    requires s.binding.Some? && s.rollout.Some?
    requires var q := BuildQuery(s, principal, entropy);
             Yields(h, s, PrepareQuery(q), n) && !PrepareQueryMove(s, q).Same?
    ensures LastAttempt(n).Some? && DurableQuery(LastAttempt(n).value.prepared, principal)
  {
    var q := BuildQuery(s, principal, entropy);
    PrepareAppends(h, s, q, n);
    YieldsMove(h, s, PrepareQuery(q), n);
    QueryGuards(s, q, n);
  }

  // ------------------------------------------------------------ what commands leave

  lemma CloseMoves(s: State, closure: Closure)
    requires !CloseQueryMove(s, closure).Refuse?
    ensures var n := MovedTo(CloseQueryMove(s, closure), s);
            && LastAttempt(n).Some? && LastAttempt(n).value.closure == Some(closure)
            && LastAttempt(n).value.observation.None? && LastAttempt(n).value.decision.None?
  {
  }

  lemma CloseLeaves(h: Hashes, s: State, closure: Closure, n: State)
    requires Yields(h, s, CloseQuery(closure), n)
    ensures LastAttempt(n).Some? && LastAttempt(n).value.closure == Some(closure)
    ensures LastAttempt(n).value.observation.None? && LastAttempt(n).value.decision.None?
  {
    YieldsMove(h, s, CloseQuery(closure), n);
    CloseMoves(s, closure);
  }

  lemma ResponseMoves(s: State, response: QueryResponse, channel: Channel)
    requires !RecordResponseMove(s, response, channel).Refuse?
    ensures var n := MovedTo(RecordResponseMove(s, response, channel), s);
            && LastAttempt(n).Some? && LastAttempt(n).value.observation == Some(Observation(response, channel))
            && LastAttempt(s).Some? && LastAttempt(n).value.prepared == LastAttempt(s).value.prepared
            && LastAttempt(n).value.decision == LastAttempt(s).value.decision
  {
  }

  // ----------------------------------------------------------------------- exchange

  /** The answer came over another channel, or answers another query. */
  predicate Foreign(a: Attempt, response: QueryResponse, requestChannel: Channel, currentChannel: Channel) {
    || requestChannel != a.prepared.channel || currentChannel != a.prepared.channel
    || response.id != a.prepared.request.id
  }

  /** What a reply to the open query `a` makes durable: its closure, if it failed or is
      foreign, or the answer. */
  function ReplyCommand(a: Attempt, reply: Reply): Command {
    match reply
    case Failed(closure) => CloseQuery(closure)
    case Answered(response, requestChannel, currentChannel) =>
      if Foreign(a, response, requestChannel, currentChannel) then CloseQuery(ResponseRejected)
      else RecordResponse(response, currentChannel)
  }

  /** And what is reported then. */
  function ReplyResult(a: Attempt, reply: Reply): Queried {
    var c := ReplyCommand(a, reply);
    if c.RecordResponse? then Response(c.response) else ClosedWithoutResponse
  }

  /** The query as the reply leaves it: answered with the response, or closed with the
      kind of failure there was. */
  predicate LeftBy(a: Attempt, reply: Reply, n: State) {
    && LastAttempt(n).Some?
    && var last := LastAttempt(n).value;
    && last.decision.None? && last.prepared == a.prepared
    && match ReplyResult(a, reply)
       case Response(response) => last.observation.Some? && last.observation.value.response == response
       case ClosedWithoutResponse => last.closure == Some(if reply.Failed? then reply.closure else ResponseRejected)
       case QueryFailed(_) => false
  }

  lemma ReplyLeaves(h: Hashes, s: State, reply: Reply, n: State)
    requires OpenLast(s) && Yields(h, s, ReplyCommand(LastAttempt(s).value, reply), n)
    ensures LeftBy(LastAttempt(s).value, reply, n)
  {
    var c := ReplyCommand(LastAttempt(s).value, reply);
    YieldsMove(h, s, c, n);
    if c.CloseQuery? { CloseMoves(s, c.closure); } else { ResponseMoves(s, c.response, c.channel); }
  }

  /** The last query is open. */
  predicate OpenLast(s: State) { LastAttempt(s).Some? && LastAttempt(s).value.Open() }

  /** Commits an answer that the client has verified, or closes the query when the
      answer belongs to another channel or query. */
  method CommitResponse(store: Store, h: Hashes, response: QueryResponse, requestChannel: Channel,
                        currentChannel: Channel, fate: Fate) returns (r: Queried)
    requires store.Valid() && store.operational
    modifies store
    ensures store.Valid() && Quiet(store.Now(), old(store.Now()))
    ensures store.snapshot.owner == old(store.snapshot).owner && store.snapshot.store == old(store.snapshot).store
    ensures store.snapshot.sequence <= old(store.snapshot).sequence + 1
    ensures LastAttempt(old(store.snapshot.state)).None? ==>
              r == QueryFailed(MissingDurableQuery) && store.disk == old(store.disk)
    ensures LastAttempt(old(store.snapshot.state)).Some?
            && LastAttempt(old(store.snapshot.state)).value.observation.Some? ==>
              && r == Response(LastAttempt(old(store.snapshot.state)).value.observation.value.response)
              && store.snapshot == old(store.snapshot) && store.Now() == old(store.Now())
    ensures LastAttempt(old(store.snapshot.state)).Some?
            && LastAttempt(old(store.snapshot.state)).value.observation.None? ==>
              ReplyDurable(store.operational, store.snapshot.state, store.disk.state, old(store.snapshot), fate, h,
                       Answered(response, requestChannel, currentChannel), r)
  {
    var s := store.snapshot.state;
    if LastAttempt(s).None? { return QueryFailed(MissingDurableQuery); }
    var a := LastAttempt(s).value;
    if a.observation.Some? { return Response(a.observation.value.response); }
    if requestChannel != a.prepared.channel || currentChannel != a.prepared.channel || response.id != a.prepared.request.id {
      r := CommitClosure(store, h, ResponseRejected, fate);
      return;
    }
    var done := Record(store, h, RecordResponse(response, currentChannel), fate, None);
    if done.Err? { return QueryFailed(done.error); }
    r := Response(response);
  }

  /** Either the failure is reported, or the reply's command is durable and its result
      reported; the disk holds nothing else, and if nothing but the command can fail and
      it succeeds, so does this. */
  ghost predicate ReplyDurable(live: bool, n: State, disk: State, x: Snapshot, fate: Fate, h: Hashes, reply: Reply, r: Queried) {
    && LastAttempt(x.state).Some?
    && var a := LastAttempt(x.state).value; var c := ReplyCommand(a, reply);
    && (r.QueryFailed? || (live && r == ReplyResult(a, reply) && Yields(h, x.state, c, n)))
    && (disk == x.state || Yields(h, x.state, c, disk))
    && (Grants(x, fate) ==> forall m :: Yields(h, x.state, c, m) ==> r == ReplyResult(a, reply) && n == m)
  }

  /** Closes a query that got no answer. */
  method CommitClosure(store: Store, h: Hashes, closure: Closure, fate: Fate) returns (r: Queried)
    requires store.Valid() && store.operational
    modifies store
    ensures store.Valid() && Quiet(store.Now(), old(store.Now())) && !r.Response?
    ensures store.snapshot.owner == old(store.snapshot).owner && store.snapshot.store == old(store.snapshot).store
    ensures store.snapshot.sequence <= old(store.snapshot).sequence + 1
    ensures r.ClosedWithoutResponse? ==> && store.operational && LastAttempt(store.snapshot.state).Some?
                                         && LastAttempt(store.snapshot.state).value.closure == Some(closure)
                                         && Yields(h, old(store.snapshot.state), CloseQuery(closure), store.snapshot.state)
    ensures store.disk == old(store.disk) || Yields(h, old(store.snapshot.state), CloseQuery(closure), store.disk.state)
    ensures Grants(old(store.snapshot), fate) ==>
              forall n :: Yields(h, old(store.snapshot.state), CloseQuery(closure), n) ==>
                r == ClosedWithoutResponse && store.snapshot.state == n
  {
    ghost var s := store.snapshot.state;
    var closed := Record(store, h, CloseQuery(closure), fate, None);
    if closed.Err? { return QueryFailed(closed.error); }
    CloseLeaves(h, s, closure, store.snapshot.state);
    r := ClosedWithoutResponse;
  }

  /** Why a token no longer permits sending. */
  function TokenObjection(x: Snapshot, t: Token): Option<Error> {
    var last := LastAttempt(x.state);
    if t.store != x.store || t.sequence > x.sequence then Some(PreparedAttemptMismatch)
    else if last.None? then Some(MissingDurableQuery)
    else if t.prepared.request != last.value.prepared.request || t.prepared.channel != last.value.prepared.channel
            || t.prepared.runtimeAuth.key != last.value.prepared.runtimeAuth.key
            || t.prepared.runtimeAuth.algorithm != last.value.prepared.runtimeAuth.algorithm
            || t.prepared.runtimeAuth.version != last.value.prepared.runtimeAuth.version
            || t.prepared.baseline != last.value.prepared.baseline
    then Some(PreparedAttemptMismatch)
    else if !last.value.Open() then Some(PreparedAttemptNoLongerOpen)
    else None
  }

  /** A token stands exactly while its own query is the open one, in its own store, under
      the channel, Runtime key and baseline it was prepared with. */
  lemma TokenStands(x: Snapshot, t: Token)
    ensures TokenObjection(x, t).None? <==>
              && t.store == x.store && t.sequence <= x.sequence && OpenQuery(x.state, t.prepared.request)
              && var p := LastAttempt(x.state).value.prepared;
                 && p.channel == t.prepared.channel && p.baseline == t.prepared.baseline
                 && p.runtimeAuth.key == t.prepared.runtimeAuth.key
                 && p.runtimeAuth.algorithm == t.prepared.runtimeAuth.algorithm
                 && p.runtimeAuth.version == t.prepared.runtimeAuth.version
  {
  }

  /** Records what the exchange about the open query brought back. */
  method CommitReply(store: Store, h: Hashes, reply: Reply, fate: Fate) returns (r: Queried)
    requires store.Valid() && store.operational && OpenLast(store.snapshot.state)
    modifies store
    ensures store.Valid() && Quiet(store.Now(), old(store.Now()))
    ensures store.snapshot.owner == old(store.snapshot).owner && store.snapshot.store == old(store.snapshot).store
    ensures store.snapshot.sequence <= old(store.snapshot).sequence + 1
    ensures ReplyDurable(store.operational, store.snapshot.state, store.disk.state, old(store.snapshot), fate, h, reply, r)
    ensures !r.QueryFailed? ==> LeftBy(LastAttempt(old(store.snapshot.state)).value, reply, store.snapshot.state)
    ensures store.disk == old(store.disk)
            || (LastAttempt(store.disk.state).Some? && LastAttempt(store.disk.state).value.decision.None?)
  {
    ghost var s := store.snapshot.state;
    match reply {
      case Answered(response, requestChannel, currentChannel) =>
        r := CommitResponse(store, h, response, requestChannel, currentChannel, fate);
      case Failed(closure) =>
        r := CommitClosure(store, h, closure, fate);
    }
    ReplyRecorded(h, s, reply, store.disk.state);
    ReplyRecorded(h, s, reply, store.snapshot.state);
  }

  /** Consumes the token: at most one exchange, at most one commit after it. With a token
      that still stands, what the exchange brings back is recorded and reported. */
  method QueryOnce(store: Store, h: Hashes, token: Token, reply: Reply, fate: Fate) returns (r: Queried)
    requires store.Valid() && token.prepared.request in store.Now().tokens
    modifies store
    ensures store.Valid()
    ensures store.snapshot.owner == old(store.snapshot).owner && store.snapshot.store == old(store.snapshot).store
    ensures store.snapshot.sequence <= old(store.snapshot).sequence + 1
    ensures store.Now().commits <= old(store.Now()).commits + 1
    ensures store.Now().tokens == old(store.Now()).tokens - multiset{token.prepared.request}
    ensures if old(store.operational) && TokenObjection(old(store.snapshot), token).None? then
              && OpenQuery(old(store.snapshot.state), token.prepared.request)
              && store.Now().queries == old(store.Now()).queries
                                        + [Sending(token.prepared.request, |old(store.Now()).past| - 1)]
              && ReplyDurable(store.operational, store.snapshot.state, store.disk.state, old(store.snapshot), fate, h, reply, r)
            else
              && r == QueryFailed(if old(store.operational) then TokenObjection(old(store.snapshot), token).value
                                  else StoreStopped)
              && store.Now().queries == old(store.Now()).queries
              && store.snapshot == old(store.snapshot) && store.disk == old(store.disk)
    ensures r.Response? ==> && store.operational && LastAttempt(store.snapshot.state).Some?
                            && LastAttempt(store.snapshot.state).value.observation.Some?
                            && LastAttempt(store.snapshot.state).value.observation.value.response == r.response
                            && LastAttempt(store.snapshot.state).value.decision.None?
                            && LastAttempt(store.snapshot.state).value.prepared.request == token.prepared.request
    ensures r.ClosedWithoutResponse? ==> && store.operational && LastAttempt(store.snapshot.state).Some?
                                         && LastAttempt(store.snapshot.state).value.closure ==
                                            Some(if reply.Failed? then reply.closure else ResponseRejected)
    ensures store.disk == old(store.disk)
            || (LastAttempt(store.disk.state).Some? && LastAttempt(store.disk.state).value.decision.None?)
  {
    var objection := if !store.operational then Some(StoreStopped) else TokenObjection(store.snapshot, token);
    if objection.Some? {
      store.Log(DropToken(token.prepared.request));
      return QueryFailed(objection.value);
    }
    store.Log(SendQuery(token.prepared.request));
    r := CommitReply(store, h, reply, fate);
  }

  lemma ReplyRecorded(h: Hashes, s: State, reply: Reply, n: State)
    requires OpenLast(s)
    ensures Yields(h, s, ReplyCommand(LastAttempt(s).value, reply), n) ==> LeftBy(LastAttempt(s).value, reply, n)
  {
    if Yields(h, s, ReplyCommand(LastAttempt(s).value, reply), n) { ReplyLeaves(h, s, reply, n); }
  }
}
