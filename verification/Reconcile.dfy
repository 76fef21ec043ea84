/**
 One bounded reconcile invocation: recover, replay or classify what is durable, or
 make one fresh query, send it once and decide.
 */
module Reconciling {
  import opened Types
  import opened Rollouts
  import opened Sizes
  import opened Journal
  import opened Revalidation
  import opened Successors
  import opened Worlds
  import opened Mutations
  import opened Stores
  import opened Classifier
  import opened Queries

  /** The read-only view of an undecided query. It gives no permission to send. */
  datatype Recovered = Recovered(store: Digest, sequence: nat, request: QueryRequest,
                                 response: Option<QueryResponse>, closure: Option<Closure>)

  function Recover(x: Snapshot, who: Credentials): Result<Option<Recovered>> {
    var last := LastAttempt(x.state);
    if x.owner != who.owner then Err(OwnerIdentityMismatch)
    else if last.None? || last.value.decision.Some? then Ok(None)
    else if !DurableQuery(last.value.prepared, who.principal) then Err(StoredRequestMismatch)
    else if last.value.prepared.auth.fingerprint != who.signer then Err(SigningKeyMismatch)
    else
      var a := last.value;
      var response := if a.observation.Some? then Some(a.observation.value.response) else None;
      Ok(Some(Recovered(x.store, x.sequence, a.prepared.request, response, a.closure)))
  }

  /** The caller owns the store and, if a query awaits its end, made it with the key it
      still holds. */
  predicate MayRecover(x: Snapshot, who: Credentials) {
    && x.owner == who.owner
    && (LastAttempt(x.state).Some? && LastAttempt(x.state).value.decision.None? ==>
          && LastAttempt(x.state).value.prepared.request.principal == who.principal
          && LastAttempt(x.state).value.prepared.auth.fingerprint == who.signer)
  }

  /** Recovery works exactly for such a caller, and shows the undecided query as it is. */
  lemma RecoverAllowed(x: Snapshot, who: Credentials)
    requires EvidenceValid(x.state)
    ensures Recover(x, who).Ok? <==> MayRecover(x, who)
    ensures Recover(x, who).Ok? ==>
              var last := LastAttempt(x.state); var was := Recover(x, who).value;
              if last.None? || last.value.decision.Some? then was == None
              else && was.Some? && was.value.store == x.store && was.value.sequence == x.sequence
                   && was.value.request == last.value.prepared.request && was.value.closure == last.value.closure
                   && (was.value.response.Some? <==> last.value.observation.Some?)
                   && (was.value.response.Some? ==> was.value.response.value == last.value.observation.value.response)
  {
    if LastAttempt(x.state).Some? { DurableIff(x.state, who.principal); }
  }

  /** What was seen open is now closed for lack of permission, in the very next snapshot. */
  predicate ClosedSince(was: Recovered, current: Recovered) {
    current == was.(sequence := was.sequence + 1, closure := Some(ResidentAuthorityLost)) && was.response.None? && was.closure.None?
  }

  /** Records durably that the permission to send was lost with the process that
      held it. */
  method CloseRecovered(store: Store, h: Hashes, who: Credentials, was: Recovered, fate: Fate) returns (r: Result<()>)
    requires store.Valid()
    modifies store
    ensures store.Valid() && Quiet(store.Now(), old(store.Now()))
    ensures store.snapshot.owner == old(store.snapshot).owner && store.snapshot.store == old(store.snapshot).store
    ensures r.Ok? ==> && store.operational && LastAttempt(store.snapshot.state).Some?
                      && LastAttempt(store.snapshot.state).value.closure == Some(ResidentAuthorityLost)
    ensures r.Ok? && OpenLast(old(store.snapshot.state)) ==> ClosedLost(store.snapshot.state)
    ensures r.Err? ==> store.snapshot == old(store.snapshot)
    ensures store.disk == old(store.disk) || ClosedLost(store.disk.state)
    ensures old(store.operational) && Recover(old(store.snapshot), who) == Ok(Some(was)) && Grants(old(store.snapshot), fate)
            && OpenLast(old(store.snapshot.state)) ==>
              forall n :: Yields(h, old(store.snapshot.state), CloseQuery(ResidentAuthorityLost), n) ==>
                r.Ok? && store.snapshot.state == n
    ensures old(store.operational) && was.store == old(store.snapshot).store && ClosedLost(old(store.snapshot.state)) ==>
              forall now :: Recover(old(store.snapshot), who) == Ok(Some(now)) && (now == was || ClosedSince(was, now)) ==>
                r.Ok? && store.snapshot == old(store.snapshot) && store.Now() == old(store.Now())
  {
    if !store.operational { return Err(StoreStopped); }
    var s := store.snapshot.state;
    var recovered := Recover(store.snapshot, who);
    if recovered.Err? { return Err(recovered.error); }
    if recovered.value.None? || was.store != store.snapshot.store { return Err(RecoveredQueryEvidenceChanged); }
    var current := recovered.value.value;
    var lost := current.response.None? && current.closure == Some(ResidentAuthorityLost);
    if current.request != was.request { return Err(RecoveredQueryEvidenceChanged); }
    if current != was {
      var closedSince := && was.response.None? && was.closure.None? && current.sequence == was.sequence + 1;
      return if closedSince && lost then Ok(()) else Err(RecoveredQueryEvidenceChanged);
    }
    if lost { return Ok(()); }
    if current.response.Some? || current.closure.Some? { return Err(RecoveredQueryEvidenceChanged); }
    r := Record(store, h, CloseQuery(ResidentAuthorityLost), fate, None);
    LostClosed(h, s, store.snapshot.state);
    LostClosed(h, s, store.disk.state);
  }

  /** The query was closed because nobody may send it any more. */
  predicate ClosedLost(s: State) {
    && LastAttempt(s).Some? && LastAttempt(s).value.closure == Some(ResidentAuthorityLost)
    && LastAttempt(s).value.observation.None? && LastAttempt(s).value.decision.None?
  }

  lemma LostClosed(h: Hashes, s: State, n: State)
    ensures Yields(h, s, CloseQuery(ResidentAuthorityLost), n) ==> ClosedLost(n)
  {
    if Yields(h, s, CloseQuery(ResidentAuthorityLost), n) { CloseLeaves(h, s, ResidentAuthorityLost, n); }
  }

  // ---------------------------------------------------------------------- decisions

  /** The last attempt is decided exactly as `v` says. */
  predicate Decided(s: State, v: Verdict) {
    && LastAttempt(s).Some? && LastAttempt(s).value.decision.Some?
    && LastAttempt(s).value.decision.value.observed == v.Observed()
    && LastAttempt(s).value.decision.value.receipt == v.Receipt()
  }

  lemma DecideMoves(s: State, v: Verdict)
    requires !DecideMove(s, v.Observed(), v.Receipt()).Refuse?
    ensures Decided(MovedTo(DecideMove(s, v.Observed(), v.Receipt()), s), v)
  {
  }

  lemma DecideLeaves(h: Hashes, s: State, v: Verdict, n: State)
    requires Yields(h, s, v.Command(), n)
    ensures Decided(n, v)
  {
    YieldsMove(h, s, v.Command(), n);
    DecideMoves(s, v);
  }

  /** A durable terminal verdict that still classifies to itself will be replayed. */
  lemma DecidedReplays(h: Hashes, s: State, v: Verdict)
    requires Decided(s, v) && LastAttempt(s).value.observation.Some? && Verdicts(h, s) == Ok(v) && v.IsTerminal()
    ensures Replays(h, s, v)
  {
  }

  lemma DecideKeepsAnswer(s: State, v: Verdict)
    requires Undecided(s) && !DecideMove(s, v.Observed(), v.Receipt()).Refuse?
    ensures var n := MovedTo(DecideMove(s, v.Observed(), v.Receipt()), s);
            && LastAttempt(n).Some? && LastAttempt(n).value.observation == LastAttempt(s).value.observation
            && LastAttempt(n).value.prepared == LastAttempt(s).value.prepared
            && n.rollout.Some? && n == s.(rollout := n.rollout) && n.rollout.value.intent == s.rollout.value.intent
            && n.rollout.value.direct == s.rollout.value.direct
  {
  }

  /** Deciding leaves the classification as it was. */
  lemma DecideKeepsVerdict(h: Hashes, s: State, v: Verdict, n: State)
    requires Undecided(s)
    ensures Yields(h, s, v.Command(), n) ==>
              && LastAttempt(n).Some? && LastAttempt(n).value.observation.Some? && Decided(n, v)
              && Verdicts(h, n) == Verdicts(h, s)
  {
    if Yields(h, s, v.Command(), n) {
      YieldsMove(h, s, v.Command(), n);
      DecideMoves(s, v);
      DecideKeepsAnswer(s, v);
    }
  }

  /** Makes a verdict durable and reads it back. */
  method CommitDecision(store: Store, h: Hashes, v: Verdict, fate: Fate) returns (r: Result<Verdict>)
    requires store.Valid() && store.operational
    modifies store
    ensures store.Valid() && Quiet(store.Now(), old(store.Now()))
    ensures store.snapshot.owner == old(store.snapshot).owner && store.snapshot.store == old(store.snapshot).store
    ensures r.Ok? ==> r.value == v && store.operational && Decided(store.snapshot.state, v)
    ensures r.Ok? && v.IsTerminal() && Undecided(old(store.snapshot.state)) ==> Replays(h, store.snapshot.state, v)
    ensures forall e :: Fails(h, old(store.snapshot.state), v.Command(), e) ==>
              r == Err(e) && store.snapshot == old(store.snapshot) && store.Now() == old(store.Now())
    ensures store.disk == old(store.disk) || Yields(h, old(store.snapshot.state), v.Command(), store.disk.state)
    ensures Undecided(old(store.snapshot.state)) && Verdicts(h, old(store.snapshot.state)) == Ok(v)
            && Grants(old(store.snapshot), fate) ==>
              forall n :: Yields(h, old(store.snapshot.state), v.Command(), n) ==> r == Ok(v) && store.snapshot.state == n
  {
    ghost var s := store.snapshot.state;
    var before := store.snapshot;
    var done := RecordChange(store, h, v.Command(), fate);
    if done.Err? { return Err(done.error); }
    DecideLeaves(h, s, v, store.snapshot.state);
    if store.snapshot == before { return Ok(v); }
    if Undecided(s) { DecideKeepsVerdict(h, s, v, store.snapshot.state); }
    var durable := LastAttempt(store.snapshot.state).value;
    if durable.observation.None? || Verdicts(h, store.snapshot.state) != Ok(v) { return Err(DecisionPersistenceMismatch); }
    if v.IsTerminal() { DecidedReplays(h, store.snapshot.state, v); }
    r := Ok(v);
  }

  // ------------------------------------------------------------------ one invocation

  predicate Settles(s: State) {
    LastAttempt(s).Some? && s.binding.Some? && DecidedCurrent(LastAttempt(s).value, s.binding.value)
  }

  lemma ReplaySame(h: Hashes, s: State, v: Verdict)
    requires EvidenceValid(s) && Replays(h, s, v)
    ensures Settles(s) && DecideMove(s, v.Observed(), v.Receipt()) == Same
  {
    var r := s.rollout.value;
    LastLineage(s);
    assert LastAttempt(s).value in r.attempts;
    if Conflicted(r) { ConflictIsLastAndUndecided(r); }
  }

  lemma ReplayYields(h: Hashes, s: State, v: Verdict, n: State)
    requires Yields(h, s, v.Command(), n) && DecideMove(s, v.Observed(), v.Receipt()) == Same
    ensures n == s
  {
    YieldsMove(h, s, v.Command(), n);
  }

  lemma SameYields(h: Hashes, s: State, v: Verdict)
    requires DecideMove(s, v.Observed(), v.Receipt()) == Same
    ensures Yields(h, s, v.Command(), s)
  {
    SameMoveYields(h, s, v.Command());
  }

  /** Returns the committed terminal verdict again, if classification still agrees. */
  method Replay(h: Hashes, s: State) returns (r: Result<Verdict>)
    requires Settles(s)
    ensures r.Ok? ==> r.value.IsTerminal() && Decided(s, r.value) && Replays(h, s, r.value)
    ensures forall v :: EvidenceValid(s) && Replays(h, s, v) ==> r == Ok(v)
  {
    var again := Verdicts(h, s);
    if again.Err? { return again; }
    var v := again.value;
    if EvidenceValid(s) && Replays(h, s, v) {
      ReplaySame(h, s, v);
      SameYields(h, s, v);
      forall n | Yields(h, s, v.Command(), n) ensures n == s { ReplayYields(h, s, v, n); }
    }
    var n := TryMutate(h, s, v.Command());
    if n.Err? || n.value != s || !v.IsTerminal() { return Err(DecisionPersistenceMismatch); }
    DecideLeaves(h, s, v, s);
    DecidedReplays(h, s, v);
    r := Ok(v);
  }

  // ------------------------------------------------------- what an answer comes down to

  /** The state in which the undecided answer is decided with `v`. */
  function WithVerdict(s: State, v: Verdict): State
    requires Undecided(s)
  {
    WithLast(s, Recorded(s, v))
  }

  /** The classifier's verdict on the durable answer is one the journal records: no
      standing receipt rules it out, and the result fits. */
  predicate Decidable(h: Hashes, s: State, v: Verdict) {
    Undecided(s) && Verdicts(h, s) == Ok(v) && Accepted(s, v) && SizeFits(WithVerdict(s, v))
  }

  lemma DecidableMoves(h: Hashes, s: State, v: Verdict)
    requires Valid(s) && Decidable(h, s, v)
    ensures MoveOf(h, s, v.Command()) == Next(WithVerdict(s, v)) && Valid(WithVerdict(s, v))
  {
    ClassifierAgrees(h, s);
    DecideIsMove(h, s, v);
    DecideGuards(s, v.Observed(), v.Receipt(), DecideMove(s, v.Observed(), v.Receipt()).state);
  }

  lemma DecidableYields(h: Hashes, s: State, v: Verdict)
    requires Valid(s) && Decidable(h, s, v)
    ensures Yields(h, s, v.Command(), WithVerdict(s, v))
  {
    DecidableMoves(h, s, v);
    ApplyNext(h, s, v.Command(), WithVerdict(s, v), true);
    YieldsApply(h, s, v.Command(), WithVerdict(s, v));
  }

  /** If the last query is decided, it is decided as the classifier says. */
  predicate DecidedByVerdict(h: Hashes, s: State) {
    var fits :=
      && LastAttempt(s).Some?
      && (LastAttempt(s).value.decision.Some? ==>
            && LastAttempt(s).value.observation.Some? && Verdicts(h, s).Ok? && Decided(s, Verdicts(h, s).value));
    fits
  }

  /** What an outcome promises about the durable state: the very decision, which is the
      classifier's own, or for Uncertain possibly a query closed without an answer. */
  predicate Definite(h: Hashes, s: State, v: Verdict) {
    var definite :=
      || (Decided(s, v) && LastAttempt(s).value.observation.Some? && Verdicts(h, s) == Ok(v))
      || (v.VUncertain? && LastAttempt(s).Some? && LastAttempt(s).value.closure.Some?);
    definite
  }

  /** Classifies the durable answer and makes the verdict durable: the classifier's verdict
      and no other, on the disk as well, and always when the journal records it. */
  method DecideAnswer(store: Store, h: Hashes, q: QueryRequest, response: QueryResponse, fate: Fate)
    returns (r: Result<Verdict>)
    requires store.Valid() && store.operational && Undecided(store.snapshot.state)
    requires q == LastAttempt(store.snapshot.state).value.prepared.request
    requires response == LastAttempt(store.snapshot.state).value.observation.value.response
    modifies store
    ensures store.Valid() && Quiet(store.Now(), old(store.Now()))
    ensures store.snapshot.owner == old(store.snapshot).owner && store.snapshot.store == old(store.snapshot).store
    ensures r.Ok? ==> && store.operational && Verdicts(h, old(store.snapshot.state)) == Ok(r.value)
                      && Definite(h, store.snapshot.state, r.value) && Decided(store.snapshot.state, r.value)
    ensures r.Ok? && r.value.IsTerminal() ==> Replays(h, store.snapshot.state, r.value)
    ensures Verdicts(h, old(store.snapshot.state)).Err? ==>
              && r == Verdicts(h, old(store.snapshot.state))
              && store.snapshot == old(store.snapshot) && store.Now() == old(store.Now())
    ensures store.disk == old(store.disk)
            || (&& Verdicts(h, old(store.snapshot.state)).Ok? && DecidedByVerdict(h, store.disk.state)
                && Decided(store.disk.state, Verdicts(h, old(store.snapshot.state)).value))
    ensures forall v :: Decidable(h, old(store.snapshot.state), v) && Grants(old(store.snapshot), fate) ==>
              r == Ok(v) && store.snapshot.state == WithVerdict(old(store.snapshot.state), v)
    ensures Blocked(h, old(store.snapshot.state)) ==>
              && r == Err(ConflictingTerminalEvidence)
              && store.snapshot == old(store.snapshot) && store.Now() == old(store.Now())
  {
    ghost var s := store.snapshot.state;
    var verdict := Classify(h, store.snapshot.state, q, response);
    if verdict.Err? { return Err(verdict.error); }
    if Blocked(h, s) {
      StoreEvidence(store);
      BlockedFails(h, s);
    }
    if Decidable(h, s, verdict.value) { StoreDecides(store, h, verdict.value); }
    r := CommitDecision(store, h, verdict.value, fate);
    DecideKeepsVerdict(h, s, verdict.value, store.snapshot.state);
    DecideKeepsVerdict(h, s, verdict.value, store.disk.state);
  }

  lemma StoreDecides(store: Store, h: Hashes, v: Verdict)
    requires store.Valid() && store.operational && Decidable(h, store.snapshot.state, v)
    ensures Yields(h, store.snapshot.state, v.Command(), WithVerdict(store.snapshot.state, v))
  {
    store.StateValid();
    DecidableYields(h, store.snapshot.state, v);
  }

  /** A fresh query that succeeds in `s`, and a reply to it that is recorded. */
  ghost predicate Exchanged(h: Hashes, s: State, q: QueryRequest, reply: Reply, n: State, m: State) {
    var exchanged :=
      Yields(h, s, PrepareQuery(q), n) && OpenLast(n) && Yields(h, n, ReplyCommand(LastAttempt(n).value, reply), m);
    exchanged
  }

  /** How such an exchange ends: with the verdict on the answer, or, when there is none, as
      Uncertain. */
  ghost predicate ExchangeEnds(h: Hashes, reply: Reply, n: State, m: State, r: Result<Verdict>, final: State)
    requires OpenLast(n)
  {
    var ends :=
      if ReplyCommand(LastAttempt(n).value, reply).CloseQuery? then r == Ok(VUncertain) && final == m
      else forall v :: Decidable(h, m, v) ==> r == Ok(v) && final == WithVerdict(m, v);
    ends
  }

  /** Every commit of one invocation goes through. */
  predicate AllGranted(x: Snapshot, prepared: Fate, answered: Fate, decided: Fate) {
    prepared.Done? && answered.Done? && decided.Done? && x.sequence + 3 <= U64_MAX
  }

  lemma UndecidedFits(h: Hashes, s: State)
    ensures OpenLast(s) || ClosedLost(s) ==> DecidedByVerdict(h, s)
  {
  }

  /** A fresh query, sent once and decided. */
  method QueryAndDecide(store: Store, h: Hashes, who: Credentials, entropy: Entropy, reply: Reply,
                        prepared: Fate, answered: Fate, decided: Fate) returns (r: Result<Verdict>)
    requires store.Valid()
    modifies store
    ensures store.Valid() && store.Now().tokens == old(store.Now()).tokens
    ensures store.snapshot.owner == old(store.snapshot).owner && store.snapshot.store == old(store.snapshot).store
    ensures |store.Now().queries| <= |old(store.Now()).queries| + 1
    ensures store.Now().commits <= old(store.Now()).commits + 3
    ensures r.Ok? ==> store.operational && Definite(h, store.snapshot.state, r.value)
    ensures r.Ok? && r.value.IsTerminal() ==> Replays(h, store.snapshot.state, r.value)
    ensures store.disk == old(store.disk) || DecidedByVerdict(h, store.disk.state)
    ensures old(store.operational) && PrepareObjection(old(store.snapshot), who).Some? ==>
              && r == Err(PrepareObjection(old(store.snapshot), who).value)
              && store.snapshot == old(store.snapshot) && store.Now() == old(store.Now())
    ensures old(store.operational) && PrepareObjection(old(store.snapshot), who).None?
            && AllGranted(old(store.snapshot), prepared, answered, decided) ==>
              var s := old(store.snapshot.state);
              forall n, m :: Exchanged(h, s, BuildQuery(s, who.principal, entropy), reply, n, m) ==>
                ExchangeEnds(h, reply, n, m, r, store.snapshot.state)
  {
    var token := PrepareFresh(store, h, who, entropy, prepared);
    UndecidedFits(h, store.disk.state);
    if token.Err? { return Err(token.error); }
    r := SendAndDecide(store, h, token.value, reply, answered, decided);
  }

  /** Sends the query just prepared, and decides. */
  method SendAndDecide(store: Store, h: Hashes, token: Token, reply: Reply, answered: Fate, decided: Fate)
    returns (r: Result<Verdict>)
    requires store.Valid() && token.prepared.request in store.Now().tokens
    requires store.operational && OpenLast(store.snapshot.state) && TokenObjection(store.snapshot, token).None?
    modifies store
    ensures store.Valid() && store.Now().tokens == old(store.Now()).tokens - multiset{token.prepared.request}
    ensures store.snapshot.owner == old(store.snapshot).owner && store.snapshot.store == old(store.snapshot).store
    ensures |store.Now().queries| == |old(store.Now()).queries| + 1
    ensures store.Now().commits <= old(store.Now()).commits + 2
    ensures r.Ok? ==> store.operational && Definite(h, store.snapshot.state, r.value)
    ensures r.Ok? && r.value.IsTerminal() ==> Replays(h, store.snapshot.state, r.value)
    ensures store.disk == old(store.disk) || DecidedByVerdict(h, store.disk.state)
    ensures answered.Done? && decided.Done? && old(store.snapshot).sequence + 2 <= U64_MAX ==>
              var n := old(store.snapshot.state);
              forall m :: Yields(h, n, ReplyCommand(LastAttempt(n).value, reply), m) ==>
                ExchangeEnds(h, reply, n, m, r, store.snapshot.state)
  {
    var queried := QueryOnce(store, h, token, reply, answered);
    if queried.ClosedWithoutResponse? { return Ok(VUncertain); }
    if queried.QueryFailed? { return Err(queried.error); }
    r := DecideAnswer(store, h, token.prepared.request, queried.response, decided);
  }

  /** The recovered query awaits its decision, or its closure. */
  predicate Unfinished(was: Recovered) { was.response.Some? || was.closure.None? }

  /** Decides an answer that is already durable; a query without one is closed, since
      nobody may send it any more. */
  method FinishRecovered(store: Store, h: Hashes, who: Credentials, was: Recovered, answered: Fate, decided: Fate)
    returns (r: Result<Verdict>)
    requires store.Valid() && store.operational && Recover(store.snapshot, who) == Ok(Some(was)) && Unfinished(was)
    modifies store
    ensures store.Valid() && Quiet(store.Now(), old(store.Now()))
    ensures store.snapshot.owner == old(store.snapshot).owner && store.snapshot.store == old(store.snapshot).store
    ensures r.Ok? ==> store.operational && Definite(h, store.snapshot.state, r.value)
    ensures r.Ok? && r.value.IsTerminal() ==> Replays(h, store.snapshot.state, r.value)
    ensures store.disk == old(store.disk) || DecidedByVerdict(h, store.disk.state)
    ensures Finishes(h, old(store.snapshot), answered, decided, r, store.snapshot.state)
    ensures Blocked(h, old(store.snapshot.state)) ==>
              && r == Err(ConflictingTerminalEvidence)
              && store.snapshot == old(store.snapshot) && store.Now() == old(store.Now())
  {
    RecoveredIs(store.snapshot, who, was);
    if was.response.Some? {
      r := DecideAnswer(store, h, was.request, was.response.value, decided);
    } else {
      assert OpenLast(store.snapshot.state);
      r := CloseLeft(store, h, who, was, answered);
      UndecidedFits(h, store.disk.state);
    }
  }

  lemma RecoveredIs(x: Snapshot, who: Credentials, was: Recovered)
    requires Recover(x, who) == Ok(Some(was)) && Unfinished(was)
    ensures LastAttempt(x.state).Some? && LastAttempt(x.state).value.prepared.request == was.request
    ensures was.response.Some? ==> && Undecided(x.state) && !OpenLast(x.state)
                                   && LastAttempt(x.state).value.observation.value.response == was.response.value
    ensures was.response.None? ==> OpenLast(x.state) && !Undecided(x.state)
  {
  }

  /** Closes a query that was never answered. */
  method CloseLeft(store: Store, h: Hashes, who: Credentials, was: Recovered, fate: Fate) returns (r: Result<Verdict>)
    requires store.Valid() && store.operational && Recover(store.snapshot, who) == Ok(Some(was))
    requires OpenLast(store.snapshot.state)
    modifies store
    ensures store.Valid() && Quiet(store.Now(), old(store.Now()))
    ensures store.snapshot.owner == old(store.snapshot).owner && store.snapshot.store == old(store.snapshot).store
    ensures r.Ok? ==> store.operational && r == Ok(VUncertain) && ClosedLost(store.snapshot.state)
    ensures store.disk == old(store.disk) || ClosedLost(store.disk.state)
    ensures Grants(old(store.snapshot), fate) ==>
              forall n :: Yields(h, old(store.snapshot.state), CloseQuery(ResidentAuthorityLost), n) ==>
                r == Ok(VUncertain) && store.snapshot.state == n
  {
    var closed := CloseRecovered(store, h, who, was, fate);
    r := if closed.Err? then Err(closed.error) else Ok(VUncertain);
  }

  /** What is left over by an earlier invocation is finished: an answer with its verdict, a
      query without one with its closure. */
  ghost predicate Finishes(h: Hashes, x: Snapshot, answered: Fate, decided: Fate, r: Result<Verdict>, final: State) {
    var finishes :=
      && (Undecided(x.state) ==>
            && (r.Ok? ==> Verdicts(h, x.state) == r)
            && (Verdicts(h, x.state).Err? ==> r == Verdicts(h, x.state) && final == x.state)
            && (Grants(x, decided) ==> forall v :: Decidable(h, x.state, v) ==> r == Ok(v) && final == WithVerdict(x.state, v)))
      && (OpenLast(x.state) ==>
            && (r.Ok? ==> r == Ok(VUncertain) && ClosedLost(final))
            && (Grants(x, answered) ==>
                  forall n :: Yields(h, x.state, CloseQuery(ResidentAuthorityLost), n) ==> r == Ok(VUncertain) && final == n));
    finishes
  }

  /** One invocation: at most one exchange and three commits, and an outcome only
      once it is durable. A terminal decision of the current epoch is returned
      again, without sending, drawing a fresh identity or touching the journal; what an
      earlier invocation left is finished; otherwise one fresh query is sent and
      decided. */
  method Reconcile(store: Store, h: Hashes, who: Credentials, entropy: Entropy, reply: Reply,
                   prepared: Fate, answered: Fate, decided: Fate) returns (r: Result<Verdict>)
    requires store.Valid()
    modifies store
    ensures store.Valid() && store.Now().tokens == old(store.Now()).tokens
    ensures store.snapshot.owner == old(store.snapshot).owner && store.snapshot.store == old(store.snapshot).store
    ensures |store.Now().queries| <= |old(store.Now()).queries| + 1
    ensures store.Now().commits <= old(store.Now()).commits + 3
    ensures r.Ok? ==> store.operational && Definite(h, store.snapshot.state, r.value)
    ensures r.Ok? && r.value.IsTerminal() ==> Replays(h, store.snapshot.state, r.value)
    ensures store.disk == old(store.disk) || DecidedByVerdict(h, store.disk.state)
    ensures forall v :: old(store.operational) && old(store.snapshot).owner == who.owner
                        && Replays(h, old(store.snapshot.state), v) ==>
              r == Ok(v) && store.snapshot == old(store.snapshot) && store.Now() == old(store.Now())
    ensures old(store.operational) && Recover(old(store.snapshot), who).Ok? && Blocked(h, old(store.snapshot.state)) ==>
              && r == Err(ConflictingTerminalEvidence)
              && store.snapshot == old(store.snapshot) && store.Now() == old(store.Now())
    ensures old(store.operational) && Recover(old(store.snapshot), who).Ok? ==>
              Finishes(h, old(store.snapshot), answered, decided, r, store.snapshot.state)
    ensures old(store.operational) && Recover(old(store.snapshot), who).Ok? && Settles(old(store.snapshot.state)) ==>
              store.snapshot == old(store.snapshot) && store.Now() == old(store.Now())
    ensures && old(store.operational) && Recover(old(store.snapshot), who).Ok? && Idle(old(store.snapshot.state))
            && PrepareObjection(old(store.snapshot), who).None?
            && AllGranted(old(store.snapshot), prepared, answered, decided) ==>
              var s := old(store.snapshot.state);
              forall n, m :: Exchanged(h, s, BuildQuery(s, who.principal, entropy), reply, n, m) ==>
                ExchangeEnds(h, reply, n, m, r, store.snapshot.state)
  {
    if !store.operational { return Err(StoreStopped); }
    var s := store.snapshot.state;
    var recovered := Recover(store.snapshot, who);
    if recovered.Err? { return Err(recovered.error); }
    if Settles(s) {
      ValidReplays(store, h);
      SettledFinishes(h, store.snapshot, answered, decided);
      r := Replay(h, s);
    } else {
      OnlySettledReplays(h, s);
      r := Continue(store, h, who, recovered.value, entropy, reply, prepared, answered, decided);
    }
  }

  lemma SettledFinishes(h: Hashes, x: Snapshot, answered: Fate, decided: Fate)
    requires Settles(x.state)
    ensures forall r, final :: Finishes(h, x, answered, decided, r, final)
  {
  }

  /** With nothing to replay: finishes what is left, or makes a fresh query. */
  method Continue(store: Store, h: Hashes, who: Credentials, recovered: Option<Recovered>, entropy: Entropy, reply: Reply,
                  prepared: Fate, answered: Fate, decided: Fate) returns (r: Result<Verdict>)
    requires store.Valid() && store.operational && !Settles(store.snapshot.state)
    requires Recover(store.snapshot, who) == Ok(recovered)
    modifies store
    ensures store.Valid() && store.Now().tokens == old(store.Now()).tokens
    ensures store.snapshot.owner == old(store.snapshot).owner && store.snapshot.store == old(store.snapshot).store
    ensures |store.Now().queries| <= |old(store.Now()).queries| + 1
    ensures store.Now().commits <= old(store.Now()).commits + 3
    ensures r.Ok? ==> store.operational && Definite(h, store.snapshot.state, r.value)
    ensures r.Ok? && r.value.IsTerminal() ==> Replays(h, store.snapshot.state, r.value)
    ensures store.disk == old(store.disk) || DecidedByVerdict(h, store.disk.state)
    ensures Blocked(h, old(store.snapshot.state)) ==>
              && r == Err(ConflictingTerminalEvidence)
              && store.snapshot == old(store.snapshot) && store.Now() == old(store.Now())
    ensures Finishes(h, old(store.snapshot), answered, decided, r, store.snapshot.state)
    ensures && Idle(old(store.snapshot.state)) && PrepareObjection(old(store.snapshot), who).None?
            && AllGranted(old(store.snapshot), prepared, answered, decided) ==>
              var s := old(store.snapshot.state);
              forall n, m :: Exchanged(h, s, BuildQuery(s, who.principal, entropy), reply, n, m) ==>
                ExchangeEnds(h, reply, n, m, r, store.snapshot.state)
  {
    if Blocked(h, store.snapshot.state) { BlockedRecovers(h, store.snapshot, who); }
    if recovered.Some? && Unfinished(recovered.value) {
      r := FinishRecovered(store, h, who, recovered.value, answered, decided);
    } else {
      IdleFinishes(h, store.snapshot, who, answered, decided);
      r := QueryAndDecide(store, h, who, entropy, reply, prepared, answered, decided);
    }
  }

  lemma IdleFinishes(h: Hashes, x: Snapshot, who: Credentials, answered: Fate, decided: Fate)
    requires Recover(x, who).Ok?
    requires Recover(x, who).value.Some? ==> !Unfinished(Recover(x, who).value.value)
    ensures forall r, final :: Finishes(h, x, answered, decided, r, final)
  {
  }

  /** Nothing is left to finish or to replay. */
  predicate Idle(s: State) { !Settles(s) && (LastAttempt(s).Some? ==> LastAttempt(s).value.Resolved()) }

  lemma BlockedFails(h: Hashes, s: State)
    requires EvidenceValid(s) && Blocked(h, s)
    ensures Fails(h, s, VPrepared.Command(), ConflictingTerminalEvidence)
  {
    BlockedRefused(h, s);
    DecideIsMove(h, s, VPrepared);
    RefusalFails(h, s, VPrepared.Command());
  }

  lemma StoreEvidence(store: Store)
    requires store.Valid() && store.operational
    ensures EvidenceValid(store.snapshot.state)
  {
    store.StateValid();
    ValidEvidence(store.snapshot.state);
  }

  lemma BlockedRecovers(h: Hashes, x: Snapshot, who: Credentials)
    requires Blocked(h, x.state) && Recover(x, who).Ok?
    ensures Recover(x, who).value.Some? && Unfinished(Recover(x, who).value.value) && !Settles(x.state)
  {
  }

  lemma OnlySettledReplays(h: Hashes, s: State)
    requires !Settles(s)
    ensures forall v :: !Replays(h, s, v)
  {
  }

  lemma ValidReplays(store: Store, h: Hashes)
    requires store.Valid() && store.operational && Settles(store.snapshot.state)
    ensures EvidenceValid(store.snapshot.state) && !Blocked(h, store.snapshot.state)
  {
    StoreEvidence(store);
  }

  // ------------------------------------------------------------------ later invocations

  /** A verdict that could be replayed at some durable state can still be replayed,
      whatever happened since, while plan revision and epoch are the same. */
  lemma ReplayPersists(store: Store, h: Hashes, i: nat, v: Verdict)
    requires store.Valid() && store.operational && i < |store.Now().past| && Replays(h, store.Now().past[i], v)
    requires SamePeriod(store.Now().past[i], store.snapshot.state)
    ensures Replays(h, store.snapshot.state, v)
  {
    TraceSound(store.worlds, store.events, |store.events|);
    var past := store.Now().past;
    TerminalReplayStable(h, past, i, |past| - 1, v);
  }

  /** The same plan revision and binding epoch. */
  predicate SamePeriod(s: State, n: State) {
    && s.Revision() == n.Revision() && s.binding.Some? && n.binding.Some?
    && s.binding.value.lastEpoch == n.binding.value.lastEpoch
  }

  /** Once reconcile has returned a terminal verdict, every later invocation by the
      same owner, after any calls, commits and crashes in between, returns it again
      without sending anything or changing the journal, until the plan or the epoch
      moves. */
  method ReconcileLater(store: Store, h: Hashes, who: Credentials, entropy: Entropy, reply: Reply,
                        prepared: Fate, answered: Fate, decided: Fate, ghost i: nat, ghost v: Verdict)
    returns (r: Result<Verdict>)
    requires store.Valid() && store.operational && store.snapshot.owner == who.owner
    requires i < |store.Now().past| && Replays(h, store.Now().past[i], v)
    requires SamePeriod(store.Now().past[i], store.snapshot.state)
    modifies store
    ensures store.Valid() && r == Ok(v) && store.snapshot == old(store.snapshot) && store.Now() == old(store.Now())
  {
    ReplayPersists(store, h, i, v);
    r := Reconcile(store, h, who, entropy, reply, prepared, answered, decided);
  }

  /** In particular, two invocations in a row agree. */
  method ReconcileTwice(store: Store, h: Hashes, who: Credentials, entropy: Entropy, entropy': Entropy, reply: Reply,
                        reply': Reply, fates: (Fate, Fate, Fate), fates': (Fate, Fate, Fate))
    returns (r: Result<Verdict>, r': Result<Verdict>)
    requires store.Valid() && store.operational && store.snapshot.owner == who.owner
    modifies store
    ensures store.Valid()
    ensures r.Ok? && r.value.IsTerminal() ==> r' == r
  {
    r := Reconcile(store, h, who, entropy, reply, fates.0, fates.1, fates.2);
    r' := Reconcile(store, h, who, entropy', reply', fates'.0, fates'.1, fates'.2);
  }
}
