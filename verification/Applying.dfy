/**
 The apply orchestrator: one durable signed request per plan revision, replayed
 byte for byte, sent only while nothing terminal is durable.
 */
module Applying {
  import opened Types
  import Tenures
  import opened Rollouts
  import opened Journal
  import opened Revalidation
  import opened Successors
  import opened Runs
  import opened Mutations
  import opened Worlds
  import opened Stores
  import opened Classifier
  import Queries

  datatype Provisioning = Provisioning(owner: Digest, principal: Id, writer: Id, signer: Digest, target: Id, scope: Id,
                                       policy: Digest)

  /** Fresh identities, and what encoding and signing the request makes of them. */
  datatype Entropy = Entropy(operation: Id, nonce: Bytes, slice: Digest, digest: Digest, bytes: Bytes)

  /** What the caller holds between preparing and sending; it may be used again. */
  datatype PreparedApply = PreparedApply(store: Digest, sequence: nat, bytes: Bytes, channelFingerprint: Digest,
                                         channel: Channel, key: Id, algorithm: nat, version: nat, replayed: bool)

  datatype Reply = Answered(receipt: Receipt, requestChannel: Channel, currentChannel: Channel) | ExchangeError

  // ------------------------------------------------------------------- request facts

  /** The execution a plan's content asks for. */
  function Execution(c: Content): Option<(Mode, Option<LoopFacts>)> {
    match (c.shape, c.subject, c.budgets)
    case (OneSourceLoop, Some(s), Some(b)) => Some((LoopMode, Some(LoopFacts(s.instance, s.domain, b))))
    case (EmptyTarget, None, None) => Some((DeactivateMode, None))
    case _ => None
  }

  /** The bound Runtime answered, for this manifest and profile and under the admission
      policy the caller is provisioned for, that it is ready. */
  predicate BootstrapReady(s: State, who: Provisioning) {
    && s.binding.Some?
    && var e := s.binding.value.bootstrap;
    && e.manifest == s.manifest.digest && e.profile == s.manifest.profile && e.policy == who.policy && e.ready
  }

  /** The request a fresh identity becomes: current plan, live tenure proof, and
      the compare-and-swap guard taken from the archive. */
  function BuildApply(s: State, who: Provisioning, entropy: Entropy): Result<ApplyRequest> {
    if s.plan.None? || s.binding.None? then Err(DanglingRollout)
    else if !BootstrapReady(s, who) then Err(BootstrapBindingMismatch)
    else if Execution(s.plan.value.content).None? then Err(InvalidCommittedPlanShape)
    else if Tenures.LiveProof(s.tenures, who.writer).None? then Err(MissingCommittedTenureProof)
    else
      var p := s.plan.value;
      var (mode, loop) := Execution(p.content).value;
      Ok(ApplyRequest(s.manifest.target, entropy.slice, entropy.digest, s.binding.value.store,
                      p.scope, p.lineage, p.revision, p.planDigest,
                      entropy.operation, ExpectedActive(s), Tenures.LiveProof(s.tenures, who.writer).value,
                      mode, s.manifest.target, s.manifest.digest, loop,
                      who.principal, s.auth.key, s.auth.algorithm, s.auth.version, entropy.nonce))
  }

  /** The stored request still is what this Controller, this plan, this archive and
      the live tenure would ask for. */
  predicate RequestStands(h: Hashes, s: State, i: Intent, who: Provisioning) {
    && s.plan.Some? && s.binding.Some? && i.request.decoded.Some?
    && var q := i.request.decoded.value; var p := s.plan.value; var b := s.binding.value;
    && q.target == i.target && q.target == p.target && q.target == b.target
    && q.slice == i.slice && q.digest == i.digest
    && q.store == i.store && i.store == b.store
    && i.channelFingerprint == b.channelFingerprint && i.manifest == b.manifest
    && q.scope == p.scope && q.lineage == p.lineage && q.revision == p.revision
    && q.planDigest == i.planDigest && q.planDigest == p.planDigest
    && q.operation == i.operation
    && q.expectedActive == ExpectedActive(s)
    && q.proof.writer == who.writer && Tenures.LiveProof(s.tenures, q.proof.writer) == Some(q.proof)
    && q.principal == who.principal
    && q.key == i.auth.key && q.algorithm == i.auth.algorithm && q.version == i.auth.version
    && q.algorithm == ED25519 && q.version == ED25519
    && Execution(p.content) == Some((q.mode, q.loop)) && q.executionTarget == s.manifest.target
    && q.manifest == s.manifest.digest
    && h.admits(s.manifest, q)
  }

  function PreparedFrom(x: Snapshot, i: Intent, replayed: bool): PreparedApply {
    PreparedApply(x.store, x.sequence, i.request.bytes, i.channelFingerprint, i.runtimeAuth.ChannelTo(i.target),
                  i.runtimeAuth.key, i.runtimeAuth.algorithm, i.runtimeAuth.version, replayed)
  }

  /** Rebuilds the durable request, drawing no fresh identity. */
  function ReplayPrepared(h: Hashes, x: Snapshot, who: Provisioning): Result<Option<PreparedApply>> {
    var s := x.state;
    if x.owner != who.owner then Err(OwnerIdentityMismatch)
    else if s.manifest.target != who.target || s.scope != who.scope then Err(InvalidControllerIdentity)
    else if s.binding.None? then Err(DanglingRollout)
    else if !BootstrapReady(s, who) then Err(BootstrapBindingMismatch)
    else if s.rollout.None? then
      if s.auth.fingerprint != who.signer then Err(SigningKeyMismatch) else Ok(None)
    else
      var i := s.rollout.value.intent;
      if i.auth.fingerprint != who.signer then Err(SigningKeyMismatch)
      else if !RequestStands(h, s, i, who) then Err(StoredRequestMismatch)
      else Ok(Some(PreparedFrom(x, i, true)))
  }

  /** The caller is provisioned for this store and journal, holds the key of the request to
      come or to be replayed, and the bound Runtime is ready for it. */
  predicate MayApply(x: Snapshot, who: Provisioning) {
    var s := x.state;
    && x.owner == who.owner && s.manifest.target == who.target && s.scope == who.scope && BootstrapReady(s, who)
    && who.signer == if s.rollout.Some? then s.rollout.value.intent.auth.fingerprint else s.auth.fingerprint
  }

  /** For such a caller, and nobody else, a request that stands is replayed as it is, and
      without one a fresh request may be made. */
  lemma ReplayAllowed(h: Hashes, x: Snapshot, who: Provisioning)
    ensures var s := x.state; var r := ReplayPrepared(h, x, who);
            && (r == Ok(None) <==> MayApply(x, who) && s.rollout.None?)
            && (forall p :: r == Ok(Some(p)) <==>
                  && MayApply(x, who) && s.rollout.Some? && RequestStands(h, s, s.rollout.value.intent, who)
                  && p == PreparedFrom(x, s.rollout.value.intent, true))
  {
  }

  // ------------------------------------------------------------------------- prepare

  function InputOf(q: ApplyRequest, bytes: Bytes): IntentInput {
    IntentInput(q.target, q.planDigest, q.slice, q.operation, q.digest, SignedRequest(bytes, Some(q)))
  }

  /** What a fresh request says, plan by plan and field by field: the execution that the
      plan's content and its one active allocation describe, for this target, store and
      revision, under the live proof, against the last archived slice. */
  ghost predicate AsksFor(s: State, who: Provisioning, entropy: Entropy, q: ApplyRequest) {
    && s.plan.Some? && s.binding.Some?
    && var p := s.plan.value;
    && ExactShape(p.content, q)
    && (if p.content.shape == OneSourceLoop then
          && q.mode == LoopMode && q.loop.Some?
          && exists r :: && r in s.allocation.records && r.state == Active
                         && q.loop.value.instance == r.instance && q.loop.value.domain == r.domain
                         && forall x :: x in s.allocation.records && x.state == Active ==> x == r
        else
          && q.mode == DeactivateMode && q.loop.None?
          && forall x :: x in s.allocation.records ==> x.state == Tombstone)
    && q.target == s.allocation.target && q.executionTarget == q.target && q.store == s.binding.value.store
    && q.scope == s.scope && q.lineage == s.lineage && q.revision == p.revision && q.planDigest == p.planDigest
    && q.manifest == s.manifest.digest && q.expectedActive == ExpectedActive(s)
    && q.proof.writer == who.writer && Tenures.LiveProof(s.tenures, who.writer) == Some(q.proof)
    && q.principal == who.principal && q.key == s.auth.key && q.algorithm == s.auth.algorithm && q.version == s.auth.version
    && q.operation == entropy.operation && q.nonce == entropy.nonce && q.slice == entropy.slice && q.digest == entropy.digest
  }

  /** Every fresh request asks for exactly what the committed plan describes. */
  lemma FreshRequestAsks(s: State, who: Provisioning, entropy: Entropy, q: ApplyRequest)
    requires LedgerValid(s) && BuildApply(s, who, entropy) == Ok(q)
    ensures AsksFor(s, who, entropy, q)
  {
    assert Coherent(s.plan.value.content, s.allocation);
  }

  /** A request that stands is the plan's own, as the classifier will want it. */
  lemma StandingIsPlans(h: Hashes, s: State, who: Provisioning)
    requires LedgerValid(s) && s.rollout.Some? && RequestStands(h, s, s.rollout.value.intent, who)
    ensures RequestIsPlans(h, s)
  {
  }

  /** The identity under which a request was made. */
  function IdentityOf(q: ApplyRequest, bytes: Bytes): Entropy { Entropy(q.operation, q.nonce, q.slice, q.digest, bytes) }

  /** The current intent is bound to the plan and the binding. */
  predicate IntentLinked(s: State) {
    && s.plan.Some? && s.binding.Some? && s.rollout.Some?
    && var p, b, i := s.plan.value, s.binding.value, s.rollout.value.intent;
    && p.target == s.manifest.target && b.target == s.manifest.target && i.target == s.manifest.target
    && i.store == b.store && i.channelFingerprint == b.channelFingerprint && i.manifest == b.manifest
    && i.planDigest == p.planDigest
  }

  lemma ValidIsLinked(s: State)
    requires LedgerValid(s) && EvidenceValid(s) && s.rollout.Some?
    ensures IntentLinked(s)
  {
  }

  lemma LiveWriter(ts: seq<Tenure>, writer: Id, proof: Proof)
    ensures Tenures.LiveProof(ts, writer) == Some(proof) <==>
              proof.writer == writer && Tenures.LiveProof(ts, proof.writer) == Some(proof)
  {
  }

  lemma LinkedStands(h: Hashes, s: State, who: Provisioning, q: ApplyRequest)
    requires IntentLinked(s) && BootstrapReady(s, who) && s.rollout.value.intent.request.decoded == Some(q)
    ensures var i := s.rollout.value.intent; var was := s.(auth := i.auth);
            RequestStands(h, s, i, who) <==>
              && BuildApply(was, who, IdentityOf(q, i.request.bytes)) == Ok(q) && Signable(h, was, q)
              && q.slice == i.slice && q.digest == i.digest && q.operation == i.operation
  {
    LiveWriter(s.tenures, who.writer, q.proof);
  }

  /** The stored request stands exactly when building it again, now, under its own identity
      and key gives the same request: plan, archive and live tenure have not moved on. */
  lemma StandsIffRebuilt(h: Hashes, s: State, who: Provisioning)
    requires LedgerValid(s) && EvidenceValid(s) && s.rollout.Some? && BootstrapReady(s, who)
    ensures var i := s.rollout.value.intent;
            RequestStands(h, s, i, who) <==>
              && i.request.decoded.Some?
              && var q := i.request.decoded.value; var was := s.(auth := i.auth);
              && BuildApply(was, who, IdentityOf(q, i.request.bytes)) == Ok(q) && Signable(h, was, q)
              && q.slice == i.slice && q.digest == i.digest && q.operation == i.operation
  {
    ValidIsLinked(s);
    var d := s.rollout.value.intent.request.decoded;
    if d.Some? { LinkedStands(h, s, who, d.value); }
  }

  lemma StoredRequestIsPlans(store: Store, h: Hashes, who: Provisioning)
    requires store.Valid() && store.operational && store.snapshot.state.rollout.Some?
    requires RequestStands(h, store.snapshot.state, store.snapshot.state.rollout.value.intent, who)
    ensures RequestIsPlans(h, store.snapshot.state)
  {
    store.StateValid();
    ValidLedger(store.snapshot.state);
    StandingIsPlans(h, store.snapshot.state, who);
  }

  lemma ValidLedger(s: State)
    requires Valid(s)
    ensures LedgerValid(s) && Tenures.TenuresValid(s.tenures, s.scope)
  {
  }

  lemma IntentLeaves(h: Hashes, s: State, who: Provisioning, entropy: Entropy, q: ApplyRequest, n: State)
    requires s.rollout.None? && BuildApply(s, who, entropy) == Ok(q)
    ensures Yields(h, s, RecordIntent(InputOf(q, entropy.bytes)), n) && n.rollout.Some? ==>
              && n == s.(rollout := n.rollout) && n.rollout.value.intent.request == SignedRequest(entropy.bytes, Some(q))
              && (LedgerValid(s) && Tenures.TenuresValid(s.tenures, s.scope) ==>
                    (RequestStands(h, n, n.rollout.value.intent, who) <==> Signable(h, s, q)))
  {
    var input := InputOf(q, entropy.bytes);
    if Yields(h, s, RecordIntent(input), n) && n.rollout.Some? {
      YieldsMove(h, s, RecordIntent(input), n);
      IntentGuards(s, input, n);
      assert n.rollout.value.intent == NewIntent(input, s.binding.value, s.auth);
      if LedgerValid(s) && Tenures.TenuresValid(s.tenures, s.scope) { FreshRequestStands(h, s, who, entropy, q, n); }
    }
  }

  /** The pinned key is Ed25519 and the manifest admits the request. */
  predicate Signable(h: Hashes, s: State, q: ApplyRequest) {
    s.auth.algorithm == ED25519 && s.auth.version == ED25519 && h.admits(s.manifest, q)
  }

  /** Replays the durable request if there is one, whatever fresh identity was
      offered; otherwise makes a fresh one durable first. */
  method PrepareApply(store: Store, h: Hashes, who: Provisioning, entropy: Entropy, fate: Fate)
    returns (r: Result<PreparedApply>)
    requires store.Valid()
    modifies store
    ensures store.Valid() && Queries.Quiet(store.Now(), old(store.Now()))
    ensures r.Ok? ==> && store.operational && store.snapshot.state.rollout.Some?
                      && RequestStands(h, store.snapshot.state, store.snapshot.state.rollout.value.intent, who)
                      && RequestIsPlans(h, store.snapshot.state)
                      && BootstrapReady(store.snapshot.state, who)
                      && r.value == PreparedFrom(store.snapshot, store.snapshot.state.rollout.value.intent, r.value.replayed)
    ensures r.Ok? && old(store.snapshot.state).rollout.Some? ==>
              store.snapshot == old(store.snapshot) && store.Now() == old(store.Now())
    ensures r.Ok? && old(store.snapshot.state).rollout.Some? ==>
              RequestStands(h, old(store.snapshot.state), old(store.snapshot.state).rollout.value.intent, who)
    ensures old(store.operational) && ReplayPrepared(h, old(store.snapshot), who) != Ok(None) ==>
              && store.snapshot == old(store.snapshot) && store.Now() == old(store.Now())
              && r == match ReplayPrepared(h, old(store.snapshot), who)
                      case Err(e) => Err(e)
                      case Ok(p) => Ok(p.value)
    ensures old(store.operational) && ReplayPrepared(h, old(store.snapshot), who) == Ok(None) ==>
              Freshly(store.snapshot.state, old(store.snapshot), h, who, entropy, fate, r)
  {
    if !store.operational { return Err(StoreStopped); }
    var replayed := ReplayPrepared(h, store.snapshot, who);
    if replayed.Err? { return Err(replayed.error); }
    if replayed.value.Some? {
      StoredRequestIsPlans(store, h, who);
      return Ok(replayed.value.value);
    }
    r := PrepareNew(store, h, who, entropy, fate);
  }

  /** With no durable request: the fresh one is recorded and returned, and always so when
      it can be built, the journal takes it, it is signable and the commit goes through. */
  ghost predicate Freshly(n: State, x: Snapshot, h: Hashes, who: Provisioning, entropy: Entropy, fate: Fate,
                          r: Result<PreparedApply>)
  {
    var q := BuildApply(x.state, who, entropy);
    if q.Err? then r == Err(q.error) && n == x.state
    else
      && (r.Ok? ==> && AsksFor(x.state, who, entropy, q.value) && n.rollout.Some? && !r.value.replayed
                    && n.rollout.value.intent.request == SignedRequest(entropy.bytes, Some(q.value))
                    && n == x.state.(rollout := n.rollout))
      && (Signable(h, x.state, q.value) && Grants(x, fate) ==>
            forall m :: Yields(h, x.state, RecordIntent(InputOf(q.value, entropy.bytes)), m) && m.rollout.Some? ==>
              r.Ok? && n == m)
  }

  method PrepareNew(store: Store, h: Hashes, who: Provisioning, entropy: Entropy, fate: Fate)
    returns (r: Result<PreparedApply>)
    requires store.Valid() && store.operational && store.snapshot.state.rollout.None?
    modifies store
    ensures store.Valid() && Queries.Quiet(store.Now(), old(store.Now()))
    ensures r.Ok? ==> && store.operational && store.snapshot.state.rollout.Some?
                      && RequestStands(h, store.snapshot.state, store.snapshot.state.rollout.value.intent, who)
                      && RequestIsPlans(h, store.snapshot.state)
                      && BootstrapReady(store.snapshot.state, who)
                      && r.value == PreparedFrom(store.snapshot, store.snapshot.state.rollout.value.intent, r.value.replayed)
    ensures Freshly(store.snapshot.state, old(store.snapshot), h, who, entropy, fate, r)
  {
    ghost var before := store.snapshot.state;
    var q := BuildApply(store.snapshot.state, who, entropy);
    if q.Err? { return Err(q.error); }
    StoreAsks(store, who, entropy, q.value);
    var done := Queries.Record(store, h, RecordIntent(InputOf(q.value, entropy.bytes)), fate, None);
    if done.Err? { return Err(done.error); }
    var s := store.snapshot.state;
    IntentLeaves(h, before, who, entropy, q.value, s);
    if s.rollout.None? { return Err(MissingDurableIntent); }
    if !RequestStands(h, s, s.rollout.value.intent, who) { return Err(StoredRequestMismatch); }
    StoredRequestIsPlans(store, h, who);
    r := Ok(PreparedFrom(store.snapshot, s.rollout.value.intent, false));
  }

  lemma StoreAsks(store: Store, who: Provisioning, entropy: Entropy, q: ApplyRequest)
    requires store.Valid() && store.operational && BuildApply(store.snapshot.state, who, entropy) == Ok(q)
    ensures AsksFor(store.snapshot.state, who, entropy, q)
    ensures LedgerValid(store.snapshot.state) && Tenures.TenuresValid(store.snapshot.state.tenures, store.snapshot.state.scope)
  {
    store.StateValid();
    ValidLedger(store.snapshot.state);
    FreshRequestAsks(store.snapshot.state, who, entropy, q);
  }

  // ---------------------------------------------------------------------------- send

  /** Why a prepared request no longer corresponds to the durable one. */
  function PreparedObjection(x: Snapshot, p: PreparedApply): Option<Error> {
    if p.store != x.store || p.sequence > x.sequence then Some(PreparedAttemptMismatch)
    else if x.state.rollout.None? then Some(MissingDurableIntent)
    else
      var i := x.state.rollout.value.intent;
      if i.request.decoded.None? then Some(StoredRequestMismatch)
      else if p.(store := x.store, sequence := x.sequence, replayed := true) != PreparedFrom(x, i, true)
      then Some(PreparedAttemptMismatch)
      else None
  }

  /** A prepared request may be sent exactly while its own store still has that very
      request as the current one, whatever else has been recorded since. */
  lemma PreparedStands(x: Snapshot, p: PreparedApply)
    ensures PreparedObjection(x, p).None? <==>
              && p.store == x.store && p.sequence <= x.sequence
              && x.state.rollout.Some? && x.state.rollout.value.intent.request.decoded.Some?
              && p == PreparedFrom(x.(sequence := p.sequence), x.state.rollout.value.intent, p.replayed)
  {
  }

  lemma DirectLeaves(h: Hashes, s: State, receipt: Receipt, n: State)
    requires Yields(h, s, RecordDirect(receipt), n)
    ensures n.rollout.Some? && n.rollout.value.direct == Some(receipt)
  {
    YieldsMove(h, s, RecordDirect(receipt), n);
  }

  /** The answer came over another channel, or from another target or peer. */
  predicate Foreign(p: PreparedApply, i: Intent, reply: Reply)
    requires reply.Answered?
  {
    reply.requestChannel != p.channel || reply.currentChannel.target != i.target || reply.currentChannel.peer != p.channel.peer
  }

  /** What becomes of the reply to an apply that stands and is not terminal: a foreign one
      is refused and nothing changes; the receipt of any other is durable when it is
      reported, nothing else reaches the disk, and it is reported whenever the journal
      takes it and the commit goes through. */
  ghost predicate ReceiptDurable(live: bool, n: State, disk: State, x: Snapshot, h: Hashes, p: PreparedApply, reply: Reply,
                                 fate: Fate, r: Result<Option<Receipt>>)
    requires x.state.rollout.Some?
  {
    var s := x.state;
    if reply.ExchangeError? then r == Err(ExchangeFailed(DeliveryUncertain)) && n == s && disk == s
    else if Foreign(p, s.rollout.value.intent, reply) then r == Err(ReceiptMismatch) && live && n == s && disk == s
    else
      && (r.Ok? ==> live && r == Ok(Some(reply.receipt)) && Yields(h, s, RecordDirect(reply.receipt), n))
      && (disk == s || Yields(h, s, RecordDirect(reply.receipt), disk))
      && (Grants(x, fate) ==>
            forall m :: Yields(h, s, RecordDirect(reply.receipt), m) ==> r == Ok(Some(reply.receipt)) && n == m)
  }

  method CommitReceipt(store: Store, h: Hashes, p: PreparedApply, receipt: Receipt, requestChannel: Channel,
                       currentChannel: Channel, fate: Fate) returns (r: Result<Option<Receipt>>)
    requires store.Valid() && store.operational
    modifies store
    ensures store.Valid() && Queries.Quiet(store.Now(), old(store.Now()))
    ensures r.Ok? ==> && store.operational && store.snapshot.state.rollout.Some?
                      && IsTerminal(store.snapshot.state.rollout.value)
                      && r.value == store.snapshot.state.rollout.value.direct
    ensures if PreparedObjection(old(store.snapshot), p).Some? then
              && r == Err(PreparedObjection(old(store.snapshot), p).value)
              && store.snapshot == old(store.snapshot) && store.Now() == old(store.Now())
            else if IsTerminal(old(store.snapshot.state).rollout.value) then
              && r == Ok(old(store.snapshot.state).rollout.value.direct)
              && store.snapshot == old(store.snapshot) && store.Now() == old(store.Now())
            else ReceiptDurable(store.operational, store.snapshot.state, store.disk.state, old(store.snapshot), h, p,
                                Answered(receipt, requestChannel, currentChannel), fate, r)
  {
    var objection := PreparedObjection(store.snapshot, p);
    if objection.Some? { return Err(objection.value); }
    var s := store.snapshot.state;
    if IsTerminal(s.rollout.value) { return Ok(s.rollout.value.direct); }
    if || requestChannel != p.channel || currentChannel.target != s.rollout.value.intent.target
       || currentChannel.peer != p.channel.peer
    { return Err(ReceiptMismatch); }
    var done := Queries.Record(store, h, RecordDirect(receipt), fate, None);
    if done.Err? { return Err(done.error); }
    DirectLeaves(h, s, receipt, store.snapshot.state);
    r := Ok(Some(receipt));
  }

  /** At most one exchange, none when the apply is already terminal, and at most
      one commit after it. */
  method ApplyOnce(store: Store, h: Hashes, p: PreparedApply, reply: Reply, fate: Fate)
    returns (r: Result<Option<Receipt>>)
    requires store.Valid()
    modifies store
    ensures store.Valid() && store.Now().commits <= old(store.Now()).commits + 1
    ensures store.Now().queries == old(store.Now()).queries && store.Now().tokens == old(store.Now()).tokens
    ensures r.Ok? ==> && store.operational && store.snapshot.state.rollout.Some?
                      && IsTerminal(store.snapshot.state.rollout.value)
                      && r.value == store.snapshot.state.rollout.value.direct
    ensures if !old(store.operational) then r == Err(StoreStopped) && store.Now() == old(store.Now())
            else if PreparedObjection(old(store.snapshot), p).Some? then
              && r == Err(PreparedObjection(old(store.snapshot), p).value)
              && store.snapshot == old(store.snapshot) && store.Now() == old(store.Now())
            else if IsTerminal(old(store.snapshot.state).rollout.value) then
              && r == Ok(old(store.snapshot.state).rollout.value.direct)
              && store.snapshot == old(store.snapshot) && store.Now() == old(store.Now())
            else
              && ApplyOpen(old(store.snapshot.state), p.bytes)
              && store.Now().applies == old(store.Now()).applies + [ApplySending(p.bytes, |old(store.Now()).past| - 1)]
              && ReceiptDurable(store.operational, store.snapshot.state, store.disk.state, old(store.snapshot), h, p, reply,
                                fate, r)
  {
    if !store.operational { return Err(StoreStopped); }
    var objection := PreparedObjection(store.snapshot, p);
    if objection.Some? { return Err(objection.value); }
    var rollout := store.snapshot.state.rollout.value;
    if IsTerminal(rollout) { return Ok(rollout.direct); }
    store.Log(SendApply(p.bytes));
    match reply
    case ExchangeError => r := Err(ExchangeFailed(DeliveryUncertain));
    case Answered(receipt, requestChannel, currentChannel) =>
      r := CommitReceipt(store, h, p, receipt, requestChannel, currentChannel, fate);
  }

  // ------------------------------------------------------------------ over whole runs

  /** A freshly built request that the journal records stands when it is read back,
      provided the pinned key is Ed25519 and the manifest admits it. */
  lemma FreshRequestStands(h: Hashes, s: State, who: Provisioning, entropy: Entropy, q: ApplyRequest, n: State)
    requires LedgerValid(s) && BuildApply(s, who, entropy) == Ok(q) && Tenures.TenuresValid(s.tenures, s.scope)
    requires RecordIntentMove(s, InputOf(q, entropy.bytes)) == Next(n)
    ensures n.rollout.Some?
    ensures RequestStands(h, n, n.rollout.value.intent, who) <==> Signable(h, s, q)
    ensures Signable(h, s, q) ==> RequestIsPlans(h, n)
  {
    IntentGuards(s, InputOf(q, entropy.bytes), n);
    assert n.rollout.value.intent == NewIntent(InputOf(q, entropy.bytes), s.binding.value, s.auth);
  }

  /** Once a newer proof has been committed, a request under an older one is never
      replayed again. */
  lemma ReplayStopsForever(h: Hashes, c: seq<State>, i: nat, j: nat, t: Tenure, intent: Intent, who: Provisioning)
    requires Chain(c) && i <= j < |c| && t in Tenures.Proven(c[i].tenures) && Tenures.Latest(c[i].tenures) != Some(t)
    requires intent.request.decoded.Some? && intent.request.decoded.value.proof == t.response.value.proof
    ensures !RequestStands(h, c[j], intent, who)
  {
    FencedForever(c, i, j, t, t.response.value.proof.writer, who.writer);
  }

  /** Along any chain from an empty archive, a freshly built request swaps exactly
      the slice of the apply archived last, and expects nothing only when nothing
      has been archived. */
  lemma FreshRequestSwapsLast(c: seq<State>, j: nat, who: Provisioning, entropy: Entropy)
    requires Chain(c) && j < |c| && c[0].history == [] && BuildApply(c[j], who, entropy).Ok?
    ensures BuildApply(c[j], who, entropy).value.expectedActive ==
              (if c[j].history == [] then None else Some(c[j].history[|c[j].history| - 1].intent.slice))
  {
    CompareAndSwapChain(c, j);
  }
}
