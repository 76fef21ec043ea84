/**
 The records that embed foreign wire messages: tenures, plans, bindings, rollouts,
 and the payload as a whole.
 */
module Embedded {
  import opened Types
  import Tenures
  import opened Rollouts
  import opened Sizes
  import opened Codecs
  import opened Layout

  // ------------------------------------------------------------------------- tenures

  type TenureAnswer = (nat, (nat, Bytes))
  type TenureTail = (nat, (Bytes, (Bytes, Option<TenureAnswer>)))
  type TenureFields = (nat, (TenurePhase, (nat, (nat, (nat, (nat, TenureTail))))))

  /** The redundant facts beside the request must be the request's own. */
  function TenureTo(w: Wires, x: TenureFields): Option<Tenure> {
    var tail := x.1.1.1.1.1.1;
    var q := w.tenureRequest(tail.1.1.0);
    if q.None? || q.value.operation != x.0 || q.value.scope != x.1.1.1.0 || q.value.writer != x.1.1.1.1.0
       || q.value.intent != x.1.1.1.1.1.0 || q.value.digest != tail.0 || q.value.nonce != tail.1.0
    then None
    else if tail.1.1.1.None? then
      if x.1.0.TenureCommitted? then None else Some(Tenure(q.value, x.1.1.0, x.1.0, None))
    else
      var answer := tail.1.1.1.value;
      var r := w.tenureResponse(answer.1.1);
      if r.None? || !Tenures.Answers(r.value, q.value) || r.value.digest != answer.0 || r.value.proofDigest != answer.1.0
         || !x.1.0.TenureCommitted?
      then None
      else Some(Tenure(q.value, x.1.1.0, x.1.0, r))
  }

  function TenureAnswerFrom(r: TenureResponse): TenureAnswer { (r.digest, (r.proofDigest, r.wire)) }

  function TenureFrom(t: Tenure): TenureFields {
    var q := t.request;
    (q.operation, (t.phase, (t.domain, (q.scope, (q.writer, (q.intent,
     (q.digest, (q.nonce, (q.wire, if t.response.None? then None else Some(TenureAnswerFrom(t.response.value)))))))))))
  }

  function TenurePhaseC(): Codec<TenurePhase> { Map(Num(1), TenureUntag, TenureTag) }

  function TenureAnswerC(): Codec<TenureAnswer> { Pair(Num(32), Pair(Num(32), Blob(MAX_TENURE_RESPONSE_BYTES))) }

  function TenureTailC(): Codec<TenureTail> {
    Seq4(Num(32), Blob(MAX_TENURE_NONCE_BYTES), Blob(MAX_TENURE_REQUEST_BYTES), Opt(TenureAnswerC()))
  }

  function TenureMidC(): Codec<(nat, (nat, (nat, TenureTail)))> { Seq4(Num(16), Num(16), Num(32), TenureTailC()) }

  function TenureB(): Codec<TenureFields> { Seq4(Num(16), TenurePhaseC(), Num(32), TenureMidC()) }

  function TenureC(w: Wires): Codec<Tenure> { Map(TenureB(), x => TenureTo(w, x), TenureFrom) }

  lemma TenureBLawful()
    ensures Lawful(TenureB())
  {
    NumLawful(1); NumLawful(16); NumLawful(32);
    MapLawful(Num(1), TenureUntag, TenureTag);
    BlobLawful(MAX_TENURE_NONCE_BYTES); BlobLawful(MAX_TENURE_REQUEST_BYTES); BlobLawful(MAX_TENURE_RESPONSE_BYTES);
    PairLawful(Num(32), Blob(MAX_TENURE_RESPONSE_BYTES));
    PairLawful(Num(32), Pair(Num(32), Blob(MAX_TENURE_RESPONSE_BYTES)));
    OptLawful(TenureAnswerC());
    Seq4Lawful(Num(32), Blob(MAX_TENURE_NONCE_BYTES), Blob(MAX_TENURE_REQUEST_BYTES), Opt(TenureAnswerC()));
    Seq4Lawful(Num(16), Num(16), Num(32), TenureTailC());
    Seq4Lawful(Num(16), TenurePhaseC(), Num(32), TenureMidC());
  }

  lemma TenureFaithful(w: Wires, x: TenureFields)
    requires WiresCanonical(w) && TenureTo(w, x).Some?
    ensures TenureFrom(TenureTo(w, x).value) == x
  {
    var tail := x.1.1.1.1.1.1;
    assert w.tenureRequest(tail.1.1.0).value.wire == tail.1.1.0;
    if tail.1.1.1.Some? { assert w.tenureResponse(tail.1.1.1.value.1.1).value.wire == tail.1.1.1.value.1.1; }
  }

  lemma TenureLawful(w: Wires)
    requires WiresCanonical(w)
    ensures Lawful(TenureC(w))
  {
    TenureBLawful();
    var to := x => TenureTo(w, x);
    assert Faithful(to, TenureFrom) by {
      forall x: TenureFields | to(x).Some? ensures TenureFrom(to(x).value) == x { TenureFaithful(w, x); }
    }
    MapLawful(TenureB(), to, TenureFrom);
  }

  predicate TenureStorable(w: Wires, t: Tenure) {
    var q := t.request;
    && Wide(q.operation, 16) && Wide(t.domain, 32) && Wide(q.scope, 16) && Wide(q.writer, 16)
    && Wide(q.intent, 32) && Wide(q.digest, 32)
    && |q.nonce| <= MAX_TENURE_NONCE_BYTES && |q.wire| <= MAX_TENURE_REQUEST_BYTES
    && w.tenureRequest(q.wire) == Some(q)
    && (t.phase.TenureCommitted? == t.response.Some?)
    && (t.response.Some? ==>
          var r := t.response.value;
          && Wide(r.digest, 32) && Wide(r.proofDigest, 32) && |r.wire| <= MAX_TENURE_RESPONSE_BYTES
          && w.tenureResponse(r.wire) == Some(r) && Tenures.Answers(r, q))
  }

  predicate TailFits(t: Tenure) {
    && Wide(t.request.digest, 32)
    && |t.request.nonce| <= MAX_TENURE_NONCE_BYTES && |t.request.wire| <= MAX_TENURE_REQUEST_BYTES
    && (t.response.Some? ==>
          && Wide(t.response.value.digest, 32) && Wide(t.response.value.proofDigest, 32)
          && |t.response.value.wire| <= MAX_TENURE_RESPONSE_BYTES)
  }

  lemma TenureAnswerFacts(r: TenureResponse)
    ensures TenureAnswerC().len(TenureAnswerFrom(r)) == 32 + 32 + 4 + |r.wire|
    ensures TenureAnswerC().ok(TenureAnswerFrom(r)) <==>
              Wide(r.digest, 32) && Wide(r.proofDigest, 32) && |r.wire| <= MAX_TENURE_RESPONSE_BYTES
  {
    NumFacts(32);
    BlobFacts(MAX_TENURE_RESPONSE_BYTES);
    PairFacts(Num(32), Blob(MAX_TENURE_RESPONSE_BYTES), TenureAnswerFrom(r).1);
    PairFacts(Num(32), Pair(Num(32), Blob(MAX_TENURE_RESPONSE_BYTES)), TenureAnswerFrom(r));
  }

  lemma TenureTailFacts(t: Tenure)
    ensures TenureTailC().len(TenureFrom(t).1.1.1.1.1.1) ==
            32 + 4 + |t.request.nonce| + 4 + |t.request.wire| + 1
            + (if t.response.Some? then 32 + 32 + 4 + |t.response.value.wire| else 0)
    ensures TenureTailC().ok(TenureFrom(t).1.1.1.1.1.1) <==> TailFits(t)
  {
    var x := TenureFrom(t).1.1.1.1.1.1;
    NumFacts(32);
    BlobFacts(MAX_TENURE_NONCE_BYTES); BlobFacts(MAX_TENURE_REQUEST_BYTES);
    if t.response.Some? { TenureAnswerFacts(t.response.value); }
    OptFacts(TenureAnswerC(), x.1.1.1);
    Seq4Facts(Num(32), Blob(MAX_TENURE_NONCE_BYTES), Blob(MAX_TENURE_REQUEST_BYTES), Opt(TenureAnswerC()), x);
  }

  lemma TenureMidFacts(t: Tenure)
    ensures TenureMidC().len(TenureFrom(t).1.1.1) + 16 + 1 + 32 == TenureLen(t)
    ensures TenureMidC().ok(TenureFrom(t).1.1.1) <==>
              Wide(t.request.scope, 16) && Wide(t.request.writer, 16) && Wide(t.request.intent, 32) && TailFits(t)
  {
    NumFacts(16); NumFacts(32);
    TenureTailFacts(t);
    Seq4Facts(Num(16), Num(16), Num(32), TenureTailC(), TenureFrom(t).1.1.1);
  }

  lemma TenureBFacts(t: Tenure)
    ensures TenureB().len(TenureFrom(t)) == TenureLen(t)
    ensures TenureB().ok(TenureFrom(t)) <==>
              && Wide(t.request.operation, 16) && Wide(t.domain, 32) && Wide(t.request.scope, 16)
              && Wide(t.request.writer, 16) && Wide(t.request.intent, 32) && TailFits(t)
  {
    NumFacts(1); NumFacts(16); NumFacts(32);
    MapFacts(Num(1), TenureUntag, TenureTag, t.phase);
    TenureMidFacts(t);
    var x, mid := TenureFrom(t), TenureMidC();
    assert x.1.1.0 == t.domain && x.1.0 == t.phase && x.0 == t.request.operation;
    Seq4Facts(Num(16), TenurePhaseC(), Num(32), mid, x);
  }

  lemma TenureFacts(w: Wires, t: Tenure)
    ensures TenureC(w).len(t) == TenureLen(t)
    ensures TenureC(w).ok(t) <==> TenureStorable(w, t)
  {
    TenureBFacts(t);
    MapFacts(TenureB(), x => TenureTo(w, x), TenureFrom, t);
  }

  // --------------------------------------------------------------------------- plans

  type PlanTail = (nat, (nat, (nat, nat)))
  type PlanMid = (nat, (Bytes, (nat, PlanTail)))
  type PlanFields = (nat, (nat, (nat, PlanMid)))

  /** A stored plan recomputes its three digests. */
  predicate PlanDigests(h: Hashes, p: Plan) {
    && 0 < p.revision && p.content.bytes != []
    && h.content(p.content) == p.contentDigest
    && h.storage(p.content.bytes) == p.storageChecksum
    && h.plan(p.scope, p.lineage, p.revision, p.content) == p.planDigest
  }

  function PlanTo(w: Wires, h: Hashes, x: PlanFields): Option<Plan> {
    var mid, tail := x.1.1.1, x.1.1.1.1.1.1;
    var c := w.content(mid.0, mid.1.0);
    if c.None? then None
    else
      var p := Plan(x.0, x.1.0, x.1.1.0, mid.0, c.value, mid.1.1.0, tail.0, tail.1.0, tail.1.1.0, tail.1.1.1);
      if PlanDigests(h, p) then Some(p) else None
  }

  function PlanFrom(p: Plan): PlanFields {
    (p.scope, (p.lineage, (p.revision, (p.target, (p.content.bytes, (p.contentDigest,
     (p.planDigest, (p.storageChecksum, (p.operation, p.intent)))))))))
  }

  function PlanTailC(): Codec<PlanTail> { Seq4(Num(32), Num(32), Num(16), Num(32)) }

  function PlanMidC(): Codec<PlanMid> { Seq4(Num(16), Blob(MAX_CONTENT_BYTES), Num(32), PlanTailC()) }

  function PlanB(): Codec<PlanFields> { Seq4(Num(16), Num(16), Num(8), PlanMidC()) }

  function PlanC(w: Wires, h: Hashes): Codec<Plan> { Map(PlanB(), x => PlanTo(w, h, x), PlanFrom) }

  lemma PlanBLawful()
    ensures Lawful(PlanB())
  {
    NumLawful(8); NumLawful(16); NumLawful(32); BlobLawful(MAX_CONTENT_BYTES);
    Seq4Lawful(Num(32), Num(32), Num(16), Num(32));
    Seq4Lawful(Num(16), Blob(MAX_CONTENT_BYTES), Num(32), PlanTailC());
    Seq4Lawful(Num(16), Num(16), Num(8), PlanMidC());
  }

  lemma PlanFaithful(w: Wires, h: Hashes, x: PlanFields)
    requires WiresCanonical(w) && PlanTo(w, h, x).Some?
    ensures PlanFrom(PlanTo(w, h, x).value) == x
  {
    assert w.content(x.1.1.1.0, x.1.1.1.1.0).value.bytes == x.1.1.1.1.0;
  }

  lemma PlanLawful(w: Wires, h: Hashes)
    requires WiresCanonical(w)
    ensures Lawful(PlanC(w, h))
  {
    PlanBLawful();
    var to := x => PlanTo(w, h, x);
    assert Faithful(to, PlanFrom) by {
      forall x: PlanFields | to(x).Some? ensures PlanFrom(to(x).value) == x { PlanFaithful(w, h, x); }
    }
    MapLawful(PlanB(), to, PlanFrom);
  }

  predicate PlanStorable(w: Wires, h: Hashes, p: Plan) {
    && Wide(p.scope, 16) && Wide(p.lineage, 16) && Wide(p.revision, 8) && Wide(p.target, 16)
    && |p.content.bytes| <= MAX_CONTENT_BYTES
    && Wide(p.contentDigest, 32) && Wide(p.planDigest, 32) && Wide(p.storageChecksum, 32)
    && Wide(p.operation, 16) && Wide(p.intent, 32)
    && w.content(p.target, p.content.bytes) == Some(p.content)
    && PlanDigests(h, p)
  }

  lemma PlanMidFacts(p: Plan)
    ensures PlanMidC().len(PlanFrom(p).1.1.1) == 16 + 4 + |p.content.bytes| + 32 + 32 + 32 + 16 + 32
    ensures PlanMidC().ok(PlanFrom(p).1.1.1) <==>
              && Wide(p.target, 16) && |p.content.bytes| <= MAX_CONTENT_BYTES && Wide(p.contentDigest, 32)
              && Wide(p.planDigest, 32) && Wide(p.storageChecksum, 32) && Wide(p.operation, 16) && Wide(p.intent, 32)
  {
    var x := PlanFrom(p).1.1.1;
    NumFacts(16); NumFacts(32); BlobFacts(MAX_CONTENT_BYTES);
    Seq4Facts(Num(32), Num(32), Num(16), Num(32), x.1.1.1);
    Seq4Facts(Num(16), Blob(MAX_CONTENT_BYTES), Num(32), PlanTailC(), x);
  }

  lemma PlanFacts(w: Wires, h: Hashes, p: Plan)
    ensures 1 + PlanC(w, h).len(p) == PlanLen(Some(p))
    ensures PlanC(w, h).ok(p) <==> PlanStorable(w, h, p)
  {
    NumFacts(8); NumFacts(16);
    PlanMidFacts(p);
    Seq4Facts(Num(16), Num(16), Num(8), PlanMidC(), PlanFrom(p));
    MapFacts(PlanB(), x => PlanTo(w, h, x), PlanFrom, p);
  }

  // ------------------------------------------------------------------------- binding

  type BindingTail = (Bytes, (nat, RuntimeAuth))
  type BindingMid = (nat, (nat, (nat, BindingTail)))
  type BindingFields = (nat, (nat, (nat, BindingMid)))

  function BindingTo(w: Wires, x: BindingFields): Option<Binding> {
    var mid, tail := x.1.1.1, x.1.1.1.1.1.1;
    var e := w.bootstrap(tail.0);
    if e.None? || e.value.digest != tail.1.0 then None
    else
      var b := Binding(x.0, x.1.0, x.1.1.0, mid.0, mid.1.0, mid.1.1.0, e.value, tail.1.1);
      if BindingWellFormed(b) then Some(b) else None
  }

  function BindingFrom(b: Binding): BindingFields {
    (b.target, (b.store, (b.channelFingerprint, (b.manifest, (b.firstEpoch, (b.lastEpoch,
     (b.bootstrap.wire, (b.bootstrap.digest, b.runtimeAuth))))))))
  }

  function BindingTailC(): Codec<BindingTail> { Pair(Blob(MAX_BOOTSTRAP_BYTES), Pair(Num(32), RuntimeC())) }

  function BindingMidC(): Codec<BindingMid> { Seq4(Num(32), Num(8), Num(8), BindingTailC()) }

  function BindingB(): Codec<BindingFields> { Seq4(Num(16), Num(32), Num(32), BindingMidC()) }

  function BindingC(w: Wires): Codec<Binding> { Map(BindingB(), x => BindingTo(w, x), BindingFrom) }

  lemma BindingBLawful()
    ensures Lawful(BindingB())
  {
    NumLawful(8); NumLawful(16); NumLawful(32); BlobLawful(MAX_BOOTSTRAP_BYTES); RuntimeLawful();
    PairLawful(Num(32), RuntimeC());
    PairLawful(Blob(MAX_BOOTSTRAP_BYTES), Pair(Num(32), RuntimeC()));
    Seq4Lawful(Num(32), Num(8), Num(8), BindingTailC());
    Seq4Lawful(Num(16), Num(32), Num(32), BindingMidC());
  }

  lemma BindingFaithful(w: Wires, x: BindingFields)
    requires WiresCanonical(w) && BindingTo(w, x).Some?
    ensures BindingFrom(BindingTo(w, x).value) == x
  {
    assert w.bootstrap(x.1.1.1.1.1.1.0).value.wire == x.1.1.1.1.1.1.0;
  }

  lemma BindingLawful(w: Wires)
    requires WiresCanonical(w)
    ensures Lawful(BindingC(w))
  {
    BindingBLawful();
    var to := x => BindingTo(w, x);
    assert Faithful(to, BindingFrom) by {
      forall x: BindingFields | to(x).Some? ensures BindingFrom(to(x).value) == x { BindingFaithful(w, x); }
    }
    MapLawful(BindingB(), to, BindingFrom);
  }

  predicate BindingStorable(w: Wires, b: Binding) {
    && Wide(b.target, 16) && Wide(b.store, 32) && Wide(b.channelFingerprint, 32) && Wide(b.manifest, 32)
    && Wide(b.firstEpoch, 8) && Wide(b.lastEpoch, 8)
    && |b.bootstrap.wire| <= MAX_BOOTSTRAP_BYTES && Wide(b.bootstrap.digest, 32) && RuntimeStorable(b.runtimeAuth)
    && w.bootstrap(b.bootstrap.wire) == Some(b.bootstrap)
    && BindingWellFormed(b)
  }

  lemma BindingTailFacts(b: Binding)
    ensures BindingTailC().len(BindingFrom(b).1.1.1.1.1.1) == 4 + |b.bootstrap.wire| + 32 + RUNTIME_AUTH_BYTES
    ensures BindingTailC().ok(BindingFrom(b).1.1.1.1.1.1) <==>
              |b.bootstrap.wire| <= MAX_BOOTSTRAP_BYTES && Wide(b.bootstrap.digest, 32) && RuntimeStorable(b.runtimeAuth)
  {
    var x := BindingFrom(b).1.1.1.1.1.1;
    NumFacts(32); BlobFacts(MAX_BOOTSTRAP_BYTES); RuntimeFacts(b.runtimeAuth);
    PairFacts(Num(32), RuntimeC(), x.1);
    PairFacts(Blob(MAX_BOOTSTRAP_BYTES), Pair(Num(32), RuntimeC()), x);
  }

  lemma BindingFacts(w: Wires, b: Binding)
    ensures 1 + BindingC(w).len(b) == BindingLen(Some(b))
    ensures BindingC(w).ok(b) <==> BindingStorable(w, b)
  {
    var x := BindingFrom(b);
    NumFacts(8); NumFacts(16); NumFacts(32);
    BindingTailFacts(b);
    Seq4Facts(Num(32), Num(8), Num(8), BindingTailC(), x.1.1.1);
    Seq4Facts(Num(16), Num(32), Num(32), BindingMidC(), x);
    MapFacts(BindingB(), y => BindingTo(w, y), BindingFrom, b);
  }

  // ------------------------------------------------------------------------- intents

  type IntentTail = (AuthPin, (nat, (nat, (nat, RuntimeAuth))))
  type IntentMid = (nat, (nat, (Bytes, IntentTail)))
  type IntentFields = (nat, (nat, (nat, IntentMid)))

  /** The request is kept as bytes; what they decode to is looked up. */
  function IntentTo(w: Wires, x: IntentFields): Option<Intent> {
    var mid, tail := x.1.1.1, x.1.1.1.1.1.1;
    if mid.1.1.0 == [] then None
    else Some(Intent(x.0, x.1.0, x.1.1.0, mid.0, mid.1.0, SignedRequest(mid.1.1.0, w.apply(mid.1.1.0)),
                     tail.0, tail.1.0, tail.1.1.0, tail.1.1.1.0, tail.1.1.1.1))
  }

  function IntentFrom(i: Intent): IntentFields {
    (i.target, (i.planDigest, (i.slice, (i.operation, (i.digest, (i.request.bytes,
     (i.auth, (i.store, (i.channelFingerprint, (i.manifest, i.runtimeAuth))))))))))
  }

  function IntentTailC(): Codec<IntentTail> { Seq5(AuthC(), Num(32), Num(32), Num(32), RuntimeC()) }

  function IntentMidC(): Codec<IntentMid> { Seq4(Num(16), Num(32), Blob(MAX_SIGNED_REQUEST_BYTES), IntentTailC()) }

  function IntentB(): Codec<IntentFields> { Seq4(Num(16), Num(32), Num(32), IntentMidC()) }

  function IntentC(w: Wires): Codec<Intent> { Map(IntentB(), x => IntentTo(w, x), IntentFrom) }

  lemma IntentBLawful()
    ensures Lawful(IntentB())
  {
    NumLawful(16); NumLawful(32); BlobLawful(MAX_SIGNED_REQUEST_BYTES); RuntimeLawful(); AuthLawful();
    Seq5Lawful(AuthC(), Num(32), Num(32), Num(32), RuntimeC());
    Seq4Lawful(Num(16), Num(32), Blob(MAX_SIGNED_REQUEST_BYTES), IntentTailC());
    Seq4Lawful(Num(16), Num(32), Num(32), IntentMidC());
  }

  lemma IntentLawful(w: Wires)
    ensures Lawful(IntentC(w))
  {
    IntentBLawful();
    var to := x => IntentTo(w, x);
    assert Faithful(to, IntentFrom) by {
      forall x: IntentFields | to(x).Some? ensures IntentFrom(to(x).value) == x { IntentFaithful(w, x); }
    }
    MapLawful(IntentB(), to, IntentFrom);
  }

  lemma IntentFaithful(w: Wires, x: IntentFields)
    requires IntentTo(w, x).Some?
    ensures IntentFrom(IntentTo(w, x).value) == x
  {
  }

  predicate IntentStorable(w: Wires, i: Intent) {
    && Wide(i.target, 16) && Wide(i.planDigest, 32) && Wide(i.slice, 32) && Wide(i.operation, 16) && Wide(i.digest, 32)
    && 0 < |i.request.bytes| <= MAX_SIGNED_REQUEST_BYTES && AuthStorable(i.auth)
    && Wide(i.store, 32) && Wide(i.channelFingerprint, 32) && Wide(i.manifest, 32) && RuntimeStorable(i.runtimeAuth)
    && i.request.decoded == w.apply(i.request.bytes)
  }

  const INTENT_FIXED_BYTES: nat := 16 + 32 + 32 + 16 + 32 + 4 + AUTH_PIN_BYTES + 32 + 32 + 32 + RUNTIME_AUTH_BYTES

  lemma IntentMidFacts(i: Intent)
    ensures IntentMidC().len(IntentFrom(i).1.1.1) ==
            16 + 32 + 4 + |i.request.bytes| + AUTH_PIN_BYTES + 32 + 32 + 32 + RUNTIME_AUTH_BYTES
    ensures IntentMidC().ok(IntentFrom(i).1.1.1) <==>
              && Wide(i.operation, 16) && Wide(i.digest, 32) && |i.request.bytes| <= MAX_SIGNED_REQUEST_BYTES
              && AuthStorable(i.auth) && Wide(i.store, 32) && Wide(i.channelFingerprint, 32) && Wide(i.manifest, 32)
              && RuntimeStorable(i.runtimeAuth)
  {
    var x := IntentFrom(i).1.1.1;
    NumFacts(16); NumFacts(32); BlobFacts(MAX_SIGNED_REQUEST_BYTES); AuthFacts(i.auth); RuntimeFacts(i.runtimeAuth);
    Seq5Facts(AuthC(), Num(32), Num(32), Num(32), RuntimeC(), x.1.1.1);
    Seq4Facts(Num(16), Num(32), Blob(MAX_SIGNED_REQUEST_BYTES), IntentTailC(), x);
  }

  lemma IntentFacts(w: Wires, i: Intent)
    ensures IntentC(w).len(i) == INTENT_FIXED_BYTES + |i.request.bytes|
    ensures IntentC(w).ok(i) <==> IntentStorable(w, i)
  {
    NumFacts(16); NumFacts(32);
    IntentMidFacts(i);
    Seq4Facts(Num(16), Num(32), Num(32), IntentMidC(), IntentFrom(i));
    MapFacts(IntentB(), x => IntentTo(w, x), IntentFrom, i);
  }
}
