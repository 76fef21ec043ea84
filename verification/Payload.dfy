/**
 Rollouts and the payload as a whole: the layout is lawful, its length is the
 predicted one, and what it can hold is spelled out.
 */
module Payload {
  import opened Types
  import opened Rollouts
  import opened Sizes
  import opened Codecs
  import opened Layout
  import opened Embedded

  // ------------------------------------------------------------------------ attempts

  type DecisionFields = (nat, (nat, (Observed, Option<nat>)))

  function DecisionTo(x: DecisionFields): Option<Decision> { Some(Decision(x.0, x.1.0, x.1.1.0, x.1.1.1)) }

  function DecisionFrom(d: Decision): DecisionFields { (d.query, (d.sequence, (d.observed, d.receipt))) }

  function ObservedC(): Codec<Observed> { Map(Num(1), ObservedUntag, ObservedTag) }

  function DecisionB(): Codec<DecisionFields> { Seq4(Num(16), Num(8), ObservedC(), Opt(Num(16))) }

  function DecisionC(): Codec<Decision> { Map(DecisionB(), DecisionTo, DecisionFrom) }

  function ClosureC(): Codec<Closure> { Map(Num(1), ClosureUntag, ClosureTag) }

  lemma DecisionLawful()
    ensures Lawful(DecisionC()) && Lawful(ClosureC())
  {
    NumLawful(1); NumLawful(8); NumLawful(16); OptLawful(Num(16));
    MapLawful(Num(1), ObservedUntag, ObservedTag);
    MapLawful(Num(1), ClosureUntag, ClosureTag);
    Seq4Lawful(Num(16), Num(8), ObservedC(), Opt(Num(16)));
    MapLawful(DecisionB(), DecisionTo, DecisionFrom);
  }

  predicate DecisionStorable(d: Decision) { Wide(d.query, 16) && Wide(d.sequence, 8) && OptWide(d.receipt, 16) }

  lemma DecisionFacts(d: Decision)
    ensures DecisionC().len(d) == 16 + 8 + 1 + 1 + Flag(d.receipt.Some?) * 16
    ensures DecisionC().ok(d) <==> DecisionStorable(d)
  {
    NumFacts(1); NumFacts(8); NumFacts(16); OptFacts(Num(16), d.receipt);
    MapFacts(Num(1), ObservedUntag, ObservedTag, d.observed);
    Seq4Facts(Num(16), Num(8), ObservedC(), Opt(Num(16)), DecisionFrom(d));
    MapFacts(DecisionB(), DecisionTo, DecisionFrom, d);
  }

  lemma ClosureFacts(c: Closure)
    ensures ClosureC().len(c) == 1 && ClosureC().ok(c)
  {
    NumFacts(1);
    MapFacts(Num(1), ClosureUntag, ClosureTag, c);
  }

  type PreparedFields = (Bytes, (AuthPin, (Channel, (RuntimeAuth, Serving))))
  type ObservationFields = (Bytes, (nat, Channel))
  type AttemptFields = (PreparedFields, (Option<ObservationFields>, (Option<Closure>, Option<Decision>)))

  function PreparedFrom(p: Prepared): PreparedFields {
    (p.request.wire, (p.auth, (p.channel, (p.runtimeAuth, p.baseline))))
  }

  function ObservationFrom(o: Observation): ObservationFields { (o.response.wire, (o.response.digest, o.channel)) }

  function AttemptFrom(a: Attempt): AttemptFields {
    (PreparedFrom(a.prepared),
     (if a.observation.None? then None else Some(ObservationFrom(a.observation.value)), (a.closure, a.decision)))
  }

  function ObservationTo(w: Wires, x: ObservationFields, p: Prepared): Option<Observation> {
    var r := w.queryResponse(x.0);
    if r.None? || r.value.digest != x.1.0 || !ObservationValid(Observation(r.value, x.1.1), p) then None
    else Some(Observation(r.value, x.1.1))
  }

  /** A stored attempt is read back only if its answer really answers its query and
      its decision is about that answer. */
  function AttemptTo(w: Wires, x: AttemptFields): Option<Attempt> {
    var q := w.queryRequest(x.0.0);
    if q.None? then None
    else
      var p := Prepared(q.value, x.0.1.0, x.0.1.1.0, x.0.1.1.1.0, x.0.1.1.1.1);
      var o := if x.1.0.None? then None else ObservationTo(w, x.1.0.value, p);
      var a := Attempt(p, o, x.1.1.0, x.1.1.1);
      if (x.1.0.Some? && o.None?) || !AttemptValid(a) then None else Some(a)
  }

  function PreparedC(): Codec<PreparedFields> {
    Seq5(Blob(MAX_QUERY_REQUEST_BYTES), AuthC(), ChannelC(), RuntimeC(), ServingC())
  }

  function ObservationC(): Codec<ObservationFields> { Pair(Blob(MAX_QUERY_RESPONSE_BYTES), Pair(Num(32), ChannelC())) }

  function AttemptB(): Codec<AttemptFields> { Seq4(PreparedC(), Opt(ObservationC()), Opt(ClosureC()), Opt(DecisionC())) }

  function AttemptC(w: Wires): Codec<Attempt> { Map(AttemptB(), x => AttemptTo(w, x), AttemptFrom) }

  lemma AttemptBLawful()
    ensures Lawful(AttemptB())
  {
    NumLawful(32); BlobLawful(MAX_QUERY_REQUEST_BYTES); BlobLawful(MAX_QUERY_RESPONSE_BYTES);
    AuthLawful(); ChannelLawful(); RuntimeLawful(); ServingLawful(); DecisionLawful();
    Seq5Lawful(Blob(MAX_QUERY_REQUEST_BYTES), AuthC(), ChannelC(), RuntimeC(), ServingC());
    PairLawful(Num(32), ChannelC());
    PairLawful(Blob(MAX_QUERY_RESPONSE_BYTES), Pair(Num(32), ChannelC()));
    OptLawful(ObservationC()); OptLawful(ClosureC()); OptLawful(DecisionC());
    Seq4Lawful(PreparedC(), Opt(ObservationC()), Opt(ClosureC()), Opt(DecisionC()));
  }

  lemma AttemptFaithful(w: Wires, x: AttemptFields)
    requires WiresCanonical(w) && AttemptTo(w, x).Some?
    ensures AttemptFrom(AttemptTo(w, x).value) == x
  {
    assert w.queryRequest(x.0.0).value.wire == x.0.0;
    if x.1.0.Some? { assert w.queryResponse(x.1.0.value.0).value.wire == x.1.0.value.0; }
  }

  lemma AttemptLawful(w: Wires)
    requires WiresCanonical(w)
    ensures Lawful(AttemptC(w))
  {
    AttemptBLawful();
    var to := x => AttemptTo(w, x);
    assert Faithful(to, AttemptFrom) by {
      forall x: AttemptFields | to(x).Some? ensures AttemptFrom(to(x).value) == x { AttemptFaithful(w, x); }
    }
    MapLawful(AttemptB(), to, AttemptFrom);
  }

  predicate PreparedStorable(p: Prepared) {
    && |p.request.wire| <= MAX_QUERY_REQUEST_BYTES && AuthStorable(p.auth) && ChannelStorable(p.channel)
    && RuntimeStorable(p.runtimeAuth) && ServingStorable(p.baseline)
  }

  predicate ObservationStorable(o: Observation) {
    |o.response.wire| <= MAX_QUERY_RESPONSE_BYTES && Wide(o.response.digest, 32) && ChannelStorable(o.channel)
  }

  predicate AttemptFits(a: Attempt) {
    && PreparedStorable(a.prepared)
    && (a.observation.Some? ==> ObservationStorable(a.observation.value))
    && (a.decision.Some? ==> DecisionStorable(a.decision.value))
  }

  predicate AttemptStorable(w: Wires, a: Attempt) { AttemptFits(a) && AttemptReadable(w, a) }

  lemma PreparedFacts(p: Prepared)
    ensures PreparedC().len(PreparedFrom(p)) ==
            4 + |p.request.wire| + AUTH_PIN_BYTES + CHANNEL_BYTES + RUNTIME_AUTH_BYTES + BASELINE_BYTES
    ensures PreparedC().ok(PreparedFrom(p)) <==> PreparedStorable(p)
  {
    BlobFacts(MAX_QUERY_REQUEST_BYTES);
    AuthFacts(p.auth); ChannelFacts(p.channel); RuntimeFacts(p.runtimeAuth); ServingFacts(p.baseline);
    Seq5Facts(Blob(MAX_QUERY_REQUEST_BYTES), AuthC(), ChannelC(), RuntimeC(), ServingC(), PreparedFrom(p));
  }

  lemma ObservationFacts(o: Observation)
    ensures ObservationC().len(ObservationFrom(o)) == 4 + |o.response.wire| + 32 + CHANNEL_BYTES
    ensures ObservationC().ok(ObservationFrom(o)) <==> ObservationStorable(o)
  {
    NumFacts(32); BlobFacts(MAX_QUERY_RESPONSE_BYTES); ChannelFacts(o.channel);
    PairFacts(Num(32), ChannelC(), ObservationFrom(o).1);
    PairFacts(Blob(MAX_QUERY_RESPONSE_BYTES), Pair(Num(32), ChannelC()), ObservationFrom(o));
  }

  function ObservationField(o: Option<Observation>): Option<ObservationFields> {
    if o.None? then None else Some(ObservationFrom(o.value))
  }

  lemma OptionalFacts(o: Option<Observation>, c: Option<Closure>, d: Option<Decision>)
    ensures Opt(ObservationC()).len(ObservationField(o)) ==
            1 + (if o.Some? then 4 + |o.value.response.wire| + 32 + CHANNEL_BYTES else 0)
    ensures Opt(ObservationC()).ok(ObservationField(o)) <==> (o.Some? ==> ObservationStorable(o.value))
    ensures Opt(ClosureC()).len(c) == 1 + Flag(c.Some?) && Opt(ClosureC()).ok(c)
    ensures Opt(DecisionC()).len(d) == 1 + (if d.Some? then 16 + 8 + 1 + 1 + Flag(d.value.receipt.Some?) * 16 else 0)
    ensures Opt(DecisionC()).ok(d) <==> (d.Some? ==> DecisionStorable(d.value))
  {
    if o.Some? { ObservationFacts(o.value); }
    if c.Some? { ClosureFacts(c.value); }
    if d.Some? { DecisionFacts(d.value); }
    OptFacts(ObservationC(), ObservationField(o));
    OptFacts(ClosureC(), c);
    OptFacts(DecisionC(), d);
  }

  lemma AttemptBFacts(a: Attempt)
    ensures AttemptB().len(AttemptFrom(a)) == AttemptLen(a)
    ensures AttemptB().ok(AttemptFrom(a)) <==> AttemptFits(a)
  {
    var p, o, c, d := PreparedC(), Opt(ObservationC()), Opt(ClosureC()), Opt(DecisionC());
    var x := AttemptFrom(a);
    assert x == (PreparedFrom(a.prepared), (ObservationField(a.observation), (a.closure, a.decision)));
    PreparedFacts(a.prepared);
    OptionalFacts(a.observation, a.closure, a.decision);
    Seq4Facts(p, o, c, d, x);
  }

  /** Its embedded messages decode to what the attempt says. */
  predicate AttemptReadable(w: Wires, a: Attempt) {
    && w.queryRequest(a.prepared.request.wire) == Some(a.prepared.request)
    && (a.observation.Some? ==>
          var o := a.observation.value;
          w.queryResponse(o.response.wire) == Some(o.response) && ObservationValid(o, a.prepared))
    && AttemptValid(a)
  }

  lemma AttemptReads(w: Wires, a: Attempt)
    ensures AttemptTo(w, AttemptFrom(a)) == Some(a) <==> AttemptReadable(w, a)
  {
    var x := AttemptFrom(a);
    assert Prepared(a.prepared.request, x.0.1.0, x.0.1.1.0, x.0.1.1.1.0, x.0.1.1.1.1) == a.prepared;
    assert a.observation.Some? ==>
             Observation(a.observation.value.response, x.1.0.value.1.1) == a.observation.value;
  }

  lemma AttemptFacts(w: Wires, a: Attempt)
    ensures AttemptC(w).len(a) == AttemptLen(a)
    ensures AttemptC(w).ok(a) <==> AttemptStorable(w, a)
  {
    AttemptBFacts(a);
    AttemptReads(w, a);
    MapFacts(AttemptB(), x => AttemptTo(w, x), AttemptFrom, a);
  }

  lemma {:induction false} AttemptsLenFacts(w: Wires, attempts: seq<Attempt>)
    ensures LenAll(AttemptC(w), attempts) == AttemptsLen(attempts)
  {
    if attempts != [] {
      LenAllLast(AttemptC(w), attempts);
      AttemptsLenFacts(w, attempts[..|attempts| - 1]);
      AttemptFacts(w, attempts[|attempts| - 1]);
    }
  }

  // ------------------------------------------------------------------------ rollouts

  type RolloutFields = (Intent, (Option<Bytes>, seq<Attempt>))

  function RolloutFrom(r: Rollout): RolloutFields {
    (r.intent, (if r.direct.None? then None else Some(r.direct.value.wire), r.attempts))
  }

  function RolloutTo(w: Wires, x: RolloutFields): Option<Rollout> {
    var receipt := if x.1.0.None? then None else w.receipt(x.1.0.value);
    var r := Rollout(x.0, receipt, x.1.1);
    if (x.1.0.Some? && receipt.None?) || !RolloutValid(r) then None else Some(r)
  }

  function AttemptsC(w: Wires): Codec<seq<Attempt>> { List(AttemptC(w), MAX_ATTEMPTS) }

  function RolloutB(w: Wires): Codec<RolloutFields> {
    Pair(IntentC(w), Pair(Opt(Blob(MAX_RECEIPT_BYTES)), AttemptsC(w)))
  }

  function RolloutC(w: Wires): Codec<Rollout> { Map(RolloutB(w), x => RolloutTo(w, x), RolloutFrom) }

  lemma RolloutBLawful(w: Wires)
    requires WiresCanonical(w)
    ensures Lawful(RolloutB(w))
  {
    IntentLawful(w); AttemptLawful(w);
    BlobLawful(MAX_RECEIPT_BYTES); OptLawful(Blob(MAX_RECEIPT_BYTES));
    ListLawful(AttemptC(w), MAX_ATTEMPTS);
    PairLawful(Opt(Blob(MAX_RECEIPT_BYTES)), AttemptsC(w));
    PairLawful(IntentC(w), Pair(Opt(Blob(MAX_RECEIPT_BYTES)), AttemptsC(w)));
  }

  lemma RolloutFaithful(w: Wires, x: RolloutFields)
    requires WiresCanonical(w) && RolloutTo(w, x).Some?
    ensures RolloutFrom(RolloutTo(w, x).value) == x
  {
    if x.1.0.Some? { assert w.receipt(x.1.0.value).value.wire == x.1.0.value; }
  }

  lemma RolloutLawful(w: Wires)
    requires WiresCanonical(w)
    ensures Lawful(RolloutC(w))
  {
    RolloutBLawful(w);
    var to := x => RolloutTo(w, x);
    assert Faithful(to, RolloutFrom) by {
      forall x: RolloutFields | to(x).Some? ensures RolloutFrom(to(x).value) == x { RolloutFaithful(w, x); }
    }
    MapLawful(RolloutB(w), to, RolloutFrom);
  }

  predicate RolloutFits(w: Wires, r: Rollout) {
    var fits :=
      && IntentStorable(w, r.intent)
      && (r.direct.Some? ==> |r.direct.value.wire| <= MAX_RECEIPT_BYTES)
      && |r.attempts| <= MAX_ATTEMPTS && (forall i :: 0 <= i < |r.attempts| ==> AttemptStorable(w, r.attempts[i]));
    fits
  }

  predicate RolloutReadable(w: Wires, r: Rollout) {
    var readable :=
      (r.direct.Some? ==> w.receipt(r.direct.value.wire) == Some(r.direct.value)) && RolloutValid(r);
    readable
  }

  predicate RolloutStorable(w: Wires, r: Rollout) { RolloutFits(w, r) && RolloutReadable(w, r) }

  lemma RolloutReads(w: Wires, r: Rollout)
    ensures RolloutTo(w, RolloutFrom(r)) == Some(r) <==> RolloutReadable(w, r)
  {
  }

  lemma AttemptsFacts(w: Wires, attempts: seq<Attempt>)
    ensures AttemptsC(w).len(attempts) == 4 + AttemptsLen(attempts)
    ensures AttemptsC(w).ok(attempts) <==>
              |attempts| <= MAX_ATTEMPTS && forall i :: 0 <= i < |attempts| ==> AttemptStorable(w, attempts[i])
  {
    ListFacts(AttemptC(w), MAX_ATTEMPTS, attempts);
    AttemptsLenFacts(w, attempts);
    forall i | 0 <= i < |attempts| ensures AttemptC(w).ok(attempts[i]) <==> AttemptStorable(w, attempts[i]) {
      AttemptFacts(w, attempts[i]);
    }
  }

  lemma ReceiptFacts(r: Option<Receipt>)
    ensures var x := if r.None? then None else Some(r.value.wire);
            && Opt(Blob(MAX_RECEIPT_BYTES)).len(x) == 1 + (if r.Some? then 4 + |r.value.wire| else 0)
            && (Opt(Blob(MAX_RECEIPT_BYTES)).ok(x) <==> (r.Some? ==> |r.value.wire| <= MAX_RECEIPT_BYTES))
  {
    BlobFacts(MAX_RECEIPT_BYTES);
    OptFacts(Blob(MAX_RECEIPT_BYTES), if r.None? then None else Some(r.value.wire));
  }

  lemma RolloutBFacts(w: Wires, r: Rollout)
    ensures RolloutB(w).len(RolloutFrom(r)) == RolloutLen(r)
    ensures RolloutB(w).ok(RolloutFrom(r)) <==> RolloutFits(w, r)
  {
    IntentFacts(w, r.intent);
    ReceiptFacts(r.direct);
    AttemptsFacts(w, r.attempts);
    PairFacts(Opt(Blob(MAX_RECEIPT_BYTES)), AttemptsC(w), RolloutFrom(r).1);
    PairFacts(IntentC(w), Pair(Opt(Blob(MAX_RECEIPT_BYTES)), AttemptsC(w)), RolloutFrom(r));
  }

  lemma RolloutFacts(w: Wires, r: Rollout)
    ensures RolloutC(w).len(r) == RolloutLen(r)
    ensures RolloutC(w).ok(r) <==> RolloutStorable(w, r)
  {
    RolloutBFacts(w, r);
    RolloutReads(w, r);
    MapFacts(RolloutB(w), x => RolloutTo(w, x), RolloutFrom, r);
  }
}
