/**
 The encoder as it runs: field after field appended to one growing buffer, in the order
 of the file. It writes exactly what the codecs describe.
 */
module Encoder {
  import opened Types
  import opened Rollouts
  import opened Codecs
  import opened Layout
  import opened Embedded
  import opened Payload
  import opened Body
  import opened Envelope
  import opened Snapshots

  // --------------------------------------------------------------- appending in order

  lemma ThenPair<A, B>(pre: Bytes, a: Codec<A>, b: Codec<B>, x: (A, B))
    ensures pre + a.enc(x.0) + b.enc(x.1) == pre + Pair(a, b).enc(x)
  {
    assert Pair(a, b).enc(x) == a.enc(x.0) + b.enc(x.1);
  }

  lemma Then4<A, B, C, D>(pre: Bytes, a: Codec<A>, b: Codec<B>, c: Codec<C>, d: Codec<D>, x: (A, (B, (C, D))))
    ensures pre + a.enc(x.0) + b.enc(x.1.0) + c.enc(x.1.1.0) + d.enc(x.1.1.1) == pre + Seq4(a, b, c, d).enc(x)
  {
    ThenPair(pre + a.enc(x.0) + b.enc(x.1.0), c, d, x.1.1);
    ThenPair(pre + a.enc(x.0), b, Pair(c, d), x.1);
    ThenPair(pre, a, Pair(b, Pair(c, d)), x);
  }

  lemma Then5<A, B, C, D, E>(pre: Bytes, a: Codec<A>, b: Codec<B>, c: Codec<C>, d: Codec<D>, e: Codec<E>,
                             x: (A, (B, (C, (D, E)))))
    ensures pre + a.enc(x.0) + b.enc(x.1.0) + c.enc(x.1.1.0) + d.enc(x.1.1.1.0) + e.enc(x.1.1.1.1)
            == pre + Seq5(a, b, c, d, e).enc(x)
  {
    Then4(pre + a.enc(x.0), b, c, d, e, x.1);
    ThenPair(pre, a, Seq4(b, c, d, e), x);
  }

  lemma Present<A>(pre: Bytes, c: Codec<A>, x: A)
    ensures pre + [1] + c.enc(x) == pre + Opt(c).enc(Some(x))
  {
    assert Opt(c).enc(Some(x)) == [1] + c.enc(x);
  }

  lemma Absent<A>(pre: Bytes, c: Codec<A>)
    ensures pre + [0] == pre + Opt(c).enc(None)
  {
    assert Opt(c).enc(None) == [0];
  }

  ghost predicate EncodedAt<A>(c: Codec<A>, xs: seq<A>, b: Bytes, i: nat)
    requires i < |xs|
  {
    b == c.enc(xs[i])
  }

  /** `b` is what `c` writes for `x`. */
  ghost predicate Encodes<A>(c: Codec<A>, x: A, b: Bytes) {
    forall i :: 0 <= i < |[x]| ==> EncodedAt(c, [x], b, i)
  }

  lemma EncodesEnc<A>(c: Codec<A>, x: A, b: Bytes)
    ensures Encodes(c, x, b) <==> b == c.enc(x)
  {
    if Encodes(c, x, b) { assert EncodedAt(c, [x], b, 0); }
    if b == c.enc(x) {
      forall i | 0 <= i < |[x]| ensures EncodedAt(c, [x], b, i) { }
    }
  }

  lemma Encodes4<A, B, C, D>(a: Codec<A>, b: Codec<B>, c: Codec<C>, d: Codec<D>, x: (A, (B, (C, D))),
                             pa: Bytes, pb: Bytes, pc: Bytes, pd: Bytes)
    requires Encodes(a, x.0, pa) && Encodes(b, x.1.0, pb) && Encodes(c, x.1.1.0, pc) && Encodes(d, x.1.1.1, pd)
    ensures Encodes(Seq4(a, b, c, d), x, pa + (pb + (pc + pd)))
  {
    EncodesEnc(a, x.0, pa); EncodesEnc(b, x.1.0, pb); EncodesEnc(c, x.1.1.0, pc); EncodesEnc(d, x.1.1.1, pd);
    EncodesEnc(Seq4(a, b, c, d), x, pa + (pb + (pc + pd)));
  }

  lemma Encodes5<A, B, C, D, E>(a: Codec<A>, b: Codec<B>, c: Codec<C>, d: Codec<D>, e: Codec<E>, x: (A, (B, (C, (D, E)))),
                                pa: Bytes, pb: Bytes, pc: Bytes, pd: Bytes, pe: Bytes)
    requires Encodes(a, x.0, pa) && Encodes(b, x.1.0, pb) && Encodes(c, x.1.1.0, pc) && Encodes(d, x.1.1.1.0, pd)
    requires Encodes(e, x.1.1.1.1, pe)
    ensures Encodes(Seq5(a, b, c, d, e), x, pa + (pb + (pc + (pd + pe))))
  {
    Encodes4(b, c, d, e, x.1, pb, pc, pd, pe);
    EncodesEnc(a, x.0, pa);
    EncodesEnc(Seq4(b, c, d, e), x.1, pb + (pc + (pd + pe)));
    EncodesEnc(Seq5(a, b, c, d, e), x, pa + (pb + (pc + (pd + pe))));
  }

  lemma EncodesNum(width: nat, n: nat)
    ensures Encodes(Num(width), n, Digits(n, width))
  {
    EncodesEnc(Num(width), n, Digits(n, width));
  }

  lemma EncodesMap<A, B>(a: Codec<A>, to: A -> Option<B>, from: B -> A, y: B, b: Bytes)
    requires Encodes(a, from(y), b)
    ensures Encodes(Map(a, to, from), y, b)
  {
    EncodesEnc(a, from(y), b);
    EncodesEnc(Map(a, to, from), y, b);
  }

  lemma Joined(pre: Bytes, a: Bytes, b: Bytes, c: Bytes, d: Bytes)
    ensures pre + a + b + c + d == pre + (a + (b + (c + d)))
  {
  }

  lemma Joined5(pre: Bytes, a: Bytes, b: Bytes, c: Bytes, d: Bytes, e: Bytes)
    ensures pre + a + b + c + d + e == pre + (a + (b + (c + (d + e))))
  {
    Joined(pre + a, b, c, d, e);
  }

  lemma OneByte(n: nat)
    requires n < 256
    ensures Digits(n, 1) == [n]
  {
    DigitsStep(n, 1);
    assert Digits(n / 256, 0) == [];
  }

  lemma MapBytes<A, B>(a: Codec<A>, to: A -> Option<B>, from: B -> A, y: B)
    ensures Map(a, to, from).enc(y) == a.enc(from(y))
  {
  }

  method AppendBytes(encoded: Bytes, b: Bytes, ghost max: nat) returns (r: Bytes)
    ensures r == encoded + Blob(max).enc(b)
  {
    r := encoded + Digits(|b|, 4);
    r := r + b;
  }

  method AppendAuth(encoded: Bytes, a: AuthPin) returns (r: Bytes)
    ensures r == encoded + AuthC().enc(a)
  {
    r := encoded + Digits(a.key, 16);
    r := r + Digits(a.algorithm, 2);
    r := r + Digits(a.version, 2);
    r := r + Digits(a.fingerprint, 32);
    r := r + Digits(a.generation, 8);
    Then5(encoded, Num(16), Num(2), Num(2), Num(32), Num(8), AuthFrom(a));
    MapBytes(AuthB(), AuthTo, AuthFrom, a);
  }

  method AppendRuntimeAuth(encoded: Bytes, p: RuntimeAuth) returns (r: Bytes)
    ensures r == encoded + RuntimeC().enc(p)
  {
    r := encoded + Digits(p.bootstrapDigest, 32);
    r := r + Digits(p.peer, 16);
    r := r + Digits(p.endpoint, 32);
    ghost var mid := r;
    r := r + Digits(p.credentials, 32);
    r := r + Digits(p.key, 16);
    r := r + Digits(p.algorithm, 2);
    r := r + Digits(p.version, 2);
    Then4(mid, Num(32), Num(16), Num(2), Num(2), RuntimeFrom(p).1.1.1);
    Then4(encoded, Num(32), Num(16), Num(32), Seq4(Num(32), Num(16), Num(2), Num(2)), RuntimeFrom(p));
    MapBytes(RuntimeB(), RuntimeTo, RuntimeFrom, p);
  }

  method AppendChannel(encoded: Bytes, c: Channel) returns (r: Bytes)
    ensures r == encoded + ChannelC().enc(c)
  {
    r := encoded + Digits(c.target, 16);
    r := r + Digits(c.peer, 16);
    r := r + Digits(c.endpoint, 32);
    r := r + Digits(c.credentials, 32);
    Then4(encoded, Num(16), Num(16), Num(32), Num(32), ChannelFrom(c));
    MapBytes(ChannelB(), ChannelTo, ChannelFrom, c);
  }

  method AppendServing(encoded: Bytes, s: Serving) returns (r: Bytes)
    ensures r == encoded + ServingC().enc(s)
  {
    r := encoded + Digits(s.target, 16);
    r := r + Digits(s.store, 32);
    r := r + Digits(s.sequence, 8);
    r := r + Digits(s.epoch, 8);
    ghost var mid := r;
    r := r + Digits(s.clockDomain, 16);
    r := r + Digits(s.clockGeneration, 8);
    ThenPair(mid, Num(16), Num(8), ServingFrom(s).1.1.1.1);
    Then5(encoded, Num(16), Num(32), Num(8), Num(8), Pair(Num(16), Num(8)), ServingFrom(s));
    MapBytes(ServingB(), ServingTo, ServingFrom, s);
  }

  method AppendOptional(encoded: Bytes, x: Option<nat>, width: nat) returns (r: Bytes)
    ensures r == encoded + Opt(Num(width)).enc(x)
  {
    if x.None? { return encoded + [0]; }
    r := encoded + [1];
    r := r + Digits(x.value, width);
  }

  // ------------------------------------------------------------------------- sequences

  lemma {:induction false} EncodeAllLast<A>(c: Codec<A>, xs: seq<A>)
    requires xs != []
    ensures EncodeAll(c, xs) == EncodeAll(c, xs[..|xs| - 1]) + c.enc(xs[|xs| - 1])
  {
    if |xs| > 1 {
      var rest := xs[1..];
      EncodeAllLast(c, rest);
      assert rest[..|rest| - 1] == xs[..|xs| - 1][1..];
    }
  }

  /** One element more: what a loop over the records appends. */
  lemma OneMore<A>(pre: Bytes, c: Codec<A>, xs: seq<A>, i: nat)
    requires i < |xs|
    ensures pre + EncodeAll(c, xs[..i + 1]) == pre + EncodeAll(c, xs[..i]) + c.enc(xs[i])
  {
    assert xs[..i + 1][..i] == xs[..i];
    EncodeAllLast(c, xs[..i + 1]);
  }

  lemma AllAppended<A>(pre: Bytes, c: Codec<A>, max: nat, xs: seq<A>)
    ensures pre + Digits(|xs|, 4) + EncodeAll(c, xs[..|xs|]) == pre + List(c, max).enc(xs)
    ensures pre + EncodeAll(c, xs[..0]) == pre
  {
    assert xs[..|xs|] == xs;
  }

  method AppendAllocations(encoded: Bytes, records: seq<AllocationRecord>) returns (r: Bytes)
    ensures r == encoded + List(AllocationC(), MAX_ALLOCATION_RECORDS).enc(records)
  {
    r := encoded + Digits(|records|, 4);
    ghost var start := r;
    AllAppended(encoded, AllocationC(), MAX_ALLOCATION_RECORDS, records);
    AllAppended(start, AllocationC(), MAX_ALLOCATION_RECORDS, records);
    for i := 0 to |records|
      invariant r == start + EncodeAll(AllocationC(), records[..i])
    {
      OneMore(start, AllocationC(), records, i);
      r := AppendAllocation(r, records[i]);
    }
  }

  method AppendAllocation(encoded: Bytes, a: AllocationRecord) returns (r: Bytes)
    ensures r == encoded + AllocationC().enc(a)
  {
    r := encoded + Digits(a.key, 16);
    r := r + Digits(a.ordinal, 8);
    r := r + Digits(a.instance, 16);
    r := r + Digits(a.domain, 16);
    var code := match a.state case Active => 1 case Tombstone => 2;
    OneByte(code);
    r := r + [code];
    MapBytes(Num(1), AllocationUntag, AllocationTag, a.state);
    Then5(encoded, Num(16), Num(8), Num(16), Num(16), AllocationTagC(), AllocationFrom(a));
    MapBytes(AllocationB(), AllocationTo, AllocationFrom, a);
  }

  method AppendOperation(encoded: Bytes, o: Operation) returns (r: Bytes)
    ensures r == encoded + OperationC().enc(o)
  {
    r := encoded + Digits(o.id, 16);
    r := r + Digits(o.intent, 32);
    r := r + Digits(o.expected, 8);
    ghost var mid := r;
    var code := match o.phase case OpPrepared => 1 case OpCommitted => 2 case OpUncertain => 3 case OpTerminal => 4;
    OneByte(code);
    r := r + [code];
    r := AppendOptional(r, o.result, 16);
    r := AppendOptional(r, o.generation, 8);
    r := AppendOptional(r, o.planDigest, 32);
    MapBytes(Num(1), PhaseUntag, PhaseTag, o.phase);
    Then4(mid, PhaseC(), Opt(Num(16)), Opt(Num(8)), Opt(Num(32)), OperationFrom(o).1.1.1);
    Then4(encoded, Num(16), Num(32), Num(8), OperationT(), OperationFrom(o));
    MapBytes(OperationB(), OperationTo, OperationFrom, o);
  }

  method AppendOperations(encoded: Bytes, ops: seq<Operation>) returns (r: Bytes)
    ensures r == encoded + List(OperationC(), MAX_LEDGER_RECORDS).enc(ops)
  {
    r := encoded + Digits(|ops|, 4);
    ghost var start := r;
    AllAppended(encoded, OperationC(), MAX_LEDGER_RECORDS, ops);
    AllAppended(start, OperationC(), MAX_LEDGER_RECORDS, ops);
    for i := 0 to |ops|
      invariant r == start + EncodeAll(OperationC(), ops[..i])
    {
      OneMore(start, OperationC(), ops, i);
      r := AppendOperation(r, ops[i]);
    }
  }

  // --------------------------------------------------------------------------- tenures

  method AppendResponse(encoded: Bytes, answer: TenureResponse) returns (r: Bytes)
    ensures r == encoded + TenureAnswerC().enc(TenureAnswerFrom(answer))
  {
    r := encoded + Digits(answer.digest, 32);
    ghost var mid := r;
    r := r + Digits(answer.proofDigest, 32);
    r := AppendBytes(r, answer.wire, MAX_TENURE_RESPONSE_BYTES);
    ghost var x := TenureAnswerFrom(answer);
    ThenPair(mid, Num(32), Blob(MAX_TENURE_RESPONSE_BYTES), x.1);
    ThenPair(encoded, Num(32), Pair(Num(32), Blob(MAX_TENURE_RESPONSE_BYTES)), x);
  }

  method AppendTenureAnswer(encoded: Bytes, answer: Option<TenureResponse>) returns (r: Bytes)
    ensures r == encoded + Opt(TenureAnswerC()).enc(if answer.None? then None else Some(TenureAnswerFrom(answer.value)))
  {
    if answer.None? {
      Absent(encoded, TenureAnswerC());
      return encoded + [0];
    }
    r := AppendResponse(encoded + [1], answer.value);
    Present(encoded, TenureAnswerC(), TenureAnswerFrom(answer.value));
  }

  method AppendTenureTail(encoded: Bytes, t: Tenure) returns (r: Bytes)
    ensures r == encoded + TenureTailC().enc(TenureFrom(t).1.1.1.1.1.1)
  {
    var q := t.request;
    r := encoded + Digits(q.digest, 32);
    r := AppendBytes(r, q.nonce, MAX_TENURE_NONCE_BYTES);
    r := AppendBytes(r, q.wire, MAX_TENURE_REQUEST_BYTES);
    r := AppendTenureAnswer(r, t.response);
    Then4(encoded, Num(32), Blob(MAX_TENURE_NONCE_BYTES), Blob(MAX_TENURE_REQUEST_BYTES), Opt(TenureAnswerC()),
          TenureFrom(t).1.1.1.1.1.1);
  }

  method AppendTenure(encoded: Bytes, t: Tenure, ghost w: Wires) returns (r: Bytes)
    ensures r == encoded + TenureC(w).enc(t)
  {
    var q := t.request;
    r := encoded + Digits(q.operation, 16);
    var code := match t.phase case TenurePrepared => 1 case TenureUncertain => 2 case TenureCommitted => 3;
    OneByte(code);
    r := r + [code];
    r := r + Digits(t.domain, 32);
    ghost var mid := r;
    r := r + Digits(q.scope, 16);
    r := r + Digits(q.writer, 16);
    r := r + Digits(q.intent, 32);
    r := AppendTenureTail(r, t);
    ghost var x := TenureFrom(t);
    MapBytes(Num(1), TenureUntag, TenureTag, t.phase);
    Then4(mid, Num(16), Num(16), Num(32), TenureTailC(), x.1.1.1);
    Then4(encoded, Num(16), TenurePhaseC(), Num(32), TenureMidC(), x);
    MapBytes(TenureB(), x => TenureTo(w, x), TenureFrom, t);
  }

  method AppendTenures(encoded: Bytes, ts: seq<Tenure>, ghost w: Wires) returns (r: Bytes)
    ensures r == encoded + List(TenureC(w), MAX_TENURES).enc(ts)
  {
    r := encoded + Digits(|ts|, 4);
    ghost var start := r;
    AllAppended(encoded, TenureC(w), MAX_TENURES, ts);
    AllAppended(start, TenureC(w), MAX_TENURES, ts);
    for i := 0 to |ts|
      invariant r == start + EncodeAll(TenureC(w), ts[..i])
    {
      OneMore(start, TenureC(w), ts, i);
      r := AppendTenure(r, ts[i], w);
    }
  }

  // --------------------------------------------------------------------- plan, binding

  method AppendPlan(encoded: Bytes, p: Plan, ghost w: Wires, ghost h: Hashes) returns (r: Bytes)
    ensures r == encoded + PlanC(w, h).enc(p)
  {
    r := encoded + Digits(p.scope, 16);
    r := r + Digits(p.lineage, 16);
    r := r + Digits(p.revision, 8);
    ghost var mid := r;
    r := r + Digits(p.target, 16);
    r := AppendBytes(r, p.content.bytes, MAX_CONTENT_BYTES);
    r := r + Digits(p.contentDigest, 32);
    ghost var tail := r;
    r := r + Digits(p.planDigest, 32);
    r := r + Digits(p.storageChecksum, 32);
    r := r + Digits(p.operation, 16);
    r := r + Digits(p.intent, 32);
    ghost var x := PlanFrom(p);
    Then4(tail, Num(32), Num(32), Num(16), Num(32), x.1.1.1.1.1.1);
    Then4(mid, Num(16), Blob(MAX_CONTENT_BYTES), Num(32), PlanTailC(), x.1.1.1);
    Then4(encoded, Num(16), Num(16), Num(8), PlanMidC(), x);
    MapBytes(PlanB(), x => PlanTo(w, h, x), PlanFrom, p);
  }

  method AppendBinding(encoded: Bytes, b: Binding, ghost w: Wires) returns (r: Bytes)
    ensures r == encoded + BindingC(w).enc(b)
  {
    r := encoded + Digits(b.target, 16);
    r := r + Digits(b.store, 32);
    r := r + Digits(b.channelFingerprint, 32);
    ghost var mid := r;
    r := r + Digits(b.manifest, 32);
    r := r + Digits(b.firstEpoch, 8);
    r := r + Digits(b.lastEpoch, 8);
    ghost var tail := r;
    r := AppendBytes(r, b.bootstrap.wire, MAX_BOOTSTRAP_BYTES);
    ghost var last := r;
    r := r + Digits(b.bootstrap.digest, 32);
    r := AppendRuntimeAuth(r, b.runtimeAuth);
    ghost var x := BindingFrom(b);
    ThenPair(last, Num(32), RuntimeC(), x.1.1.1.1.1.1.1);
    ThenPair(tail, Blob(MAX_BOOTSTRAP_BYTES), Pair(Num(32), RuntimeC()), x.1.1.1.1.1.1);
    Then4(mid, Num(32), Num(8), Num(8), BindingTailC(), x.1.1.1);
    Then4(encoded, Num(16), Num(32), Num(32), BindingMidC(), x);
    MapBytes(BindingB(), x => BindingTo(w, x), BindingFrom, b);
  }

  // -------------------------------------------------------------------------- rollouts

  method AppendIntent(encoded: Bytes, i: Intent, ghost w: Wires) returns (r: Bytes)
    ensures r == encoded + IntentC(w).enc(i)
  {
    r := encoded + Digits(i.target, 16);
    r := r + Digits(i.planDigest, 32);
    r := r + Digits(i.slice, 32);
    ghost var mid := r;
    r := r + Digits(i.operation, 16);
    r := r + Digits(i.digest, 32);
    r := AppendBytes(r, i.request.bytes, MAX_SIGNED_REQUEST_BYTES);
    ghost var tail := r;
    r := AppendAuth(r, i.auth);
    r := r + Digits(i.store, 32);
    r := r + Digits(i.channelFingerprint, 32);
    r := r + Digits(i.manifest, 32);
    r := AppendRuntimeAuth(r, i.runtimeAuth);
    ghost var x := IntentFrom(i);
    Then5(tail, AuthC(), Num(32), Num(32), Num(32), RuntimeC(), x.1.1.1.1.1.1);
    Then4(mid, Num(16), Num(32), Blob(MAX_SIGNED_REQUEST_BYTES), IntentTailC(), x.1.1.1);
    Then4(encoded, Num(16), Num(32), Num(32), IntentMidC(), x);
    MapBytes(IntentB(), x => IntentTo(w, x), IntentFrom, i);
  }

  method AppendAnswer(encoded: Bytes, o: Observation) returns (r: Bytes)
    ensures r == encoded + ObservationC().enc(ObservationFrom(o))
  {
    r := AppendBytes(encoded, o.response.wire, MAX_QUERY_RESPONSE_BYTES);
    ghost var mid := r;
    r := r + Digits(o.response.digest, 32);
    r := AppendChannel(r, o.channel);
    ghost var x := ObservationFrom(o);
    ThenPair(mid, Num(32), ChannelC(), x.1);
    ThenPair(encoded, Blob(MAX_QUERY_RESPONSE_BYTES), Pair(Num(32), ChannelC()), x);
  }

  method AppendObservation(encoded: Bytes, o: Option<Observation>) returns (r: Bytes)
    ensures r == encoded + Opt(ObservationC()).enc(ObservationField(o))
  {
    if o.None? {
      Absent(encoded, ObservationC());
      return encoded + [0];
    }
    r := AppendAnswer(encoded + [1], o.value);
    Present(encoded, ObservationC(), ObservationFrom(o.value));
  }

  method AppendClosure(encoded: Bytes, c: Option<Closure>) returns (r: Bytes)
    ensures r == encoded + Opt(ClosureC()).enc(c)
  {
    if c.None? {
      Absent(encoded, ClosureC());
      return encoded + [0];
    }
    var code := match c.value
                case NotSent => 1 case DeliveryUncertain => 2 case ResidentAuthorityLost => 3 case ResponseRejected => 4;
    OneByte(code);
    r := encoded + [1];
    r := r + [code];
    MapBytes(Num(1), ClosureUntag, ClosureTag, c.value);
    Present(encoded, ClosureC(), c.value);
  }

  method AppendVerdict(encoded: Bytes, d: Decision) returns (r: Bytes)
    ensures r == encoded + DecisionC().enc(d)
  {
    r := encoded + Digits(d.query, 16);
    r := r + Digits(d.sequence, 8);
    var code := match d.observed
                case ObservedPrepared => 1 case ObservedActive => 2 case ObservedRetired => 3 case ObservedUncertain => 4;
    OneByte(code);
    r := r + [code];
    r := AppendOptional(r, d.receipt, 16);
    MapBytes(Num(1), ObservedUntag, ObservedTag, d.observed);
    Then4(encoded, Num(16), Num(8), ObservedC(), Opt(Num(16)), DecisionFrom(d));
    MapBytes(DecisionB(), DecisionTo, DecisionFrom, d);
  }

  method AppendDecision(encoded: Bytes, d: Option<Decision>) returns (r: Bytes)
    ensures r == encoded + Opt(DecisionC()).enc(d)
  {
    if d.None? {
      Absent(encoded, DecisionC());
      return encoded + [0];
    }
    r := AppendVerdict(encoded + [1], d.value);
    Present(encoded, DecisionC(), d.value);
  }

  method AppendPrepared(encoded: Bytes, p: Prepared) returns (r: Bytes)
    ensures r == encoded + PreparedC().enc(PreparedFrom(p))
  {
    r := AppendBytes(encoded, p.request.wire, MAX_QUERY_REQUEST_BYTES);
    r := AppendAuth(r, p.auth);
    r := AppendChannel(r, p.channel);
    r := AppendRuntimeAuth(r, p.runtimeAuth);
    r := AppendServing(r, p.baseline);
    Then5(encoded, Blob(MAX_QUERY_REQUEST_BYTES), AuthC(), ChannelC(), RuntimeC(), ServingC(), PreparedFrom(p));
  }

  method AppendAttemptFields(encoded: Bytes, a: Attempt) returns (r: Bytes)
    ensures r == encoded + AttemptB().enc(AttemptFrom(a))
  {
    r := AppendPrepared(encoded, a.prepared);
    r := AppendObservation(r, a.observation);
    r := AppendClosure(r, a.closure);
    r := AppendDecision(r, a.decision);
    ghost var p, o, c, d := PreparedC(), Opt(ObservationC()), Opt(ClosureC()), Opt(DecisionC());
    ghost var x := AttemptFrom(a);
    assert x == (PreparedFrom(a.prepared), (ObservationField(a.observation), (a.closure, a.decision)));
    Then4(encoded, p, o, c, d, x);
  }

  method AppendAttempt(encoded: Bytes, a: Attempt, ghost w: Wires) returns (r: Bytes)
    ensures r == encoded + AttemptC(w).enc(a)
  {
    r := AppendAttemptFields(encoded, a);
    MapBytes(AttemptB(), x => AttemptTo(w, x), AttemptFrom, a);
  }

  method AppendAttempts(encoded: Bytes, attempts: seq<Attempt>, ghost w: Wires) returns (r: Bytes)
    ensures r == encoded + AttemptsC(w).enc(attempts)
  {
    r := encoded + Digits(|attempts|, 4);
    ghost var start := r;
    AllAppended(encoded, AttemptC(w), MAX_ATTEMPTS, attempts);
    AllAppended(start, AttemptC(w), MAX_ATTEMPTS, attempts);
    for i := 0 to |attempts|
      invariant r == start + EncodeAll(AttemptC(w), attempts[..i])
    {
      OneMore(start, AttemptC(w), attempts, i);
      r := AppendAttempt(r, attempts[i], w);
    }
  }

  method AppendReceipt(encoded: Bytes, d: Option<Receipt>) returns (r: Bytes)
    ensures r == encoded + Opt(Blob(MAX_RECEIPT_BYTES)).enc(if d.None? then None else Some(d.value.wire))
  {
    if d.None? {
      Absent(encoded, Blob(MAX_RECEIPT_BYTES));
      return encoded + [0];
    }
    r := AppendBytes(encoded + [1], d.value.wire, MAX_RECEIPT_BYTES);
    Present(encoded, Blob(MAX_RECEIPT_BYTES), d.value.wire);
  }

  method AppendRollout(encoded: Bytes, o: Rollout, ghost w: Wires) returns (r: Bytes)
    ensures r == encoded + RolloutC(w).enc(o)
  {
    r := AppendIntent(encoded, o.intent, w);
    ghost var mid := r;
    r := AppendReceipt(r, o.direct);
    r := AppendAttempts(r, o.attempts, w);
    ghost var x := RolloutFrom(o);
    ThenPair(mid, Opt(Blob(MAX_RECEIPT_BYTES)), AttemptsC(w), x.1);
    ThenPair(encoded, IntentC(w), Pair(Opt(Blob(MAX_RECEIPT_BYTES)), AttemptsC(w)), x);
    MapBytes(RolloutB(w), x => RolloutTo(w, x), RolloutFrom, o);
  }

  method AppendHistory(encoded: Bytes, rs: seq<Rollout>, ghost w: Wires) returns (r: Bytes)
    ensures r == encoded + List(RolloutC(w), MAX_HISTORY).enc(rs)
  {
    r := encoded + Digits(|rs|, 4);
    ghost var start := r;
    AllAppended(encoded, RolloutC(w), MAX_HISTORY, rs);
    AllAppended(start, RolloutC(w), MAX_HISTORY, rs);
    for i := 0 to |rs|
      invariant r == start + EncodeAll(RolloutC(w), rs[..i])
    {
      OneMore(start, RolloutC(w), rs, i);
      r := AppendRollout(r, rs[i], w);
    }
  }

  // ---------------------------------------------------------------------- payload, file

  ghost predicate JournalAt(ps: seq<Parts>, w: Wires, h: Hashes, i: nat)
    requires i < |ps|
  {
    ps[i] == JournalParts(w, h)
  }

  /** `p` are the journal's own record codecs. */
  ghost predicate IsJournal(p: Parts, w: Wires, h: Hashes) { forall i :: 0 <= i < |[p]| ==> JournalAt([p], w, h, i) }

  lemma JournalIs(p: Parts, w: Wires, h: Hashes)
    requires IsJournal(p, w, h)
    ensures p == JournalParts(w, h)
  {
    assert JournalAt([p], w, h, 0);
  }

  lemma JournalHas(w: Wires, h: Hashes)
    ensures IsJournal(JournalParts(w, h), w, h)
  {
    var ps := [JournalParts(w, h)];
    forall i | 0 <= i < |ps| ensures JournalAt(ps, w, h, i) { }
  }

  method PutAuth(encoded: Bytes, a: AuthPin, ghost p: Parts, ghost w: Wires, ghost h: Hashes)
    returns (r: Bytes, ghost b: Bytes)
    requires IsJournal(p, w, h)
    ensures r == encoded + b && Encodes(p.auth, a, b)
  {
    JournalIs(p, w, h);
    r := AppendAuth(encoded, a);
    b := AuthC().enc(a);
    EncodesEnc(AuthC(), a, b);
  }

  method PutAllocations(encoded: Bytes, records: seq<AllocationRecord>, ghost p: Parts, ghost w: Wires, ghost h: Hashes)
    returns (r: Bytes, ghost b: Bytes)
    requires IsJournal(p, w, h)
    ensures r == encoded + b && Encodes(List(p.allocation, MAX_ALLOCATION_RECORDS), records, b)
  {
    JournalIs(p, w, h);
    r := AppendAllocations(encoded, records);
    b := List(AllocationC(), MAX_ALLOCATION_RECORDS).enc(records);
    EncodesEnc(List(AllocationC(), MAX_ALLOCATION_RECORDS), records, b);
  }

  method PutOperations(encoded: Bytes, ops: seq<Operation>, ghost p: Parts, ghost w: Wires, ghost h: Hashes)
    returns (r: Bytes, ghost b: Bytes)
    requires IsJournal(p, w, h)
    ensures r == encoded + b && Encodes(List(p.operation, MAX_LEDGER_RECORDS), ops, b)
  {
    JournalIs(p, w, h);
    r := AppendOperations(encoded, ops);
    b := List(OperationC(), MAX_LEDGER_RECORDS).enc(ops);
    EncodesEnc(List(OperationC(), MAX_LEDGER_RECORDS), ops, b);
  }

  method PutTenures(encoded: Bytes, ts: seq<Tenure>, ghost p: Parts, ghost w: Wires, ghost h: Hashes)
    returns (r: Bytes, ghost b: Bytes)
    requires IsJournal(p, w, h)
    ensures r == encoded + b && Encodes(List(p.tenure, MAX_TENURES), ts, b)
  {
    JournalIs(p, w, h);
    r := AppendTenures(encoded, ts, w);
    b := List(TenureC(w), MAX_TENURES).enc(ts);
    EncodesEnc(List(TenureC(w), MAX_TENURES), ts, b);
  }

  method PutHistory(encoded: Bytes, rs: seq<Rollout>, ghost p: Parts, ghost w: Wires, ghost h: Hashes)
    returns (r: Bytes, ghost b: Bytes)
    requires IsJournal(p, w, h)
    ensures r == encoded + b && Encodes(List(p.rollout, MAX_HISTORY), rs, b)
  {
    JournalIs(p, w, h);
    r := AppendHistory(encoded, rs, w);
    b := List(RolloutC(w), MAX_HISTORY).enc(rs);
    EncodesEnc(List(RolloutC(w), MAX_HISTORY), rs, b);
  }

  method AppendCurrent(encoded: Bytes, o: Option<Rollout>, ghost w: Wires) returns (r: Bytes)
    ensures r == encoded + Opt(RolloutC(w)).enc(o)
  {
    if o.None? {
      Absent(encoded, RolloutC(w));
      return encoded + [0];
    }
    r := AppendRollout(encoded + [1], o.value, w);
    Present(encoded, RolloutC(w), o.value);
  }

  method PutCurrent(encoded: Bytes, o: Option<Rollout>, ghost p: Parts, ghost w: Wires, ghost h: Hashes)
    returns (r: Bytes, ghost b: Bytes)
    requires IsJournal(p, w, h)
    ensures r == encoded + b && Encodes(Opt(p.rollout), o, b)
  {
    JournalIs(p, w, h);
    r := AppendCurrent(encoded, o, w);
    b := Opt(RolloutC(w)).enc(o);
    EncodesEnc(Opt(RolloutC(w)), o, b);
  }

  method AppendBound(encoded: Bytes, o: Option<Binding>, ghost w: Wires) returns (r: Bytes)
    ensures r == encoded + Opt(BindingC(w)).enc(o)
  {
    if o.None? {
      Absent(encoded, BindingC(w));
      return encoded + [0];
    }
    r := AppendBinding(encoded + [1], o.value, w);
    Present(encoded, BindingC(w), o.value);
  }

  method PutBinding(encoded: Bytes, o: Option<Binding>, ghost p: Parts, ghost w: Wires, ghost h: Hashes)
    returns (r: Bytes, ghost b: Bytes)
    requires IsJournal(p, w, h)
    ensures r == encoded + b && Encodes(Opt(p.binding), o, b)
  {
    JournalIs(p, w, h);
    r := AppendBound(encoded, o, w);
    b := Opt(BindingC(w)).enc(o);
    EncodesEnc(Opt(BindingC(w)), o, b);
  }

  method AppendCommitted(encoded: Bytes, o: Option<Plan>, ghost w: Wires, ghost h: Hashes) returns (r: Bytes)
    ensures r == encoded + Opt(PlanC(w, h)).enc(o)
  {
    if o.None? {
      Absent(encoded, PlanC(w, h));
      return encoded + [0];
    }
    r := AppendPlan(encoded + [1], o.value, w, h);
    Present(encoded, PlanC(w, h), o.value);
  }

  method PutPlan(encoded: Bytes, o: Option<Plan>, ghost p: Parts, ghost w: Wires, ghost h: Hashes)
    returns (r: Bytes, ghost b: Bytes)
    requires IsJournal(p, w, h)
    ensures r == encoded + b && Encodes(Opt(p.plan), o, b)
  {
    JournalIs(p, w, h);
    r := AppendCommitted(encoded, o, w, h);
    b := Opt(PlanC(w, h)).enc(o);
    EncodesEnc(Opt(PlanC(w, h)), o, b);
  }

  method PutManifest(encoded: Bytes, wire: Bytes) returns (r: Bytes, ghost b: Bytes)
    ensures r == encoded + b && Encodes(Blob(MAX_MANIFEST_BYTES), wire, b)
  {
    r := AppendBytes(encoded, wire, MAX_MANIFEST_BYTES);
    b := Blob(MAX_MANIFEST_BYTES).enc(wire);
    EncodesEnc(Blob(MAX_MANIFEST_BYTES), wire, b);
  }

  method PutEvidence(encoded: Bytes, s: State, ghost p: Parts, ghost w: Wires, ghost h: Hashes)
    returns (r: Bytes, ghost b: Bytes)
    requires IsJournal(p, w, h)
    ensures r == encoded + b && Encodes(EvidenceC(p), EvidenceFrom(s), b)
  {
    ghost var bound, current, archived;
    r := encoded + Digits(s.highWater, 8);
    EncodesNum(8, s.highWater);
    r, bound := PutBinding(r, s.binding, p, w, h);
    r, current := PutCurrent(r, s.rollout, p, w, h);
    r, archived := PutHistory(r, s.history, p, w, h);
    b := Digits(s.highWater, 8) + (bound + (current + archived));
    Joined(encoded, Digits(s.highWater, 8), bound, current, archived);
    Encodes4(Num(8), Opt(p.binding), Opt(p.rollout), List(p.rollout, MAX_HISTORY), EvidenceFrom(s),
             Digits(s.highWater, 8), bound, current, archived);
  }

  method PutTables(encoded: Bytes, s: State, ghost p: Parts, ghost w: Wires, ghost h: Hashes)
    returns (r: Bytes, ghost b: Bytes)
    requires IsJournal(p, w, h)
    ensures r == encoded + b && Encodes(TablesC(p), TablesFrom(s), b)
  {
    ghost var plan, ops, tenures, auth, evidence;
    r, plan := PutPlan(encoded, s.plan, p, w, h);
    r, ops := PutOperations(r, s.operations, p, w, h);
    r, tenures := PutTenures(r, s.tenures, p, w, h);
    r, auth := PutAuth(r, s.auth, p, w, h);
    r, evidence := PutEvidence(r, s, p, w, h);
    b := plan + (ops + (tenures + (auth + evidence)));
    Joined5(encoded, plan, ops, tenures, auth, evidence);
    Encodes5(Opt(p.plan), List(p.operation, MAX_LEDGER_RECORDS), List(p.tenure, MAX_TENURES), p.auth,
             EvidenceC(p), TablesFrom(s), plan, ops, tenures, auth, evidence);
  }

  method PutPart(encoded: Bytes, s: State, ghost p: Parts, ghost w: Wires, ghost h: Hashes)
    returns (r: Bytes, ghost b: Bytes)
    requires IsJournal(p, w, h)
    ensures r == encoded + b && Encodes(PartC(p), AllocationPart(s), b)
  {
    ghost var records, tables;
    ghost var d, g, m := Digits(s.manifest.digest, 32), Digits(s.allocation.generation, 8), Digits(s.allocation.highWater, 8);
    r := encoded + Digits(s.manifest.digest, 32);
    r := r + Digits(s.allocation.generation, 8);
    r := r + Digits(s.allocation.highWater, 8);
    EncodesNum(32, s.manifest.digest); EncodesNum(8, s.allocation.generation); EncodesNum(8, s.allocation.highWater);
    r, records := PutAllocations(r, s.allocation.records, p, w, h);
    r, tables := PutTables(r, s, p, w, h);
    b := d + (g + (m + (records + tables)));
    Joined5(encoded, d, g, m, records, tables);
    Encodes5(Num(32), Num(8), Num(8), List(p.allocation, MAX_ALLOCATION_RECORDS), TablesC(p),
             AllocationPart(s), d, g, m, records, tables);
  }

  method PutFields(encoded: Bytes, s: State, ghost p: Parts, ghost w: Wires, ghost h: Hashes)
    returns (r: Bytes, ghost b: Bytes)
    requires IsJournal(p, w, h)
    ensures r == encoded + b && Encodes(BodyB(p), BodyFrom(s), b)
  {
    ghost var manifest, part;
    ghost var scope, lineage, target := Digits(s.scope, 16), Digits(s.lineage, 16), Digits(s.allocation.target, 16);
    r := encoded + Digits(s.scope, 16);
    r := r + Digits(s.lineage, 16);
    r := r + Digits(s.allocation.target, 16);
    EncodesNum(16, s.scope); EncodesNum(16, s.lineage); EncodesNum(16, s.allocation.target);
    r, manifest := PutManifest(r, s.manifest.wire);
    r, part := PutPart(r, s, p, w, h);
    b := scope + (lineage + (target + (manifest + part)));
    Joined5(encoded, scope, lineage, target, manifest, part);
    Encodes5(Num(16), Num(16), Num(16), Blob(MAX_MANIFEST_BYTES), PartC(p), BodyFrom(s), scope, lineage, target, manifest, part);
  }

  /** The payload after its magic and version. */
  method PutBody(encoded: Bytes, s: State, ghost p: Parts, ghost w: Wires, ghost h: Hashes)
    returns (r: Bytes, ghost b: Bytes)
    requires IsJournal(p, w, h)
    ensures r == encoded + b && Encodes(BodyC(p), s, b)
  {
    r, b := PutFields(encoded, s, p, w, h);
    EncodesMap(BodyB(p), x => BodyTo(p, x), BodyFrom, s, b);
  }

  /** The header up to its checksum. */
  method EncodePrefix(x: Snapshot, version: nat, length: nat) returns (r: Bytes)
    ensures r == Prefix(version, x, length)
  {
    r := Digits(JOURNAL_MAGIC, 4);
    r := r + Digits(ENVELOPE_VERSION, 2);
    r := r + Digits(OWNER_KIND, 2);
    r := r + Digits(version, 2);
    r := r + Digits(CHECKSUM_ALGORITHM, 2);
    r := r + Digits(CHECKSUM_VERSION, 2);
    r := r + Digits(x.store, 32);
    r := r + Digits(x.owner, 32);
    r := r + Digits(x.sequence, 8);
    r := r + Digits(length, 8);
  }

  /** Header, checksum and payload around an encoded body. */
  method EncodeFile(x: Snapshot, version: nat, body: Bytes, ghost f: Format, sum: (Bytes, Bytes) -> Digest) returns (r: Bytes)
    requires Encodes(f.body, x.state, body) && sum == f.sum
    ensures r == Encode(f, version, x)
  {
    EncodesEnc(f.body, x.state, body);
    var payload := Digits(PAYLOAD_MAGIC, 4);
    payload := payload + Digits(version, 2);
    payload := payload + body;
    var prefix := EncodePrefix(x, version, |payload|);
    r := prefix + Digits(sum(prefix, payload), 32);
    r := r + payload;
  }

  /** The whole file: what is appended, field after field, is the encoding that the format
      describes. */
  method EncodeSnapshot(x: Snapshot, version: nat, sum: (Bytes, Bytes) -> Digest, ghost p: Parts, ghost w: Wires,
                        ghost h: Hashes) returns (r: Bytes)
    requires IsJournal(p, w, h)
    ensures r == Encode(Format(BodyC(p), sum), version, x)
  {
    ghost var b;
    r, b := PutBody([], x.state, p, w, h);
    assert r == b;
    r := EncodeFile(x, version, r, Format(BodyC(p), sum), sum);
  }

  /** In particular for the journal's own format. */
  method EncodeJournal(x: Snapshot, version: nat, sum: (Bytes, Bytes) -> Digest, ghost w: Wires, ghost h: Hashes)
    returns (r: Bytes)
    ensures r == Encode(JournalFormat(w, h, sum), version, x)
  {
    JournalHas(w, h);
    r := EncodeSnapshot(x, version, sum, JournalParts(w, h), w, h);
  }
}
