/**
 The byte layout of the journal payload, record by record, in the order of the
 wire.
 */
module Layout {
  import opened Types
  import opened Operations
  import opened Sizes
  import opened Codecs

  /** The decoders of the wire messages embedded in the journal. They are foreign;
      what the journal relies on is that they accept only canonical bytes. */
  datatype Wires = Wires(
    manifest: Bytes -> Option<Manifest>,
    content: (Id, Bytes) -> Option<Content>,
    tenureRequest: Bytes -> Option<TenureRequest>,
    tenureResponse: Bytes -> Option<TenureResponse>,
    bootstrap: Bytes -> Option<Bootstrap>,
    apply: Bytes -> Option<ApplyRequest>,
    receipt: Bytes -> Option<Receipt>,
    queryRequest: Bytes -> Option<QueryRequest>,
    queryResponse: Bytes -> Option<QueryResponse>)

  ghost predicate WiresCanonical(w: Wires) {
    var canonical :=
      && (forall b :: w.manifest(b).Some? ==> w.manifest(b).value.wire == b)
      && (forall t, b :: w.content(t, b).Some? ==> w.content(t, b).value.bytes == b && w.content(t, b).value.target == t)
      && (forall b :: w.tenureRequest(b).Some? ==> w.tenureRequest(b).value.wire == b)
      && (forall b :: w.tenureResponse(b).Some? ==> w.tenureResponse(b).value.wire == b)
      && (forall b :: w.bootstrap(b).Some? ==> w.bootstrap(b).value.wire == b)
      && (forall b :: w.receipt(b).Some? ==> w.receipt(b).value.wire == b)
      && (forall b :: w.queryRequest(b).Some? ==> w.queryRequest(b).value.wire == b)
      && (forall b :: w.queryResponse(b).Some? ==> w.queryResponse(b).value.wire == b);
    canonical
  }

  const MAX_TENURE_NONCE_BYTES: nat := 64
  const MAX_TENURE_REQUEST_BYTES: nat := 364
  const MAX_TENURE_RESPONSE_BYTES: nat := 938
  const MAX_BOOTSTRAP_BYTES: nat := 1024 * 1024
  const MAX_RECEIPT_BYTES: nat := 2048

  // -------------------------------------------------------------------- enumerations

  function AllocationTag(s: AllocationState): nat { if s.Active? then 1 else 2 }

  function AllocationUntag(n: nat): Option<AllocationState> {
    match n case 1 => Some(Active) case 2 => Some(Tombstone) case _ => None
  }

  function PhaseTag(p: OperationPhase): nat {
    match p case OpPrepared => 1 case OpCommitted => 2 case OpUncertain => 3 case OpTerminal => 4
  }

  function PhaseUntag(n: nat): Option<OperationPhase> {
    match n
    case 1 => Some(OpPrepared)
    case 2 => Some(OpCommitted)
    case 3 => Some(OpUncertain)
    case 4 => Some(OpTerminal)
    case _ => None
  }

  function TenureTag(p: TenurePhase): nat {
    match p case TenurePrepared => 1 case TenureUncertain => 2 case TenureCommitted => 3
  }

  function TenureUntag(n: nat): Option<TenurePhase> {
    match n
    case 1 => Some(TenurePrepared)
    case 2 => Some(TenureUncertain)
    case 3 => Some(TenureCommitted)
    case _ => None
  }

  function ObservedTag(o: Observed): nat {
    match o case ObservedPrepared => 1 case ObservedActive => 2 case ObservedRetired => 3 case ObservedUncertain => 4
  }

  function ObservedUntag(n: nat): Option<Observed> {
    match n
    case 1 => Some(ObservedPrepared)
    case 2 => Some(ObservedActive)
    case 3 => Some(ObservedRetired)
    case 4 => Some(ObservedUncertain)
    case _ => None
  }

  function ClosureTag(c: Closure): nat {
    match c case NotSent => 1 case DeliveryUncertain => 2 case ResidentAuthorityLost => 3 case ResponseRejected => 4
  }

  function ClosureUntag(n: nat): Option<Closure> {
    match n
    case 1 => Some(NotSent)
    case 2 => Some(DeliveryUncertain)
    case 3 => Some(ResidentAuthorityLost)
    case 4 => Some(ResponseRejected)
    case _ => None
  }

  // ---------------------------------------------------------------- flat little records

  predicate Wide(n: nat, width: nat) { n < Pow256(width) }

  type AllocationFields = (nat, (nat, (nat, (nat, AllocationState))))

  function AllocationTo(x: AllocationFields): Option<AllocationRecord> {
    Some(AllocationRecord(x.0, x.1.0, x.1.1.0, x.1.1.1.0, x.1.1.1.1))
  }

  function AllocationFrom(r: AllocationRecord): AllocationFields {
    (r.key, (r.ordinal, (r.instance, (r.domain, r.state))))
  }

  function AllocationTagC(): Codec<AllocationState> { Map(Num(1), AllocationUntag, AllocationTag) }

  function AllocationB(): Codec<AllocationFields> { Seq5(Num(16), Num(8), Num(16), Num(16), AllocationTagC()) }

  function AllocationC(): Codec<AllocationRecord> { Map(AllocationB(), AllocationTo, AllocationFrom) }

  lemma AllocationLawful()
    ensures Lawful(AllocationC())
  {
    NumLawful(1); NumLawful(8); NumLawful(16);
    MapLawful(Num(1), AllocationUntag, AllocationTag);
    Seq5Lawful(Num(16), Num(8), Num(16), Num(16), AllocationTagC());
    MapLawful(AllocationB(), AllocationTo, AllocationFrom);
  }

  predicate AllocationStorable(r: AllocationRecord) {
    Wide(r.key, 16) && Wide(r.ordinal, 8) && Wide(r.instance, 16) && Wide(r.domain, 16)
  }

  lemma AllocationFacts(r: AllocationRecord)
    ensures AllocationC().len(r) == 16 + 8 + 16 + 16 + 1
    ensures AllocationC().ok(r) <==> AllocationStorable(r)
  {
    NumFacts(1); NumFacts(8); NumFacts(16);
    MapFacts(Num(1), AllocationUntag, AllocationTag, r.state);
    Seq5Facts(Num(16), Num(8), Num(16), Num(16), AllocationTagC(), AllocationFrom(r));
    MapFacts(AllocationB(), AllocationTo, AllocationFrom, r);
  }

  type AuthFields = (nat, (nat, (nat, (nat, nat))))

  function AuthTo(x: AuthFields): Option<AuthPin> { Some(AuthPin(x.0, x.1.0, x.1.1.0, x.1.1.1.0, x.1.1.1.1)) }

  function AuthFrom(a: AuthPin): AuthFields { (a.key, (a.algorithm, (a.version, (a.fingerprint, a.generation)))) }

  function AuthB(): Codec<AuthFields> { Seq5(Num(16), Num(2), Num(2), Num(32), Num(8)) }

  function AuthC(): Codec<AuthPin> { Map(AuthB(), AuthTo, AuthFrom) }

  lemma AuthLawful()
    ensures Lawful(AuthC())
  {
    NumLawful(2); NumLawful(8); NumLawful(16); NumLawful(32);
    Seq5Lawful(Num(16), Num(2), Num(2), Num(32), Num(8));
    MapLawful(AuthB(), AuthTo, AuthFrom);
  }

  predicate AuthStorable(a: AuthPin) {
    Wide(a.key, 16) && Wide(a.algorithm, 2) && Wide(a.version, 2) && Wide(a.fingerprint, 32) && Wide(a.generation, 8)
  }

  lemma AuthFacts(a: AuthPin)
    ensures AuthC().len(a) == AUTH_PIN_BYTES && (AuthC().ok(a) <==> AuthStorable(a))
  {
    NumFacts(2); NumFacts(8); NumFacts(16); NumFacts(32);
    Seq5Facts(Num(16), Num(2), Num(2), Num(32), Num(8), AuthFrom(a));
    MapFacts(AuthB(), AuthTo, AuthFrom, a);
  }

  type RuntimeFields = (nat, (nat, (nat, (nat, (nat, (nat, nat))))))

  /** Only the Ed25519 profile is admitted. */
  function RuntimeTo(x: RuntimeFields): Option<RuntimeAuth> {
    var r := RuntimeAuth(x.0, x.1.0, x.1.1.0, x.1.1.1.0, x.1.1.1.1.0, x.1.1.1.1.1.0, x.1.1.1.1.1.1);
    if r.algorithm == ED25519 && r.version == ED25519 then Some(r) else None
  }

  function RuntimeFrom(r: RuntimeAuth): RuntimeFields {
    (r.bootstrapDigest, (r.peer, (r.endpoint, (r.credentials, (r.key, (r.algorithm, r.version))))))
  }

  function RuntimeB(): Codec<RuntimeFields> { Seq4(Num(32), Num(16), Num(32), Seq4(Num(32), Num(16), Num(2), Num(2))) }

  function RuntimeC(): Codec<RuntimeAuth> { Map(RuntimeB(), RuntimeTo, RuntimeFrom) }

  lemma RuntimeLawful()
    ensures Lawful(RuntimeC())
  {
    NumLawful(2); NumLawful(16); NumLawful(32);
    Seq4Lawful(Num(32), Num(16), Num(2), Num(2));
    Seq4Lawful(Num(32), Num(16), Num(32), Seq4(Num(32), Num(16), Num(2), Num(2)));
    MapLawful(RuntimeB(), RuntimeTo, RuntimeFrom);
  }

  predicate RuntimeStorable(r: RuntimeAuth) {
    && Wide(r.bootstrapDigest, 32) && Wide(r.peer, 16) && Wide(r.endpoint, 32) && Wide(r.credentials, 32) && Wide(r.key, 16)
    && r.algorithm == ED25519 && r.version == ED25519
  }

  lemma RuntimeFacts(r: RuntimeAuth)
    ensures RuntimeC().len(r) == RUNTIME_AUTH_BYTES && (RuntimeC().ok(r) <==> RuntimeStorable(r))
  {
    NumFacts(2); NumFacts(16); NumFacts(32);
    Seq4Facts(Num(32), Num(16), Num(2), Num(2), RuntimeFrom(r).1.1.1);
    Seq4Facts(Num(32), Num(16), Num(32), Seq4(Num(32), Num(16), Num(2), Num(2)), RuntimeFrom(r));
    MapFacts(RuntimeB(), RuntimeTo, RuntimeFrom, r);
  }

  type ChannelFields = (nat, (nat, (nat, nat)))

  function ChannelTo(x: ChannelFields): Option<Channel> { Some(Channel(x.0, x.1.0, x.1.1.0, x.1.1.1)) }

  function ChannelFrom(c: Channel): ChannelFields { (c.target, (c.peer, (c.endpoint, c.credentials))) }

  function ChannelB(): Codec<ChannelFields> { Seq4(Num(16), Num(16), Num(32), Num(32)) }

  function ChannelC(): Codec<Channel> { Map(ChannelB(), ChannelTo, ChannelFrom) }

  lemma ChannelLawful()
    ensures Lawful(ChannelC())
  {
    NumLawful(16); NumLawful(32);
    Seq4Lawful(Num(16), Num(16), Num(32), Num(32));
    MapLawful(ChannelB(), ChannelTo, ChannelFrom);
  }

  predicate ChannelStorable(c: Channel) {
    Wide(c.target, 16) && Wide(c.peer, 16) && Wide(c.endpoint, 32) && Wide(c.credentials, 32)
  }

  lemma ChannelFacts(c: Channel)
    ensures ChannelC().len(c) == CHANNEL_BYTES && (ChannelC().ok(c) <==> ChannelStorable(c))
  {
    NumFacts(16); NumFacts(32);
    Seq4Facts(Num(16), Num(16), Num(32), Num(32), ChannelFrom(c));
    MapFacts(ChannelB(), ChannelTo, ChannelFrom, c);
  }

  type ServingFields = (nat, (nat, (nat, (nat, (nat, nat)))))

  function ServingTo(x: ServingFields): Option<Serving> {
    Some(Serving(x.0, x.1.0, x.1.1.0, x.1.1.1.0, x.1.1.1.1.0, x.1.1.1.1.1))
  }

  function ServingFrom(s: Serving): ServingFields {
    (s.target, (s.store, (s.sequence, (s.epoch, (s.clockDomain, s.clockGeneration)))))
  }

  function ServingB(): Codec<ServingFields> { Seq5(Num(16), Num(32), Num(8), Num(8), Pair(Num(16), Num(8))) }

  function ServingC(): Codec<Serving> { Map(ServingB(), ServingTo, ServingFrom) }

  lemma ServingLawful()
    ensures Lawful(ServingC())
  {
    NumLawful(8); NumLawful(16); NumLawful(32);
    PairLawful(Num(16), Num(8));
    Seq5Lawful(Num(16), Num(32), Num(8), Num(8), Pair(Num(16), Num(8)));
    MapLawful(ServingB(), ServingTo, ServingFrom);
  }

  predicate ServingStorable(s: Serving) {
    && Wide(s.target, 16) && Wide(s.store, 32) && Wide(s.sequence, 8) && Wide(s.epoch, 8)
    && Wide(s.clockDomain, 16) && Wide(s.clockGeneration, 8)
  }

  lemma ServingFacts(s: Serving)
    ensures ServingC().len(s) == BASELINE_BYTES && (ServingC().ok(s) <==> ServingStorable(s))
  {
    NumFacts(8); NumFacts(16); NumFacts(32);
    PairFacts(Num(16), Num(8), ServingFrom(s).1.1.1.1);
    Seq5Facts(Num(16), Num(32), Num(8), Num(8), Pair(Num(16), Num(8)), ServingFrom(s));
    MapFacts(ServingB(), ServingTo, ServingFrom, s);
  }

  type OperationFields = (nat, (nat, (nat, (OperationPhase, (Option<nat>, (Option<nat>, Option<nat>))))))

  /** A stored row must be well formed by itself. */
  function OperationTo(x: OperationFields): Option<Operation> {
    var o := Operation(x.0, x.1.0, x.1.1.0, x.1.1.1.0, x.1.1.1.1.0, x.1.1.1.1.1.0, x.1.1.1.1.1.1);
    if OperationValid(o) then Some(o) else None
  }

  function OperationFrom(o: Operation): OperationFields {
    (o.id, (o.intent, (o.expected, (o.phase, (o.result, (o.generation, o.planDigest))))))
  }

  function PhaseC(): Codec<OperationPhase> { Map(Num(1), PhaseUntag, PhaseTag) }

  function OperationT(): Codec<(OperationPhase, (Option<nat>, (Option<nat>, Option<nat>)))> {
    Seq4(PhaseC(), Opt(Num(16)), Opt(Num(8)), Opt(Num(32)))
  }

  function OperationB(): Codec<OperationFields> { Seq4(Num(16), Num(32), Num(8), OperationT()) }

  function OperationC(): Codec<Operation> { Map(OperationB(), OperationTo, OperationFrom) }

  lemma OperationTLawful()
    ensures Lawful(OperationT())
  {
    NumLawful(1); NumLawful(8); NumLawful(16); NumLawful(32);
    MapLawful(Num(1), PhaseUntag, PhaseTag);
    OptLawful(Num(16)); OptLawful(Num(8)); OptLawful(Num(32));
    Seq4Lawful(PhaseC(), Opt(Num(16)), Opt(Num(8)), Opt(Num(32)));
  }

  lemma OperationLawful()
    ensures Lawful(OperationC())
  {
    NumLawful(8); NumLawful(16); NumLawful(32);
    OperationTLawful();
    Seq4Lawful(Num(16), Num(32), Num(8), OperationT());
    MapLawful(OperationB(), OperationTo, OperationFrom);
  }

  predicate OptWide(x: Option<nat>, width: nat) { x.Some? ==> Wide(x.value, width) }

  predicate OperationStorable(o: Operation) {
    && Wide(o.id, 16) && Wide(o.intent, 32) && Wide(o.expected, 8)
    && OptWide(o.result, 16) && OptWide(o.generation, 8) && OptWide(o.planDigest, 32)
    && OperationValid(o)
  }

  lemma OperationFacts(o: Operation)
    ensures OperationC().len(o) == OperationLen(o) && (OperationC().ok(o) <==> OperationStorable(o))
  {
    NumFacts(1); NumFacts(8); NumFacts(16); NumFacts(32);
    MapFacts(Num(1), PhaseUntag, PhaseTag, o.phase);
    OptFacts(Num(16), o.result); OptFacts(Num(8), o.generation); OptFacts(Num(32), o.planDigest);
    Seq4Facts(PhaseC(), Opt(Num(16)), Opt(Num(8)), Opt(Num(32)), OperationFrom(o).1.1.1);
    Seq4Facts(Num(16), Num(32), Num(8), OperationT(), OperationFrom(o));
    MapFacts(OperationB(), OperationTo, OperationFrom, o);
  }
}
