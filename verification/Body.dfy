/**
 The payload body, everything after the payload's magic and version, over any
 codecs for the records it holds.
 */
module Body {
  import opened Types
  import opened Allocations
  import opened Sizes
  import opened Codecs

  /** The records' own codecs, and the manifest decoder. */
  datatype Parts = Parts(
    manifest: Bytes -> Option<Manifest>,
    allocation: Codec<AllocationRecord>,
    plan: Codec<Plan>,
    operation: Codec<Operation>,
    tenure: Codec<Tenure>,
    auth: Codec<AuthPin>,
    binding: Codec<Binding>,
    rollout: Codec<Rollout>)

  const MAX_MANIFEST_BYTES: nat := 266

  type BodyEvidence = (nat, (Option<Binding>, (Option<Rollout>, seq<Rollout>)))
  type BodyTables = (Option<Plan>, (seq<Operation>, (seq<Tenure>, (AuthPin, BodyEvidence))))
  type BodyAllocation = (nat, (nat, (nat, (seq<AllocationRecord>, BodyTables))))
  type BodyFields = (nat, (nat, (nat, (Bytes, BodyAllocation))))

  function EvidenceFrom(s: State): BodyEvidence { (s.highWater, (s.binding, (s.rollout, s.history))) }

  function TablesFrom(s: State): BodyTables { (s.plan, (s.operations, (s.tenures, (s.auth, EvidenceFrom(s))))) }

  function AllocationPart(s: State): BodyAllocation {
    (s.manifest.digest, (s.allocation.generation, (s.allocation.highWater, (s.allocation.records, TablesFrom(s)))))
  }

  function BodyFrom(s: State): BodyFields {
    (s.scope, (s.lineage, (s.allocation.target, (s.manifest.wire, AllocationPart(s)))))
  }

  /** The manifest must be the pinned one and the allocation canonical. */
  function BodyTo(p: Parts, x: BodyFields): Option<State> {
    var part := x.1.1.1.1; var tables := part.1.1.1.1; var evidence := tables.1.1.1.1;
    var m := p.manifest(x.1.1.1.0);
    var a := Allocation(x.1.1.0, part.1.0, part.1.1.0, part.1.1.1.0);
    if m.None? || m.value.digest != part.0 || !AllocationValid(a) then None
    else Some(State(x.0, x.1.0, a, m.value, tables.0, tables.1.0, tables.1.1.0, tables.1.1.1.0,
                    evidence.1.0, evidence.0, evidence.1.1.0, evidence.1.1.1))
  }

  function EvidenceC(p: Parts): Codec<BodyEvidence> {
    Seq4(Num(8), Opt(p.binding), Opt(p.rollout), List(p.rollout, MAX_HISTORY))
  }

  function TablesC(p: Parts): Codec<BodyTables> {
    Seq5(Opt(p.plan), List(p.operation, MAX_LEDGER_RECORDS), List(p.tenure, MAX_TENURES), p.auth, EvidenceC(p))
  }

  function PartC(p: Parts): Codec<BodyAllocation> {
    Seq5(Num(32), Num(8), Num(8), List(p.allocation, MAX_ALLOCATION_RECORDS), TablesC(p))
  }

  function BodyB(p: Parts): Codec<BodyFields> {
    Seq5(Num(16), Num(16), Num(16), Blob(MAX_MANIFEST_BYTES), PartC(p))
  }

  function BodyC(p: Parts): Codec<State> { Map(BodyB(p), x => BodyTo(p, x), BodyFrom) }

  // ----------------------------------------------------------------------------- law

  ghost predicate PartsLawful(p: Parts) {
    var lawful :=
      && (forall b :: p.manifest(b).Some? ==> p.manifest(b).value.wire == b)
      && Lawful(p.allocation) && Lawful(p.plan) && Lawful(p.operation) && Lawful(p.tenure) && Lawful(p.auth)
      && Lawful(p.binding) && Lawful(p.rollout);
    lawful
  }

  lemma EvidenceLawful(p: Parts)
    requires PartsLawful(p)
    ensures Lawful(EvidenceC(p))
  {
    NumLawful(8);
    OptLawful(p.binding);
    OptLawful(p.rollout);
    ListLawful(p.rollout, MAX_HISTORY);
    Seq4Lawful(Num(8), Opt(p.binding), Opt(p.rollout), List(p.rollout, MAX_HISTORY));
  }

  lemma TablesLawful(p: Parts)
    requires PartsLawful(p)
    ensures Lawful(TablesC(p))
  {
    OptLawful(p.plan);
    ListLawful(p.operation, MAX_LEDGER_RECORDS);
    ListLawful(p.tenure, MAX_TENURES);
    EvidenceLawful(p);
    Seq5Lawful(Opt(p.plan), List(p.operation, MAX_LEDGER_RECORDS), List(p.tenure, MAX_TENURES), p.auth, EvidenceC(p));
  }

  lemma FieldsLawful(p: Parts)
    requires PartsLawful(p)
    ensures Lawful(BodyB(p))
  {
    NumLawful(8);
    NumLawful(16);
    NumLawful(32);
    BlobLawful(MAX_MANIFEST_BYTES);
    ListLawful(p.allocation, MAX_ALLOCATION_RECORDS);
    TablesLawful(p);
    Seq5Lawful(Num(32), Num(8), Num(8), List(p.allocation, MAX_ALLOCATION_RECORDS), TablesC(p));
    Seq5Lawful(Num(16), Num(16), Num(16), Blob(MAX_MANIFEST_BYTES), PartC(p));
  }

  lemma BodyFaithful(p: Parts, x: BodyFields)
    requires PartsLawful(p) && BodyTo(p, x).Some?
    ensures BodyFrom(BodyTo(p, x).value) == x
  {
    assert p.manifest(x.1.1.1.0).value.wire == x.1.1.1.0;
  }

  lemma BodyLawful(p: Parts)
    requires PartsLawful(p)
    ensures Lawful(BodyC(p))
  {
    FieldsLawful(p);
    var to := x => BodyTo(p, x);
    assert Faithful(to, BodyFrom) by {
      forall x: BodyFields | to(x).Some? ensures BodyFrom(to(x).value) == x { BodyFaithful(p, x); }
    }
    MapLawful(BodyB(p), to, BodyFrom);
  }

  // ---------------------------------------------------------------- length, contents

  function EvidenceLen(p: Parts, s: State): nat {
    8 + LenOpt(p.binding, s.binding) + LenOpt(p.rollout, s.rollout) + (4 + LenAll(p.rollout, s.history))
  }

  function TablesLen(p: Parts, s: State): nat {
    LenOpt(p.plan, s.plan) + (4 + LenAll(p.operation, s.operations)) + (4 + LenAll(p.tenure, s.tenures))
    + p.auth.len(s.auth) + EvidenceLen(p, s)
  }

  function BodyLen(p: Parts, s: State): nat {
    16 + 16 + 16 + (4 + |s.manifest.wire|)
    + (32 + 8 + 8 + (4 + LenAll(p.allocation, s.allocation.records)) + TablesLen(p, s))
  }

  predicate OptOk<A>(a: Codec<A>, x: Option<A>) { x.Some? ==> a.ok(x.value) }

  predicate EvidenceOk(p: Parts, s: State) {
    s.highWater < Pow256(8) && OptOk(p.binding, s.binding) && OptOk(p.rollout, s.rollout)
    && ListOk(p.rollout, MAX_HISTORY, s.history)
  }

  predicate TablesOk(p: Parts, s: State) {
    && OptOk(p.plan, s.plan) && ListOk(p.operation, MAX_LEDGER_RECORDS, s.operations)
    && ListOk(p.tenure, MAX_TENURES, s.tenures) && p.auth.ok(s.auth)
  }

  predicate HeadOk(p: Parts, s: State) {
    && s.scope < Pow256(16) && s.lineage < Pow256(16) && s.allocation.target < Pow256(16)
    && |s.manifest.wire| <= MAX_MANIFEST_BYTES && s.manifest.digest < Pow256(32)
    && s.allocation.generation < Pow256(8) && s.allocation.highWater < Pow256(8)
    && ListOk(p.allocation, MAX_ALLOCATION_RECORDS, s.allocation.records)
  }

  /** A state that can be written: every field fits, every record can be written, and
      manifest and allocation are what reading will rebuild. */
  predicate BodyOk(p: Parts, s: State) {
    && HeadOk(p, s) && TablesOk(p, s) && EvidenceOk(p, s)
    && p.manifest(s.manifest.wire) == Some(s.manifest) && AllocationValid(s.allocation)
  }

  lemma EvidenceFacts(p: Parts, s: State)
    ensures EvidenceC(p).len(EvidenceFrom(s)) == EvidenceLen(p, s)
    ensures EvidenceC(p).ok(EvidenceFrom(s)) <==> EvidenceOk(p, s)
  {
    NumFacts(8);
    OptFacts(p.binding, s.binding);
    OptFacts(p.rollout, s.rollout);
    ListFacts(p.rollout, MAX_HISTORY, s.history);
    Seq4Facts(Num(8), Opt(p.binding), Opt(p.rollout), List(p.rollout, MAX_HISTORY), EvidenceFrom(s));
  }

  lemma TablesFacts(p: Parts, s: State)
    ensures TablesC(p).len(TablesFrom(s)) == TablesLen(p, s)
    ensures TablesC(p).ok(TablesFrom(s)) <==> TablesOk(p, s) && EvidenceOk(p, s)
  {
    OptFacts(p.plan, s.plan);
    ListFacts(p.operation, MAX_LEDGER_RECORDS, s.operations);
    ListFacts(p.tenure, MAX_TENURES, s.tenures);
    EvidenceFacts(p, s);
    Seq5Facts(Opt(p.plan), List(p.operation, MAX_LEDGER_RECORDS), List(p.tenure, MAX_TENURES), p.auth, EvidenceC(p),
              TablesFrom(s));
  }

  lemma FieldsFacts(p: Parts, s: State)
    ensures BodyB(p).len(BodyFrom(s)) == BodyLen(p, s)
    ensures BodyB(p).ok(BodyFrom(s)) <==> HeadOk(p, s) && TablesOk(p, s) && EvidenceOk(p, s)
  {
    NumFacts(8);
    NumFacts(16);
    NumFacts(32);
    BlobFacts(MAX_MANIFEST_BYTES);
    ListFacts(p.allocation, MAX_ALLOCATION_RECORDS, s.allocation.records);
    TablesFacts(p, s);
    Seq5Facts(Num(32), Num(8), Num(8), List(p.allocation, MAX_ALLOCATION_RECORDS), TablesC(p), AllocationPart(s));
    Seq5Facts(Num(16), Num(16), Num(16), Blob(MAX_MANIFEST_BYTES), PartC(p), BodyFrom(s));
  }

  lemma BodyReads(p: Parts, s: State)
    ensures BodyTo(p, BodyFrom(s)) == Some(s) <==>
              p.manifest(s.manifest.wire) == Some(s.manifest) && AllocationValid(s.allocation)
  {
    var a := s.allocation;
    assert Allocation(a.target, a.generation, a.highWater, a.records) == a;
  }

  lemma BodyFacts(p: Parts, s: State)
    ensures BodyC(p).len(s) == BodyLen(p, s) && (BodyC(p).ok(s) <==> BodyOk(p, s))
  {
    FieldsFacts(p, s);
    BodyReads(p, s);
    MapFacts(BodyB(p), x => BodyTo(p, x), BodyFrom, s);
  }

  // ------------------------------------------------------------- the predicted length

  function PlanBytes(p: Plan): nat { PlanLen(Some(p)) - 1 }

  function BindingBytes(b: Binding): nat { BindingLen(Some(b)) - 1 }

  function AllocationBytes(r: AllocationRecord): nat { 16 + 8 + 16 + 16 + 1 }

  function AuthBytes(a: AuthPin): nat { AUTH_PIN_BYTES }

  /** Every record takes the bytes the capacity check counts for it. */
  ghost predicate PartsMeasured(p: Parts) {
    var measured :=
      && Measured(p.allocation, AllocationBytes) && Measured(p.plan, PlanBytes) && Measured(p.operation, OperationLen)
      && Measured(p.tenure, TenureLen) && Measured(p.auth, AuthBytes) && Measured(p.binding, BindingBytes)
      && Measured(p.rollout, RolloutLen);
    measured
  }

  lemma {:induction false} AllocationsLenFacts(c: Codec<AllocationRecord>, rs: seq<AllocationRecord>)
    requires Measured(c, AllocationBytes)
    ensures LenAll(c, rs) == |rs| * (16 + 8 + 16 + 16 + 1)
  {
    if rs != [] {
      AllocationsLenFacts(c, rs[1..]);
      assert c.len(rs[0]) == AllocationBytes(rs[0]);
    }
  }

  lemma {:induction false} OperationsLenFacts(c: Codec<Operation>, ops: seq<Operation>)
    requires Measured(c, OperationLen)
    ensures LenAll(c, ops) == OperationsLen(ops)
  {
    if ops != [] {
      LenAllLast(c, ops);
      OperationsLenFacts(c, ops[..|ops| - 1]);
    }
  }

  lemma {:induction false} TenuresLenFacts(c: Codec<Tenure>, ts: seq<Tenure>)
    requires Measured(c, TenureLen)
    ensures LenAll(c, ts) == TenuresLen(ts)
  {
    if ts != [] {
      LenAllLast(c, ts);
      TenuresLenFacts(c, ts[..|ts| - 1]);
    }
  }

  lemma {:induction false} RolloutsLenFacts(c: Codec<Rollout>, rs: seq<Rollout>)
    requires Measured(c, RolloutLen)
    ensures LenAll(c, rs) == RolloutsLen(rs)
  {
    if rs != [] {
      LenAllLast(c, rs);
      RolloutsLenFacts(c, rs[..|rs| - 1]);
    }
  }

  /** Then the independently written predictor gives the real length of the body. */
  lemma PredictedLength(p: Parts, s: State)
    requires PartsMeasured(p)
    ensures 6 + BodyC(p).len(s) == PayloadLen(s)
  {
    BodyFacts(p, s);
    AllocationsLenFacts(p.allocation, s.allocation.records);
    OperationsLenFacts(p.operation, s.operations);
    TenuresLenFacts(p.tenure, s.tenures);
    RolloutsLenFacts(p.rollout, s.history);
  }

  // ------------------------------------------------------------------ what can be held

  /** Which records can be written. */
  datatype Contents = Contents(
    allocation: AllocationRecord -> bool,
    plan: Plan -> bool,
    operation: Operation -> bool,
    tenure: Tenure -> bool,
    auth: AuthPin -> bool,
    binding: Binding -> bool,
    rollout: Rollout -> bool)

  ghost predicate PartsWrite(p: Parts, k: Contents) {
    var writes :=
      && Writes(p.allocation, k.allocation) && Writes(p.plan, k.plan) && Writes(p.operation, k.operation)
      && Writes(p.tenure, k.tenure) && Writes(p.auth, k.auth) && Writes(p.binding, k.binding)
      && Writes(p.rollout, k.rollout);
    writes
  }

  predicate HeadHeld(k: Contents, s: State) {
    var held :=
      && s.scope < Pow256(16) && s.lineage < Pow256(16) && s.allocation.target < Pow256(16)
      && |s.manifest.wire| <= MAX_MANIFEST_BYTES && s.manifest.digest < Pow256(32)
      && s.allocation.generation < Pow256(8) && s.allocation.highWater < Pow256(8)
      && |s.allocation.records| <= MAX_ALLOCATION_RECORDS
      && (forall i :: 0 <= i < |s.allocation.records| ==> k.allocation(s.allocation.records[i]));
    held
  }

  predicate TablesHeld(k: Contents, s: State) {
    var held :=
      && (s.plan.Some? ==> k.plan(s.plan.value))
      && |s.operations| <= MAX_LEDGER_RECORDS && (forall i :: 0 <= i < |s.operations| ==> k.operation(s.operations[i]))
      && |s.tenures| <= MAX_TENURES && (forall i :: 0 <= i < |s.tenures| ==> k.tenure(s.tenures[i]))
      && k.auth(s.auth);
    held
  }

  predicate EvidenceHeld(k: Contents, s: State) {
    var held :=
      && s.highWater < Pow256(8)
      && (s.binding.Some? ==> k.binding(s.binding.value))
      && (s.rollout.Some? ==> k.rollout(s.rollout.value))
      && |s.history| <= MAX_HISTORY && (forall i :: 0 <= i < |s.history| ==> k.rollout(s.history[i]));
    held
  }

  /** Every field within its width, every record writable, the manifest its own wire's
      and the allocation canonical. */
  predicate Held(manifest: Bytes -> Option<Manifest>, k: Contents, s: State) {
    && HeadHeld(k, s) && TablesHeld(k, s) && EvidenceHeld(k, s)
    && manifest(s.manifest.wire) == Some(s.manifest) && AllocationValid(s.allocation)
  }

  lemma CountsFit()
    ensures MAX_ALLOCATION_RECORDS < Pow256(4)
  {
    assert Pow256(4) == 0x1_0000_0000;
  }

  /** A body can be written exactly when its state is held. */
  lemma HeldStates(p: Parts, k: Contents, s: State)
    requires PartsWrite(p, k)
    ensures BodyC(p).ok(s) <==> Held(p.manifest, k, s)
  {
    BodyFacts(p, s);
    CountsFit();
    assert HeadOk(p, s) <==> HeadHeld(k, s);
    assert TablesOk(p, s) <==> TablesHeld(k, s);
    assert EvidenceOk(p, s) <==> EvidenceHeld(k, s);
  }
}
