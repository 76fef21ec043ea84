/**
 The journal's own format: the layouts put together, their laws, their lengths, and
 what a state must satisfy to be written in it.
 */
module Snapshots {
  import opened Types
  import opened Sizes
  import opened Codecs
  import opened Layout
  import opened Embedded
  import opened Payload
  import opened Body
  import opened Envelope

  function JournalParts(w: Wires, h: Hashes): Parts {
    Parts(w.manifest, AllocationC(), PlanC(w, h), OperationC(), TenureC(w), AuthC(), BindingC(w), RolloutC(w))
  }

  function JournalFormat(w: Wires, h: Hashes, sum: (Bytes, Bytes) -> Digest): Format {
    Format(BodyC(JournalParts(w, h)), sum)
  }

  function PlanHeld(w: Wires, h: Hashes): Plan -> bool { p => PlanStorable(w, h, p) }

  function TenureHeld(w: Wires): Tenure -> bool { t => TenureStorable(w, t) }

  function BindingHeld(w: Wires): Binding -> bool { b => BindingStorable(w, b) }

  function RolloutHeld(w: Wires): Rollout -> bool { r => RolloutStorable(w, r) }

  function JournalContents(w: Wires, h: Hashes): Contents {
    Contents(AllocationStorable, PlanHeld(w, h), OperationStorable, TenureHeld(w), AuthStorable, BindingHeld(w),
             RolloutHeld(w))
  }

  /** What a state must satisfy to be written: every field within its width, every
      embedded message decoding to what the state says it is. */
  predicate Storable(w: Wires, h: Hashes, s: State) { Held(w.manifest, JournalContents(w, h), s) }

  // ----------------------------------------------------------- one record after another

  lemma SmallParts()
    ensures Measured(AllocationC(), AllocationBytes) && Writes(AllocationC(), AllocationStorable)
    ensures Measured(OperationC(), OperationLen) && Writes(OperationC(), OperationStorable)
    ensures Measured(AuthC(), AuthBytes) && Writes(AuthC(), AuthStorable)
  {
    forall r ensures AllocationC().len(r) == AllocationBytes(r) && (AllocationC().ok(r) <==> AllocationStorable(r)) {
      AllocationFacts(r);
    }
    forall o ensures OperationC().len(o) == OperationLen(o) && (OperationC().ok(o) <==> OperationStorable(o)) {
      OperationFacts(o);
    }
    forall a ensures AuthC().len(a) == AuthBytes(a) && (AuthC().ok(a) <==> AuthStorable(a)) { AuthFacts(a); }
  }

  lemma PlanPart(w: Wires, h: Hashes)
    ensures Measured(PlanC(w, h), PlanBytes) && Writes(PlanC(w, h), PlanHeld(w, h))
  {
    forall p ensures PlanC(w, h).len(p) == PlanBytes(p) && (PlanC(w, h).ok(p) <==> PlanHeld(w, h)(p)) {
      PlanFacts(w, h, p);
    }
  }

  lemma TenurePart(w: Wires)
    ensures Measured(TenureC(w), TenureLen) && Writes(TenureC(w), TenureHeld(w))
  {
    forall t ensures TenureC(w).len(t) == TenureLen(t) && (TenureC(w).ok(t) <==> TenureHeld(w)(t)) { TenureFacts(w, t); }
  }

  lemma BindingPart(w: Wires)
    ensures Measured(BindingC(w), BindingBytes) && Writes(BindingC(w), BindingHeld(w))
  {
    forall b ensures BindingC(w).len(b) == BindingBytes(b) && (BindingC(w).ok(b) <==> BindingHeld(w)(b)) {
      BindingFacts(w, b);
    }
  }

  lemma RolloutPart(w: Wires)
    ensures Measured(RolloutC(w), RolloutLen) && Writes(RolloutC(w), RolloutHeld(w))
  {
    forall r ensures RolloutC(w).len(r) == RolloutLen(r) && (RolloutC(w).ok(r) <==> RolloutHeld(w)(r)) {
      RolloutFacts(w, r);
    }
  }

  lemma PartsLaw(w: Wires, h: Hashes)
    requires WiresCanonical(w)
    ensures PartsLawful(JournalParts(w, h))
  {
    AllocationLawful();
    PlanLawful(w, h);
    OperationLawful();
    TenureLawful(w);
    AuthLawful();
    BindingLawful(w);
    RolloutLawful(w);
  }

  lemma PartsMeasure(w: Wires, h: Hashes)
    ensures PartsMeasured(JournalParts(w, h))
  {
    SmallParts();
    PlanPart(w, h);
    TenurePart(w);
    BindingPart(w);
    RolloutPart(w);
  }

  lemma PartsHold(w: Wires, h: Hashes)
    ensures PartsWrite(JournalParts(w, h), JournalContents(w, h))
  {
    SmallParts();
    PlanPart(w, h);
    TenurePart(w);
    BindingPart(w);
    RolloutPart(w);
  }

  // ----------------------------------------------------------------------- the format

  ghost predicate SumsFit(sum: (Bytes, Bytes) -> Digest) { forall a, b :: sum(a, b) < Pow256(32) }

  lemma LawfulFor(p: Parts, sum: (Bytes, Bytes) -> Digest)
    requires PartsLawful(p) && PartsMeasured(p) && SumsFit(sum)
    ensures FormatLawful(Format(BodyC(p), sum)) && Predicted(Format(BodyC(p), sum))
  {
    BodyLawful(p);
    forall s ensures 6 + BodyC(p).len(s) == PayloadLen(s) { PredictedLength(p, s); }
  }

  /** The journal's format is lawful and measured by its capacity check, for every
      choice of canonical wire decoders, digests and checksum. */
  lemma JournalFormatSound(w: Wires, h: Hashes, sum: (Bytes, Bytes) -> Digest)
    requires WiresCanonical(w) && SumsFit(sum)
    ensures FormatLawful(JournalFormat(w, h, sum)) && Predicted(JournalFormat(w, h, sum))
  {
    PartsLaw(w, h);
    PartsMeasure(w, h);
    LawfulFor(JournalParts(w, h), sum);
  }

  /** What a format over these parts can write, in terms of the state alone. */
  ghost predicate WritesStates(f: Format, fits: State -> bool) { Writes(f.body, fits) }

  function StateHeld(manifest: Bytes -> Option<Manifest>, k: Contents): State -> bool { s => Held(manifest, k, s) }

  lemma WritesFor(p: Parts, k: Contents, sum: (Bytes, Bytes) -> Digest)
    requires PartsWrite(p, k)
    ensures WritesStates(Format(BodyC(p), sum), StateHeld(p.manifest, k))
  {
    forall s ensures BodyC(p).ok(s) <==> StateHeld(p.manifest, k)(s) { HeldStates(p, k, s); }
  }

  /** The journal's format writes exactly the storable states. */
  lemma StorableStates(w: Wires, h: Hashes, sum: (Bytes, Bytes) -> Digest)
    ensures WritesStates(JournalFormat(w, h, sum), StateHeld(w.manifest, JournalContents(w, h)))
  {
    PartsHold(w, h);
    WritesFor(JournalParts(w, h), JournalContents(w, h), sum);
  }
}
