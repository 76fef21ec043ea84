/**
 Whole snapshots on disk: writing, opening, and the offline migration from payload
 version 7, for any lawful format whose length the journal predicts.
 */
module Disk {
  import opened Types
  import opened Sizes
  import opened Codecs
  import opened Envelope
  import opened Journal
  import opened Successors
  import Mutators

  const PAYLOAD_VERSION: nat := 8
  const LEGACY_VERSION: nat := 7

  method Write(f: Format, version: nat, x: Snapshot) returns (r: Option<Bytes>)
    ensures r.Some? <==> Valid(x.state) && HEADER_BYTES + |EncodePayload(f, version, x.state)| <= MAX_SNAPSHOT_BYTES
    ensures r.Some? ==> r.value == Encode(f, version, x)
  {
    var ok := Mutators.Validate(x.state);
    if !ok || HEADER_BYTES + |EncodePayload(f, version, x.state)| > MAX_SNAPSHOT_BYTES { return None; }
    r := Some(Encode(f, version, x));
  }

  ghost function Accepted(x: Option<Snapshot>): Option<Snapshot> {
    if x.Some? && SnapshotValid(x.value) then x else None
  }

  ghost function Open(f: Format, b: Bytes): Option<Snapshot> { Accepted(Decode(f, PAYLOAD_VERSION, b)) }

  method CheckSnapshot(x: Snapshot) returns (ok: bool)
    ensures ok <==> SnapshotValid(x)
  {
    ok := Mutators.Validate(x.state);
    ok := ok && 0 < x.sequence <= U64_MAX && (x.sequence == 1 <==> Fresh(x.state));
  }

  method OpenBytes(f: Format, b: Bytes) returns (r: Option<Snapshot>)
    ensures r == Open(f, b)
  {
    var x := ReadSnapshot(f, PAYLOAD_VERSION, b);
    if x.None? { return None; }
    var ok := CheckSnapshot(x.value);
    r := if ok then x else None;
  }

  lemma ValidFits(f: Format, version: nat, x: Snapshot)
    requires Predicted(f) && Valid(x.state) && Writable(f, x) && version < Pow256(2)
    ensures Fits(f, version, x)
  {
    assert 6 + f.body.len(x.state) == PayloadLen(x.state);
  }

  /** A validated snapshot is never too large to write. */
  lemma NeverTooLarge(f: Format, version: nat, x: Snapshot)
    requires FormatLawful(f) && Predicted(f) && Valid(x.state)
    ensures HEADER_BYTES + |EncodePayload(f, version, x.state)| <= MAX_SNAPSHOT_BYTES
  {
    assert 6 + f.body.len(x.state) == PayloadLen(x.state);
    assert |f.body.enc(x.state)| == f.body.len(x.state);
  }

  /** What is written is read back, and nothing else is accepted. */
  lemma DiskRoundTrip(f: Format, x: Snapshot)
    requires FormatLawful(f) && Predicted(f) && SnapshotValid(x) && Writable(f, x)
    ensures Open(f, Encode(f, PAYLOAD_VERSION, x)) == Some(x)
  {
    VersionsFit();
    ValidFits(f, PAYLOAD_VERSION, x);
    RoundTrip(f, PAYLOAD_VERSION, x);
  }

  lemma DiskCanonical(f: Format, b: Bytes)
    requires FormatLawful(f) && Open(f, b).Some?
    ensures b == Encode(f, PAYLOAD_VERSION, Open(f, b).value) && Writable(f, Open(f, b).value)
  {
    AcceptedIsCanonical(f, PAYLOAD_VERSION, b);
  }

  lemma VersionsFit()
    ensures PAYLOAD_VERSION < Pow256(2) && LEGACY_VERSION < Pow256(2)
  {
    assert Pow256(2) == 65536;
  }

  // ------------------------------------------------------------------------ migration

  /** Version 7 kept only opaque query evidence, so none may be left. */
  predicate Migratable(s: State) {
    && s.highWater == 0
    && (s.rollout.Some? ==> s.rollout.value.attempts == [])
    && (forall r :: r in s.history ==> r.attempts == [])
  }

  /** The migration also insists that re-encoding gives back the payload it read. */
  predicate Migrates(f: Format, b: Bytes, x: Snapshot) {
    && |b| >= HEADER_BYTES && Migratable(x.state)
    && EncodePayload(f, LEGACY_VERSION, x.state) == b[HEADER_BYTES..]
  }

  ghost function Migrate(f: Format, b: Bytes): Option<Snapshot> {
    var x := Decode(f, LEGACY_VERSION, b);
    if x.None? || !Migrates(f, b, x.value) then None else Accepted(x)
  }

  method MigrateBytes(f: Format, b: Bytes) returns (r: Option<Snapshot>)
    ensures r == Migrate(f, b)
  {
    var x := ReadSnapshot(f, LEGACY_VERSION, b);
    if x.None? || !Migrates(f, b, x.value) { return None; }
    var ok := CheckSnapshot(x.value);
    r := if ok then x else None;
  }

  /** Version-7 bytes of a snapshot migrate to that very snapshot exactly when it
      holds no query evidence. */
  lemma MigrationExact(f: Format, x: Snapshot)
    requires FormatLawful(f) && Predicted(f) && SnapshotValid(x) && Writable(f, x)
    ensures Migrate(f, Encode(f, LEGACY_VERSION, x)) == if Migratable(x.state) then Some(x) else None
    ensures Open(f, Encode(f, LEGACY_VERSION, x)) == None
  {
    VersionsFit();
    ValidFits(f, LEGACY_VERSION, x);
    RoundTrip(f, LEGACY_VERSION, x);
    VersionsAreDisjoint(f, LEGACY_VERSION, PAYLOAD_VERSION, x);
    var b, payload := Encode(f, LEGACY_VERSION, x), EncodePayload(f, LEGACY_VERSION, x.state);
    assert b[HEADER_BYTES..] == payload;
  }

  /** A migrated snapshot is written again with only the two version fields and the
      checksum changed. */
  lemma MigrationRewrites(f: Format, b: Bytes, i: nat)
    requires FormatLawful(f) && Migrate(f, b).Some? && i < |b| && !VersionDependent(i)
    ensures var b' := Encode(f, PAYLOAD_VERSION, Migrate(f, b).value); |b'| == |b| && b'[i] == b[i]
  {
    var x := Migrate(f, b).value;
    AcceptedIsCanonical(f, LEGACY_VERSION, b);
    EncodingsAgree(f, LEGACY_VERSION, PAYLOAD_VERSION, x, i);
  }
}
