/**
 The snapshot envelope: fixed header, checksum, payload.
 */
module Envelope {
  import opened Types
  import opened Sizes
  import opened Codecs

  const JOURNAL_MAGIC: nat := 0x50584A52
  const PAYLOAD_MAGIC: nat := 0x50584350
  const ENVELOPE_VERSION: nat := 1
  const OWNER_KIND: nat := 1
  const CHECKSUM_ALGORITHM: nat := 1
  const CHECKSUM_VERSION: nat := 1
  const PREFIX_BYTES: nat := HEADER_BYTES - 32

  /** The body's codec and the checksum over header and payload. */
  datatype Format = Format(body: Codec<State>, sum: (Bytes, Bytes) -> Digest)

  ghost predicate FormatLawful(f: Format) {
    var lawful :=
      Lawful(f.body) && forall a, b :: f.sum(a, b) < Pow256(32);
    lawful
  }

  // ------------------------------------------------------------------------- writing

  function EncodePayload(f: Format, version: nat, s: State): Bytes {
    Digits(PAYLOAD_MAGIC, 4) + Digits(version, 2) + f.body.enc(s)
  }

  function Prefix(version: nat, x: Snapshot, length: nat): (b: Bytes)
    ensures |b| == PREFIX_BYTES
  {
    Digits(JOURNAL_MAGIC, 4) + Digits(ENVELOPE_VERSION, 2) + Digits(OWNER_KIND, 2) + Digits(version, 2)
    + Digits(CHECKSUM_ALGORITHM, 2) + Digits(CHECKSUM_VERSION, 2) + Digits(x.store, 32) + Digits(x.owner, 32)
    + Digits(x.sequence, 8) + Digits(length, 8)
  }

  function Encode(f: Format, version: nat, x: Snapshot): Bytes {
    var payload := EncodePayload(f, version, x.state);
    var prefix := Prefix(version, x, |payload|);
    prefix + Digits(f.sum(prefix, payload), 32) + payload
  }

  // ------------------------------------------------------------------------- reading

  /** A cursor over the bytes. */
  class Reader {
    const bytes: Bytes
    var offset: nat

    constructor (bytes: Bytes)
      ensures this.bytes == bytes && offset == 0
    {
      this.bytes := bytes;
      offset := 0;
    }

    method Take(length: nat) returns (r: Option<Bytes>)
      requires offset <= |bytes|
      modifies this
      ensures r.Some? <==> old(offset) + length <= |bytes|
      ensures r.Some? ==> offset == old(offset) + length && r.value == bytes[old(offset)..offset]
      ensures r.None? ==> offset == old(offset)
    {
      if offset + length > |bytes| { return None; }
      r := Some(bytes[offset..offset + length]);
      offset := offset + length;
    }

    method Number(width: nat) returns (r: Option<nat>)
      requires offset <= |bytes|
      modifies this
      ensures r.Some? <==> old(offset) + width <= |bytes|
      ensures r.Some? ==> offset == old(offset) + width && r.value == Value(bytes[old(offset)..offset])
      ensures r.None? ==> offset == old(offset)
    {
      var b := Take(width);
      r := if b.None? then None else Some(Value(b.value));
    }
  }

  /** The header of an envelope, once its constants have been checked. */
  datatype Header = Header(store: Digest, owner: Digest, sequence: nat, length: nat, checksum: Digest)

  function HeaderOf(version: nat, b: Bytes): Option<Header> {
    if |b| < HEADER_BYTES || |b| > MAX_SNAPSHOT_BYTES then None
    else if || Value(b[0..4]) != JOURNAL_MAGIC || Value(b[4..6]) != ENVELOPE_VERSION || Value(b[6..8]) != OWNER_KIND
            || Value(b[8..10]) != version || Value(b[10..12]) != CHECKSUM_ALGORITHM || Value(b[12..14]) != CHECKSUM_VERSION
    then None
    else Some(Header(Value(b[14..46]), Value(b[46..78]), Value(b[78..86]), Value(b[86..94]), Value(b[94..126])))
  }

  function DecodePayload(f: Format, version: nat, b: Bytes): Option<State> {
    if |b| < 6 || Value(b[0..4]) != PAYLOAD_MAGIC || Value(b[4..6]) != version then None
    else match f.body.dec(b[6..])
      case None => None
      case Some((s, rest)) => if rest != [] then None else Some(s)
  }

  function Decode(f: Format, version: nat, b: Bytes): Option<Snapshot> {
    match HeaderOf(version, b)
    case None => None
    case Some(h) =>
      if h.length != |b| - HEADER_BYTES || h.checksum != f.sum(b[..PREFIX_BYTES], b[HEADER_BYTES..]) then None
      else match DecodePayload(f, version, b[HEADER_BYTES..])
        case None => None
        case Some(s) => Some(Snapshot(h.store, h.owner, h.sequence, s))
  }

  method ReadConstants(reader: Reader, version: nat) returns (ok: bool)
    requires reader.offset == 0 && |reader.bytes| >= HEADER_BYTES
    modifies reader
    ensures ok ==> reader.offset == 14
    ensures var b := reader.bytes;
            ok <==> && Value(b[0..4]) == JOURNAL_MAGIC && Value(b[4..6]) == ENVELOPE_VERSION
                    && Value(b[6..8]) == OWNER_KIND && Value(b[8..10]) == version
                    && Value(b[10..12]) == CHECKSUM_ALGORITHM && Value(b[12..14]) == CHECKSUM_VERSION
  {
    var n := reader.Number(4);
    if n.value != JOURNAL_MAGIC { return false; }
    n := reader.Number(2);
    if n.value != ENVELOPE_VERSION { return false; }
    n := reader.Number(2);
    if n.value != OWNER_KIND { return false; }
    n := reader.Number(2);
    if n.value != version { return false; }
    n := reader.Number(2);
    if n.value != CHECKSUM_ALGORITHM { return false; }
    n := reader.Number(2);
    ok := n.value == CHECKSUM_VERSION;
  }

  method ReadHeader(reader: Reader, version: nat) returns (r: Option<Header>)
    requires reader.offset == 0
    modifies reader
    ensures r == HeaderOf(version, reader.bytes)
    ensures r.Some? ==> reader.offset == HEADER_BYTES
  {
    if |reader.bytes| < HEADER_BYTES || |reader.bytes| > MAX_SNAPSHOT_BYTES { return None; }
    var ok := ReadConstants(reader, version);
    if !ok { return None; }
    var store := reader.Number(32);
    var owner := reader.Number(32);
    var sequence := reader.Number(8);
    var length := reader.Number(8);
    var checksum := reader.Number(32);
    r := Some(Header(store.value, owner.value, sequence.value, length.value, checksum.value));
  }

  /** The cursor reads what the slices say. */
  method ReadSnapshot(f: Format, version: nat, bytes: Bytes) returns (r: Option<Snapshot>)
    ensures r == Decode(f, version, bytes)
  {
    var reader := new Reader(bytes);
    var header := ReadHeader(reader, version);
    if header.None? { return None; }
    var h := header.value;
    if h.length != |bytes| - reader.offset { return None; }
    var payload := reader.Take(h.length);
    assert payload.value == bytes[HEADER_BYTES..];
    if f.sum(bytes[..PREFIX_BYTES], payload.value) != h.checksum { return None; }
    var s := DecodePayload(f, version, payload.value);
    r := if s.None? then None else Some(Snapshot(h.store, h.owner, h.sequence, s.value));
  }

  // --------------------------------------------------------------------------- laws

  lemma PrefixSlices(version: nat, x: Snapshot, length: nat)
    ensures var b := Prefix(version, x, length);
            && b[0..4] == Digits(JOURNAL_MAGIC, 4) && b[4..6] == Digits(ENVELOPE_VERSION, 2)
            && b[6..8] == Digits(OWNER_KIND, 2) && b[8..10] == Digits(version, 2)
            && b[10..12] == Digits(CHECKSUM_ALGORITHM, 2) && b[12..14] == Digits(CHECKSUM_VERSION, 2)
            && b[14..46] == Digits(x.store, 32) && b[46..78] == Digits(x.owner, 32)
            && b[78..86] == Digits(x.sequence, 8) && b[86..94] == Digits(length, 8)
  {
  }

  /** What a snapshot must satisfy to be written. */
  predicate Fits(f: Format, version: nat, x: Snapshot) {
    && version < Pow256(2) && x.store < Pow256(32) && x.owner < Pow256(32) && x.sequence < Pow256(8)
    && f.body.ok(x.state)
    && HEADER_BYTES + 6 + f.body.len(x.state) <= MAX_SNAPSHOT_BYTES
  }

  lemma PayloadRoundTrip(f: Format, version: nat, s: State)
    requires FormatLawful(f) && f.body.ok(s) && version < Pow256(2)
    ensures DecodePayload(f, version, EncodePayload(f, version, s)) == Some(s)
    ensures |EncodePayload(f, version, s)| == 6 + f.body.len(s)
  {
    var b := EncodePayload(f, version, s);
    ValueOfDigits(PAYLOAD_MAGIC, 4);
    ValueOfDigits(version, 2);
    assert b[0..4] == Digits(PAYLOAD_MAGIC, 4) && b[4..6] == Digits(version, 2) && b[6..] == f.body.enc(s);
    assert f.body.enc(s) + [] == f.body.enc(s);
    assert f.body.dec(f.body.enc(s) + []) == Some((s, []));
  }

  lemma PayloadCanonical(f: Format, version: nat, b: Bytes)
    requires FormatLawful(f) && DecodePayload(f, version, b).Some?
    ensures var s := DecodePayload(f, version, b).value;
            b == EncodePayload(f, version, s) && f.body.ok(s) && version < Pow256(2)
  {
    var s := DecodePayload(f, version, b).value;
    DigitsOfValue(b[0..4]);
    DigitsOfValue(b[4..6]);
    assert b[6..] == f.body.enc(s) + [];
    assert b == b[0..4] + b[4..6] + b[6..];
  }

  lemma ConstantsFit()
    ensures JOURNAL_MAGIC < Pow256(4) && PAYLOAD_MAGIC < Pow256(4) && 1 < Pow256(2) && MAX_SNAPSHOT_BYTES < Pow256(8)
  {
    assert Pow256(2) == 65536 && Pow256(4) == 0x1_0000_0000;
    assert Pow256(8) == 0x1_0000_0000_0000_0000;
  }

  lemma HeaderRoundTrip(version: nat, x: Snapshot, length: nat, sum: Digest, payload: Bytes)
    requires version < Pow256(2) && x.store < Pow256(32) && x.owner < Pow256(32) && x.sequence < Pow256(8)
    requires length < Pow256(8) && sum < Pow256(32) && HEADER_BYTES + |payload| <= MAX_SNAPSHOT_BYTES
    ensures HeaderOf(version, Prefix(version, x, length) + Digits(sum, 32) + payload)
            == Some(Header(x.store, x.owner, x.sequence, length, sum))
  {
    var p := Prefix(version, x, length);
    var b := p + Digits(sum, 32) + payload;
    PrefixSlices(version, x, length);
    forall i: nat, j: nat | i <= j <= PREFIX_BYTES ensures b[i..j] == p[i..j] { }
    assert b[94..126] == Digits(sum, 32);
    ConstantsFit();
    ValueOfDigits(JOURNAL_MAGIC, 4);
    ValueOfDigits(1, 2);
    ValueOfDigits(version, 2);
    ValueOfDigits(x.store, 32);
    ValueOfDigits(x.owner, 32);
    ValueOfDigits(x.sequence, 8);
    ValueOfDigits(length, 8);
    ValueOfDigits(sum, 32);
  }

  /** Decoding inverts encoding. */
  lemma RoundTrip(f: Format, version: nat, x: Snapshot)
    requires FormatLawful(f) && Fits(f, version, x)
    ensures Decode(f, version, Encode(f, version, x)) == Some(x)
    ensures |Encode(f, version, x)| == HEADER_BYTES + 6 + f.body.len(x.state)
  {
    PayloadRoundTrip(f, version, x.state);
    ConstantsFit();
    var payload := EncodePayload(f, version, x.state);
    var prefix := Prefix(version, x, |payload|);
    var b := Encode(f, version, x);
    HeaderRoundTrip(version, x, |payload|, f.sum(prefix, payload), payload);
    assert b[..PREFIX_BYTES] == prefix && b[HEADER_BYTES..] == payload;
  }

  lemma HeaderCanonical(version: nat, b: Bytes)
    requires HeaderOf(version, b).Some?
    ensures var h := HeaderOf(version, b).value;
            forall s :: b[..PREFIX_BYTES] == Prefix(version, Snapshot(h.store, h.owner, h.sequence, s), h.length)
    ensures var h := HeaderOf(version, b).value;
            && b[PREFIX_BYTES..HEADER_BYTES] == Digits(h.checksum, 32)
            && h.store < Pow256(32) && h.owner < Pow256(32) && h.sequence < Pow256(8)
  {
    DigitsOfValue(b[0..4]); DigitsOfValue(b[4..6]); DigitsOfValue(b[6..8]); DigitsOfValue(b[8..10]);
    DigitsOfValue(b[10..12]); DigitsOfValue(b[12..14]); DigitsOfValue(b[14..46]); DigitsOfValue(b[46..78]);
    DigitsOfValue(b[78..86]); DigitsOfValue(b[86..94]); DigitsOfValue(b[94..126]);
    assert b[..94] == b[0..4] + b[4..6] + b[6..8] + b[8..10] + b[10..12] + b[12..14] + b[14..46] + b[46..78]
                      + b[78..86] + b[86..94];
  }

  lemma InThreeParts(b: Bytes)
    requires |b| >= HEADER_BYTES
    ensures b == b[..PREFIX_BYTES] + b[PREFIX_BYTES..HEADER_BYTES] + b[HEADER_BYTES..]
  {
  }

  /** Every accepted byte string is the encoding of its result. */
  lemma AcceptedIsCanonical(f: Format, version: nat, b: Bytes)
    requires FormatLawful(f) && Decode(f, version, b).Some?
    ensures var x := Decode(f, version, b).value; b == Encode(f, version, x) && Fits(f, version, x)
  {
    var x := Decode(f, version, b).value;
    var payload := b[HEADER_BYTES..];
    HeaderCanonical(version, b);
    PayloadCanonical(f, version, payload);
    PayloadRoundTrip(f, version, x.state);
    InThreeParts(b);
  }

  /** Each decoder refuses the other's payload version. */
  lemma VersionsAreDisjoint(f: Format, version: nat, other: nat, x: Snapshot)
    requires FormatLawful(f) && Fits(f, version, x) && other != version
    ensures Decode(f, other, Encode(f, version, x)) == None
  {
    RoundTrip(f, version, x);
  }

  // ------------------------------------------------------------------------ migration

  /** The positions of the two version fields and of the checksum. */
  predicate VersionDependent(i: nat) { 8 <= i < 10 || 94 <= i < 126 || 130 <= i < 132 }

  lemma PayloadsAgree(f: Format, v: nat, v': nat, s: State, i: nat)
    requires i < |EncodePayload(f, v, s)| && !(4 <= i < 6)
    ensures |EncodePayload(f, v, s)| == |EncodePayload(f, v', s)|
    ensures EncodePayload(f, v, s)[i] == EncodePayload(f, v', s)[i]
  {
    var b, b' := EncodePayload(f, v, s), EncodePayload(f, v', s);
    assert b == (Digits(PAYLOAD_MAGIC, 4) + Digits(v, 2)) + f.body.enc(s);
    assert b' == (Digits(PAYLOAD_MAGIC, 4) + Digits(v', 2)) + f.body.enc(s);
  }

  lemma PrefixesAgree(v: nat, v': nat, x: Snapshot, n: nat, i: nat)
    requires i < PREFIX_BYTES && !(8 <= i < 10)
    ensures Prefix(v, x, n)[i] == Prefix(v', x, n)[i]
  {
    var head := Digits(JOURNAL_MAGIC, 4) + Digits(ENVELOPE_VERSION, 2) + Digits(OWNER_KIND, 2);
    var tail := Digits(CHECKSUM_ALGORITHM, 2) + Digits(CHECKSUM_VERSION, 2) + Digits(x.store, 32) + Digits(x.owner, 32)
                + Digits(x.sequence, 8) + Digits(n, 8);
    assert Prefix(v, x, n) == head + Digits(v, 2) + tail;
    assert Prefix(v', x, n) == head + Digits(v', 2) + tail;
  }

  /** Two versions of one snapshot differ in nothing else. */
  lemma EncodingsAgree(f: Format, v: nat, v': nat, x: Snapshot, i: nat)
    requires i < |Encode(f, v, x)| && !VersionDependent(i)
    ensures |Encode(f, v, x)| == |Encode(f, v', x)| && Encode(f, v, x)[i] == Encode(f, v', x)[i]
  {
    var p, p' := EncodePayload(f, v, x.state), EncodePayload(f, v', x.state);
    PayloadsAgree(f, v, v', x.state, 0);
    if i < PREFIX_BYTES {
      PrefixesAgree(v, v', x, |p|, i);
    } else {
      PayloadsAgree(f, v, v', x.state, i - HEADER_BYTES);
    }
  }

  /** The capacity check of the validator measures this format. */
  ghost predicate Predicted(f: Format) { forall s :: 6 + f.body.len(s) == PayloadLen(s) }

  /** Fields within their widths, and a body the format can write. */
  predicate Writable(f: Format, x: Snapshot) {
    x.store < Pow256(32) && x.owner < Pow256(32) && x.sequence < Pow256(8) && f.body.ok(x.state)
  }
}
