/**
 Canonical binary codecs and the ways the journal combines them.

 A lawful codec decodes what it encodes, whatever follows, accepts nothing but
 encodings, and predicts the length of every encoding.
 */
module Codecs {
  import opened Types

  datatype Codec<!T> = Codec(ok: T -> bool, enc: T -> Bytes, dec: Bytes -> Option<(T, Bytes)>, len: T -> nat)

  ghost predicate RoundTrips<T(!new)>(c: Codec<T>) {
    forall x, rest :: c.ok(x) ==> c.dec(c.enc(x) + rest) == Some((x, rest))
  }

  ghost predicate Canonical<T(!new)>(c: Codec<T>) {
    forall b :: c.dec(b).Some? ==> c.ok(c.dec(b).value.0) && b == c.enc(c.dec(b).value.0) + c.dec(b).value.1
  }

  ghost predicate Sized<T(!new)>(c: Codec<T>) { forall x :: |c.enc(x)| == c.len(x) }

  ghost predicate Lawful<T(!new)>(c: Codec<T>) {
    var lawful := RoundTrips(c) && Canonical(c) && Sized(c);
    lawful
  }

  // ------------------------------------------------------------------------ numbers

  function Pow256(width: nat): nat { if width == 0 then 1 else 256 * Pow256(width - 1) }

  /** `n` without its `k` lowest bytes. */
  function Shifted(n: nat, k: nat): nat { if k == 0 then n else Shifted(n / 256, k - 1) }

  /** Big-endian, fixed width. */
  function Digits(n: nat, width: nat): (b: Bytes)
    ensures |b| == width
  {
    seq(width, i requires 0 <= i < width => Shifted(n, width - 1 - i) % 256)
  }

  lemma DigitsStep(n: nat, width: nat)
    requires width > 0
    ensures Digits(n, width) == Digits(n / 256, width - 1) + [n % 256]
  {
    var b, rest := Digits(n, width), Digits(n / 256, width - 1);
    forall i | 0 <= i < width - 1 ensures b[i] == rest[i] {
      assert Shifted(n, width - 1 - i) == Shifted(n / 256, width - 2 - i);
    }
    assert b[width - 1] == Shifted(n, 0) % 256;
  }

  function Value(b: Bytes): nat { if b == [] then 0 else Value(b[..|b| - 1]) * 256 + b[|b| - 1] }

  lemma {:induction false} ValueOfDigits(n: nat, width: nat)
    requires n < Pow256(width)
    ensures Value(Digits(n, width)) == n
  {
    if width > 0 {
      ValueOfDigits(n / 256, width - 1);
      DigitsStep(n, width);
      var b := Digits(n, width);
      assert b[..|b| - 1] == Digits(n / 256, width - 1);
    }
  }

  lemma {:induction false} DigitsOfValue(b: Bytes)
    ensures Value(b) < Pow256(|b|) && Digits(Value(b), |b|) == b
  {
    if b != [] {
      var rest := b[..|b| - 1];
      DigitsOfValue(rest);
      assert Value(b) / 256 == Value(rest) && Value(b) % 256 == b[|b| - 1];
      DigitsStep(Value(b), |b|);
    }
  }

  function Num(width: nat): Codec<nat> {
    Codec((n: nat) => n < Pow256(width),
          (n: nat) => Digits(n, width),
          (b: Bytes) => if |b| < width then None else Some((Value(b[..width]), b[width..])),
          (n: nat) => width)
  }

  lemma NumLawful(width: nat)
    ensures Lawful(Num(width))
  {
    var c := Num(width);
    forall n: nat, rest: Bytes | c.ok(n) ensures c.dec(c.enc(n) + rest) == Some((n, rest)) {
      ValueOfDigits(n, width);
      var b := c.enc(n) + rest;
      assert b[..width] == Digits(n, width) && b[width..] == rest;
    }
    forall b: Bytes | c.dec(b).Some?
      ensures c.ok(c.dec(b).value.0) && b == c.enc(c.dec(b).value.0) + c.dec(b).value.1
    {
      DigitsOfValue(b[..width]);
    }
  }

  // ---------------------------------------------------------------------- structure

  function Add(m: nat, n: nat): nat { m + n }

  function Pair<A, B>(a: Codec<A>, b: Codec<B>): Codec<(A, B)> {
    Codec((p: (A, B)) => a.ok(p.0) && b.ok(p.1),
          (p: (A, B)) => a.enc(p.0) + b.enc(p.1),
          (bs: Bytes) =>
            match a.dec(bs)
            case None => None
            case Some((x, bs')) => (match b.dec(bs')
                                    case None => None
                                    case Some((y, bs'')) => Some(((x, y), bs''))),
          (p: (A, B)) => Add(a.len(p.0), b.len(p.1)))
  }

  lemma PairLawful<A(!new), B(!new)>(a: Codec<A>, b: Codec<B>)
    requires Lawful(a) && Lawful(b)
    ensures Lawful(Pair(a, b))
  {
    var c := Pair(a, b);
    forall p: (A, B), rest: Bytes | c.ok(p) ensures c.dec(c.enc(p) + rest) == Some((p, rest)) {
      assert c.enc(p) + rest == a.enc(p.0) + (b.enc(p.1) + rest);
    }
    forall bs: Bytes | c.dec(bs).Some?
      ensures c.ok(c.dec(bs).value.0) && bs == c.enc(c.dec(bs).value.0) + c.dec(bs).value.1
    {
      var (x, bs') := a.dec(bs).value;
      var (y, bs'') := b.dec(bs').value;
      assert a.enc(x) + (b.enc(y) + bs'') == (a.enc(x) + b.enc(y)) + bs'';
    }
    forall p: (A, B) ensures |c.enc(p)| == c.len(p) {
      assert |a.enc(p.0)| == a.len(p.0) && |b.enc(p.1)| == b.len(p.1);
    }
  }

  /** Reading a value through `to`; `from` gives back what was read. */
  function Map<A, B(==)>(a: Codec<A>, to: A -> Option<B>, from: B -> A): Codec<B> {
    Codec((y: B) => a.ok(from(y)) && to(from(y)) == Some(y),
          (y: B) => a.enc(from(y)),
          (bs: Bytes) =>
            match a.dec(bs)
            case None => None
            case Some((x, bs')) => (match to(x) case None => None case Some(y) => Some((y, bs'))),
          (y: B) => a.len(from(y)))
  }

  ghost predicate Faithful<A(!new), B>(to: A -> Option<B>, from: B -> A) {
    forall x :: to(x).Some? ==> from(to(x).value) == x
  }

  lemma MapLawful<A(!new), B(!new)>(a: Codec<A>, to: A -> Option<B>, from: B -> A)
    requires Lawful(a) && Faithful(to, from)
    ensures Lawful(Map(a, to, from))
  {
    var c := Map(a, to, from);
    forall bs: Bytes | c.dec(bs).Some?
      ensures c.ok(c.dec(bs).value.0) && bs == c.enc(c.dec(bs).value.0) + c.dec(bs).value.1
    {
      var (x, bs') := a.dec(bs).value;
      assert from(to(x).value) == x;
    }
  }

  function EncodeOpt<A>(a: Codec<A>, x: Option<A>): Bytes { if x.None? then [0] else [1] + a.enc(x.value) }

  function DecodeOpt<A>(a: Codec<A>, bs: Bytes): Option<(Option<A>, Bytes)> {
    if bs == [] || bs[0] > 1 then None
    else if bs[0] == 0 then Some((None, bs[1..]))
    else match a.dec(bs[1..]) case None => None case Some((x, bs')) => Some((Some(x), bs'))
  }

  function LenOpt<A>(a: Codec<A>, x: Option<A>): nat { if x.None? then 1 else 1 + a.len(x.value) }

  /** A presence byte, then the value. */
  function Opt<A>(a: Codec<A>): Codec<Option<A>> {
    Codec((x: Option<A>) => x.Some? ==> a.ok(x.value), (x: Option<A>) => EncodeOpt(a, x),
          (bs: Bytes) => DecodeOpt(a, bs), (x: Option<A>) => LenOpt(a, x))
  }

  lemma OptLawful<A(!new)>(a: Codec<A>)
    requires Lawful(a)
    ensures Lawful(Opt(a))
  {
    var c := Opt(a);
    forall x: Option<A>, rest: Bytes | c.ok(x) ensures c.dec(c.enc(x) + rest) == Some((x, rest)) {
      var b := EncodeOpt(a, x) + rest;
      assert b[1..] == if x.None? then rest else a.enc(x.value) + rest;
    }
    forall bs: Bytes | c.dec(bs).Some?
      ensures c.ok(c.dec(bs).value.0) && bs == c.enc(c.dec(bs).value.0) + c.dec(bs).value.1
    {
      assert bs == [bs[0]] + bs[1..];
      if bs[0] == 1 {
        var (x, bs') := a.dec(bs[1..]).value;
        assert [1] + (a.enc(x) + bs') == ([1] + a.enc(x)) + bs';
      }
    }
    forall x: Option<A> ensures |c.enc(x)| == c.len(x) {
      if x.Some? { assert |a.enc(x.value)| == a.len(x.value); }
    }
  }

  // -------------------------------------------------------------- bytes and sequences

  function DecodeBlob(max: nat, bs: Bytes): Option<(Bytes, Bytes)> {
    if |bs| < 4 || Value(bs[..4]) > max || Value(bs[..4]) > |bs| - 4 then None
    else var n := Value(bs[..4]); Some((bs[4..4 + n], bs[4 + n..]))
  }

  /** A 32-bit length, at most `max`, then the bytes. */
  function Blob(max: nat): Codec<Bytes> {
    Codec((x: Bytes) => |x| <= max && |x| < Pow256(4), (x: Bytes) => Digits(|x|, 4) + x, (bs: Bytes) => DecodeBlob(max, bs),
          (x: Bytes) => 4 + |x|)
  }

  lemma BlobRoundTrips(max: nat, x: Bytes, rest: Bytes)
    requires |x| <= max && |x| < Pow256(4)
    ensures DecodeBlob(max, (Digits(|x|, 4) + x) + rest) == Some((x, rest))
  {
    var bs := (Digits(|x|, 4) + x) + rest;
    ValueOfDigits(|x|, 4);
    assert bs[..4] == Digits(|x|, 4) && bs[4..4 + |x|] == x && bs[4 + |x|..] == rest;
  }

  lemma BlobCanonical(max: nat, bs: Bytes)
    requires DecodeBlob(max, bs).Some?
    ensures var (x, rest) := DecodeBlob(max, bs).value;
            |x| <= max && |x| < Pow256(4) && bs == (Digits(|x|, 4) + x) + rest
  {
    DigitsOfValue(bs[..4]);
    var n := Value(bs[..4]);
    assert bs == (bs[..4] + bs[4..4 + n]) + bs[4 + n..];
  }

  lemma BlobLawful(max: nat)
    ensures Lawful(Blob(max))
  {
    var c := Blob(max);
    forall x: Bytes, rest: Bytes | c.ok(x) ensures c.dec(c.enc(x) + rest) == Some((x, rest)) {
      BlobRoundTrips(max, x, rest);
    }
    forall bs: Bytes | c.dec(bs).Some?
      ensures c.ok(c.dec(bs).value.0) && bs == c.enc(c.dec(bs).value.0) + c.dec(bs).value.1
    {
      BlobCanonical(max, bs);
    }
  }

  function EncodeAll<A>(a: Codec<A>, xs: seq<A>): Bytes {
    if xs == [] then [] else a.enc(xs[0]) + EncodeAll(a, xs[1..])
  }

  function DecodeAll<A>(a: Codec<A>, n: nat, bs: Bytes): Option<(seq<A>, Bytes)> {
    if n == 0 then Some(([], bs))
    else match a.dec(bs)
      case None => None
      case Some((x, bs')) =>
        match DecodeAll(a, n - 1, bs')
        case None => None
        case Some((xs, bs'')) => Some(([x] + xs, bs''))
  }

  predicate AllOk<A>(a: Codec<A>, xs: seq<A>) { forall i :: 0 <= i < |xs| ==> a.ok(xs[i]) }

  lemma {:induction false} AllRoundTrip<A(!new)>(a: Codec<A>, xs: seq<A>, rest: Bytes)
    requires Lawful(a) && AllOk(a, xs)
    ensures DecodeAll(a, |xs|, EncodeAll(a, xs) + rest) == Some((xs, rest))
  {
    if xs == [] {
      assert EncodeAll(a, xs) + rest == rest;
    } else {
      assert a.ok(xs[0]);
      AllRoundTrip(a, xs[1..], rest);
      assert EncodeAll(a, xs) + rest == a.enc(xs[0]) + (EncodeAll(a, xs[1..]) + rest);
      assert xs == [xs[0]] + xs[1..];
    }
  }

  lemma {:induction false} AllCanonical<A(!new)>(a: Codec<A>, n: nat, bs: Bytes)
    requires Lawful(a) && DecodeAll(a, n, bs).Some?
    ensures var (xs, rest) := DecodeAll(a, n, bs).value;
            |xs| == n && AllOk(a, xs) && bs == EncodeAll(a, xs) + rest
  {
    if n > 0 {
      var (x, bs') := a.dec(bs).value;
      AllCanonical(a, n - 1, bs');
      var (xs, rest) := DecodeAll(a, n - 1, bs').value;
      assert a.ok(x) && bs == a.enc(x) + bs';
      assert ([x] + xs)[1..] == xs;
      assert a.enc(x) + (EncodeAll(a, xs) + rest) == (a.enc(x) + EncodeAll(a, xs)) + rest;
    }
  }

  function LenAll<A>(a: Codec<A>, xs: seq<A>): nat { if xs == [] then 0 else a.len(xs[0]) + LenAll(a, xs[1..]) }

  lemma {:induction false} AllSized<A(!new)>(a: Codec<A>, xs: seq<A>)
    requires Lawful(a)
    ensures |EncodeAll(a, xs)| == LenAll(a, xs)
  {
    if xs != [] {
      AllSized(a, xs[1..]);
      assert |a.enc(xs[0])| == a.len(xs[0]);
    }
  }

  function EncodeList<A>(a: Codec<A>, xs: seq<A>): Bytes { Digits(|xs|, 4) + EncodeAll(a, xs) }

  function DecodeList<A>(a: Codec<A>, max: nat, bs: Bytes): Option<(seq<A>, Bytes)> {
    if |bs| < 4 || Value(bs[..4]) > max then None else DecodeAll(a, Value(bs[..4]), bs[4..])
  }

  predicate ListOk<A>(a: Codec<A>, max: nat, xs: seq<A>) { |xs| <= max && |xs| < Pow256(4) && AllOk(a, xs) }

  /** A 32-bit count, at most `max`, then the elements. */
  function List<A>(a: Codec<A>, max: nat): Codec<seq<A>> {
    Codec((xs: seq<A>) => ListOk(a, max, xs), (xs: seq<A>) => EncodeList(a, xs), (bs: Bytes) => DecodeList(a, max, bs),
          (xs: seq<A>) => 4 + LenAll(a, xs))
  }

  lemma ListRoundTrips<A(!new)>(a: Codec<A>, max: nat, xs: seq<A>, rest: Bytes)
    requires Lawful(a) && ListOk(a, max, xs)
    ensures DecodeList(a, max, EncodeList(a, xs) + rest) == Some((xs, rest))
  {
    var bs := EncodeList(a, xs) + rest;
    assert bs == Digits(|xs|, 4) + (EncodeAll(a, xs) + rest);
    assert bs[..4] == Digits(|xs|, 4) && bs[4..] == EncodeAll(a, xs) + rest;
    ValueOfDigits(|xs|, 4);
    AllRoundTrip(a, xs, rest);
  }

  lemma ListCanonical<A(!new)>(a: Codec<A>, max: nat, bs: Bytes)
    requires Lawful(a) && DecodeList(a, max, bs).Some?
    ensures var (xs, rest) := DecodeList(a, max, bs).value; ListOk(a, max, xs) && bs == EncodeList(a, xs) + rest
  {
    var n, bs' := Value(bs[..4]), bs[4..];
    DigitsOfValue(bs[..4]);
    AllCanonical(a, n, bs');
    var (xs, rest) := DecodeAll(a, n, bs').value;
    assert bs == bs[..4] + bs';
    assert Digits(n, 4) + (EncodeAll(a, xs) + rest) == (Digits(n, 4) + EncodeAll(a, xs)) + rest;
  }

  lemma ListLawful<A(!new)>(a: Codec<A>, max: nat)
    requires Lawful(a)
    ensures Lawful(List(a, max))
  {
    var c := List(a, max);
    forall xs: seq<A>, rest: Bytes | c.ok(xs) ensures c.dec(c.enc(xs) + rest) == Some((xs, rest)) {
      ListRoundTrips(a, max, xs, rest);
    }
    forall bs: Bytes | c.dec(bs).Some?
      ensures c.ok(c.dec(bs).value.0) && bs == c.enc(c.dec(bs).value.0) + c.dec(bs).value.1
    {
      ListCanonical(a, max, bs);
    }
    forall xs: seq<A> ensures |c.enc(xs)| == c.len(xs) {
      AllSized(a, xs);
    }
  }

  // ----------------------------------------------------------------- records in order

  function Seq4<A, B, C, D>(a: Codec<A>, b: Codec<B>, c: Codec<C>, d: Codec<D>): Codec<(A, (B, (C, D)))> {
    Pair(a, Pair(b, Pair(c, d)))
  }

  lemma Seq4Lawful<A(!new), B(!new), C(!new), D(!new)>(a: Codec<A>, b: Codec<B>, c: Codec<C>, d: Codec<D>)
    requires Lawful(a) && Lawful(b) && Lawful(c) && Lawful(d)
    ensures Lawful(Seq4(a, b, c, d))
  {
    PairLawful(c, d);
    PairLawful(b, Pair(c, d));
    PairLawful(a, Pair(b, Pair(c, d)));
  }

  lemma Seq4Facts<A, B, C, D>(a: Codec<A>, b: Codec<B>, c: Codec<C>, d: Codec<D>, x: (A, (B, (C, D))))
    ensures Seq4(a, b, c, d).len(x) == a.len(x.0) + b.len(x.1.0) + c.len(x.1.1.0) + d.len(x.1.1.1)
    ensures Seq4(a, b, c, d).ok(x) <==> a.ok(x.0) && b.ok(x.1.0) && c.ok(x.1.1.0) && d.ok(x.1.1.1)
  {
  }

  function Seq5<A, B, C, D, E>(a: Codec<A>, b: Codec<B>, c: Codec<C>, d: Codec<D>, e: Codec<E>)
    : Codec<(A, (B, (C, (D, E))))>
  {
    Pair(a, Seq4(b, c, d, e))
  }

  lemma Seq5Lawful<A(!new), B(!new), C(!new), D(!new), E(!new)>
    (a: Codec<A>, b: Codec<B>, c: Codec<C>, d: Codec<D>, e: Codec<E>)
    requires Lawful(a) && Lawful(b) && Lawful(c) && Lawful(d) && Lawful(e)
    ensures Lawful(Seq5(a, b, c, d, e))
  {
    Seq4Lawful(b, c, d, e);
    PairLawful(a, Seq4(b, c, d, e));
  }

  lemma Seq5Facts<A, B, C, D, E>(a: Codec<A>, b: Codec<B>, c: Codec<C>, d: Codec<D>, e: Codec<E>,
                                 x: (A, (B, (C, (D, E)))))
    ensures Seq5(a, b, c, d, e).len(x) ==
            a.len(x.0) + b.len(x.1.0) + c.len(x.1.1.0) + d.len(x.1.1.1.0) + e.len(x.1.1.1.1)
    ensures Seq5(a, b, c, d, e).ok(x) <==>
            a.ok(x.0) && b.ok(x.1.0) && c.ok(x.1.1.0) && d.ok(x.1.1.1.0) && e.ok(x.1.1.1.1)
  {
    Seq4Facts(b, c, d, e, x.1);
  }

  lemma PairFacts<A, B>(a: Codec<A>, b: Codec<B>, x: (A, B))
    ensures Pair(a, b).len(x) == a.len(x.0) + b.len(x.1)
    ensures Pair(a, b).ok(x) <==> a.ok(x.0) && b.ok(x.1)
  {
  }

  lemma NumFacts(width: nat)
    ensures forall n: nat :: Num(width).len(n) == width && (Num(width).ok(n) <==> n < Pow256(width))
  {
  }

  lemma BlobFacts(max: nat)
    ensures forall b: Bytes :: Blob(max).len(b) == 4 + |b| && (Blob(max).ok(b) <==> |b| <= max && |b| < Pow256(4))
  {
  }

  lemma MapFacts<A, B>(a: Codec<A>, to: A -> Option<B>, from: B -> A, y: B)
    ensures Map(a, to, from).len(y) == a.len(from(y))
    ensures Map(a, to, from).ok(y) <==> a.ok(from(y)) && to(from(y)) == Some(y)
  {
  }

  lemma OptFacts<A>(a: Codec<A>, x: Option<A>)
    ensures Opt(a).len(x) == if x.None? then 1 else 1 + a.len(x.value)
    ensures Opt(a).ok(x) <==> (x.Some? ==> a.ok(x.value))
  {
  }

  lemma ListFacts<A>(a: Codec<A>, max: nat, xs: seq<A>)
    ensures List(a, max).len(xs) == 4 + LenAll(a, xs)
    ensures List(a, max).ok(xs) <==> ListOk(a, max, xs)
  {
  }

  lemma {:induction false} LenAllLast<A>(a: Codec<A>, xs: seq<A>)
    requires xs != []
    ensures LenAll(a, xs) == LenAll(a, xs[..|xs| - 1]) + a.len(xs[|xs| - 1])
  {
    if |xs| > 1 {
      LenAllLast(a, xs[1..]);
      assert xs[1..][..|xs| - 2] == xs[..|xs| - 1][1..];
    }
  }

  // ------------------------------------------------------------- facets of one codec

  /** Every value takes the bytes that `len` predicts. */
  ghost predicate Measured<T(!new)>(c: Codec<T>, len: T -> nat) { forall x :: c.len(x) == len(x) }

  /** Exactly the values that fit can be written. */
  ghost predicate Writes<T(!new)>(c: Codec<T>, fits: T -> bool) { forall x :: c.ok(x) <==> fits(x) }
}
