// The SCALE format of the order table (Polkadot Protocol Specification, appendix A.2.2),
// written as codecs that compose.
//
// A codec is Faithful when decoding accepts precisely the encodings: it returns (v, rest) if and
// only if the input is the encoding of v followed by rest. Faithfulness is proved once per
// combinator, so every record built from them inherits it.
module Scale {
  import opened Definitions

  datatype Codec<!T> = Codec(enc: T -> bytes, dec: bytes -> Option<(T, bytes)>)

  /** Decoding an encoding returns the value and leaves exactly the bytes that follow it. */
  ghost predicate RoundTrips<T(!new)>(c: Codec<T>) {
    forall v: T, rest: bytes :: c.dec(c.enc(v) + rest) == Some((v, rest))
  }

  /** Whatever decodes is an encoding: no two byte strings stand for the same value. */
  ghost predicate Canonical<T(!new)>(c: Codec<T>) {
    forall b: bytes :: c.dec(b).Some? ==> b == c.enc(c.dec(b).value.0) + c.dec(b).value.1
  }

  ghost predicate Faithful<T(!new)>(c: Codec<T>) {
    RoundTrips(c) && Canonical(c)
  }

  lemma Decodes<T(!new)>(c: Codec<T>, v: T)
    requires Faithful(c)
    ensures c.dec(c.enc(v)) == Some((v, []))
  {
    assert c.enc(v) + [] == c.enc(v);
  }

  /** Encodings are prefix-free, hence injective, whatever follows them. */
  lemma PrefixFree<T(!new)>(c: Codec<T>, v: T, w: T, restV: bytes, restW: bytes)
    requires Faithful(c)
    requires c.enc(v) + restV == c.enc(w) + restW
    ensures v == w && restV == restW
  {
    assert c.dec(c.enc(v) + restV) == Some((v, restV));
    assert c.dec(c.enc(w) + restW) == Some((w, restW));
  }

  lemma Injective<T(!new)>(c: Codec<T>, v: T, w: T)
    requires Faithful(c) && c.enc(v) == c.enc(w)
    ensures v == w
  {
    PrefixFree(c, v, w, [], []);
  }

  // --- Fixed-width little-endian integers ---

  function Pow256(w: nat): nat {
    if w == 0 then 1 else 256 * Pow256(w - 1)
  }

  function Le(v: nat, w: nat): (b: bytes)
    ensures |b| == w
  {
    if w == 0 then [] else [v % 256] + Le(v / 256, w - 1)
  }

  function FromLe(b: bytes): nat {
    if |b| == 0 then 0 else b[0] + 256 * FromLe(b[1..])
  }

  lemma {:induction false} LeThenFrom(v: nat, w: nat)
    requires v < Pow256(w)
    ensures FromLe(Le(v, w)) == v
  {
    if w > 0 {
      assert v / 256 < Pow256(w - 1);
      LeThenFrom(v / 256, w - 1);
      assert Le(v, w)[1..] == Le(v / 256, w - 1);
    }
  }

  lemma {:induction false} FromThenLe(b: bytes)
    ensures FromLe(b) < Pow256(|b|)
    ensures Le(FromLe(b), |b|) == b
  {
    if |b| > 0 {
      FromThenLe(b[1..]);
      assert FromLe(b) / 256 == FromLe(b[1..]);
    }
  }

  function TakeLe(b: bytes, w: nat): Option<(nat, bytes)> {
    if |b| < w then None else Some((FromLe(b[..w]), b[w..]))
  }

  lemma TakeLeFaithful(v: nat, w: nat, b: bytes, rest: bytes)
    requires v < Pow256(w)
    ensures TakeLe(Le(v, w) + rest, w) == Some((v, rest))
    ensures TakeLe(b, w).Some? ==>
              TakeLe(b, w).value.0 < Pow256(w) && b == Le(TakeLe(b, w).value.0, w) + TakeLe(b, w).value.1
  {
    var e := Le(v, w) + rest;
    assert e[..w] == Le(v, w) && e[w..] == rest;
    LeThenFrom(v, w);
    if |b| >= w {
      FromThenLe(b[..w]);
    }
  }

  lemma Widths()
    ensures Pow256(1) == 0x100 && Pow256(2) == 0x1_0000 && Pow256(4) == 0x1_0000_0000
    ensures Pow256(8) == 0x1_0000_0000_0000_0000
  {
    assert Pow256(0) == 1 && Pow256(1) == 0x100 && Pow256(2) == 0x1_0000;
    assert Pow256(3) == 0x100_0000 && Pow256(4) == 0x1_0000_0000;
    assert Pow256(5) == 0x100_0000_0000 && Pow256(6) == 0x1_0000_0000_0000;
  }

  function DecU8(b: bytes): Option<(u8, bytes)> {
    if |b| == 0 then None else Some((b[0], b[1..]))
  }

  function DecU16(b: bytes): Option<(u16, bytes)> {
    match TakeLe(b, 2)
    case None => None
    case Some((v, rest)) => if v < 0x1_0000 then Some((v, rest)) else None
  }

  function DecU32(b: bytes): Option<(u32, bytes)> {
    match TakeLe(b, 4)
    case None => None
    case Some((v, rest)) => if v < 0x1_0000_0000 then Some((v, rest)) else None
  }

  function DecU64(b: bytes): Option<(u64, bytes)> {
    match TakeLe(b, 8)
    case None => None
    case Some((v, rest)) => if v < 0x1_0000_0000_0000_0000 then Some((v, rest)) else None
  }

  function U8(): Codec<u8> { Codec((v: u8) => [v], b => DecU8(b)) }

  function U16(): Codec<u16> { Codec((v: u16) => Le(v, 2), b => DecU16(b)) }

  function U32(): Codec<u32> { Codec((v: u32) => Le(v, 4), b => DecU32(b)) }

  function U64(): Codec<u64> { Codec((v: u64) => Le(v, 8), b => DecU64(b)) }

  lemma U8Faithful()
    ensures Faithful(U8())
  {
    forall v: u8, rest: bytes ensures U8().dec(U8().enc(v) + rest) == Some((v, rest)) {
      assert ([v] + rest)[1..] == rest;
    }
  }

  lemma U16Faithful()
    ensures Faithful(U16())
  {
    Widths();
    forall v: u16, rest: bytes ensures U16().dec(U16().enc(v) + rest) == Some((v, rest)) {
      TakeLeFaithful(v, 2, [], rest);
    }
    forall b: bytes ensures U16().dec(b).Some? ==> b == U16().enc(U16().dec(b).value.0) + U16().dec(b).value.1 {
      TakeLeFaithful(0, 2, b, []);
    }
  }

  lemma U32Faithful()
    ensures Faithful(U32())
  {
    Widths();
    forall v: u32, rest: bytes ensures U32().dec(U32().enc(v) + rest) == Some((v, rest)) {
      TakeLeFaithful(v, 4, [], rest);
    }
    forall b: bytes ensures U32().dec(b).Some? ==> b == U32().enc(U32().dec(b).value.0) + U32().dec(b).value.1 {
      TakeLeFaithful(0, 4, b, []);
    }
  }

  lemma U64Faithful()
    ensures Faithful(U64())
  {
    Widths();
    forall v: u64, rest: bytes ensures U64().dec(U64().enc(v) + rest) == Some((v, rest)) {
      TakeLeFaithful(v, 8, [], rest);
    }
    forall b: bytes ensures U64().dec(b).Some? ==> b == U64().enc(U64().dec(b).value.0) + U64().dec(b).value.1 {
      TakeLeFaithful(0, 8, b, []);
    }
  }

  // --- Compact lengths ---

  function EncCompact(n: u32): bytes {
    if n < 0x40 then [4 * n]
    else if n < 0x4000 then Le(4 * n + 1, 2)
    else if n < 0x4000_0000 then Le(4 * n + 2, 4)
    else [3] + Le(n, 4)
  }

  /** The four modes; each refuses a number that a shorter mode could have held. */
  function DecCompact(b: bytes): Option<(u32, bytes)> {
    if |b| == 0 then None
    else if b[0] % 4 == 0 then Some((b[0] / 4, b[1..]))
    else if b[0] % 4 == 1 then
      match TakeLe(b, 2)
      case None => None
      case Some((v, rest)) => if 0x40 <= v / 4 < 0x4000 then Some((v / 4, rest)) else None
    else if b[0] % 4 == 2 then
      match TakeLe(b, 4)
      case None => None
      case Some((v, rest)) => if 0x4000 <= v / 4 < 0x4000_0000 then Some((v / 4, rest)) else None
    else if b[0] != 3 then None
    else
      match TakeLe(b[1..], 4)
      case None => None
      case Some((v, rest)) => if 0x4000_0000 <= v < 0x1_0000_0000 then Some((v, rest)) else None
  }

  function Compact(): Codec<u32> { Codec((n: u32) => EncCompact(n), b => DecCompact(b)) }

  lemma FirstByte(v: nat, w: nat, rest: bytes)
    requires w > 0
    ensures (Le(v, w) + rest)[0] == v % 256
  {
  }

  lemma CompactShort(n: u32, rest: bytes)
    requires n < 0x4000
    ensures DecCompact(EncCompact(n) + rest) == Some((n, rest))
  {
    Widths();
    var e := EncCompact(n) + rest;
    if n < 0x40 {
      assert e[1..] == rest;
    } else {
      FirstByte(4 * n + 1, 2, rest);
      assert (4 * n + 1) % 256 % 4 == 1;
      TakeLeFaithful(4 * n + 1, 2, [], rest);
    }
  }

  lemma CompactLong(n: u32, rest: bytes)
    requires 0x4000 <= n < 0x4000_0000
    ensures DecCompact(EncCompact(n) + rest) == Some((n, rest))
  {
    Widths();
    FirstByte(4 * n + 2, 4, rest);
    assert (4 * n + 2) % 256 % 4 == 2;
    TakeLeFaithful(4 * n + 2, 4, [], rest);
  }

  lemma CompactWide(n: u32, rest: bytes)
    requires 0x4000_0000 <= n
    ensures DecCompact(EncCompact(n) + rest) == Some((n, rest))
  {
    Widths();
    var e := EncCompact(n) + rest;
    assert e[1..] == Le(n, 4) + rest;
    TakeLeFaithful(n, 4, [], rest);
  }

  lemma CompactRoundTrip(n: u32, rest: bytes)
    ensures DecCompact(EncCompact(n) + rest) == Some((n, rest))
  {
    if n < 0x4000 {
      CompactShort(n, rest);
    } else if n < 0x4000_0000 {
      CompactLong(n, rest);
    } else {
      CompactWide(n, rest);
    }
  }

  lemma CanonicalTwo(b: bytes)
    requires |b| > 0 && b[0] % 4 == 1 && DecCompact(b).Some?
    ensures b == EncCompact(DecCompact(b).value.0) + DecCompact(b).value.1
  {
    Widths();
    TakeLeFaithful(0, 2, b, []);
    assert FromLe(b[..2]) % 4 == b[0] % 4;
  }

  lemma CanonicalFour(b: bytes)
    requires |b| > 0 && b[0] % 4 == 2 && DecCompact(b).Some?
    ensures b == EncCompact(DecCompact(b).value.0) + DecCompact(b).value.1
  {
    Widths();
    TakeLeFaithful(0, 4, b, []);
    assert FromLe(b[..4]) % 4 == b[0] % 4;
  }

  lemma CanonicalWide(b: bytes)
    requires |b| > 0 && b[0] % 4 == 3 && DecCompact(b).Some?
    ensures b == EncCompact(DecCompact(b).value.0) + DecCompact(b).value.1
  {
    Widths();
    TakeLeFaithful(0, 4, b[1..], []);
    assert b == [3] + b[1..];
  }

  lemma CompactCanonical(b: bytes)
    ensures DecCompact(b).Some? ==> b == EncCompact(DecCompact(b).value.0) + DecCompact(b).value.1
  {
    if DecCompact(b).Some? && b[0] % 4 != 0 {
      hide DecCompact, EncCompact;
      if b[0] % 4 == 1 {
        CanonicalTwo(b);
      } else if b[0] % 4 == 2 {
        CanonicalFour(b);
      } else {
        CanonicalWide(b);
      }
    }
  }

  lemma CompactFaithful()
    ensures Faithful(Compact())
  {
    forall n: u32, rest: bytes { CompactRoundTrip(n, rest); }
    forall b: bytes { CompactCanonical(b); }
  }

  // --- Combinators ---

  function DecPair<A, B>(a: Codec<A>, b: Codec<B>, s: bytes): Option<((A, B), bytes)> {
    match a.dec(s)
    case None => None
    case Some((x, rest)) =>
      match b.dec(rest)
      case None => None
      case Some((y, rest')) => Some(((x, y), rest'))
  }

  function Pair<A, B>(a: Codec<A>, b: Codec<B>): Codec<(A, B)> {
    Codec((v: (A, B)) => a.enc(v.0) + b.enc(v.1), s => DecPair(a, b, s))
  }

  lemma PairFaithful<A(!new), B(!new)>(a: Codec<A>, b: Codec<B>)
    requires Faithful(a) && Faithful(b)
    ensures Faithful(Pair(a, b))
  {
    var p := Pair(a, b);
    forall v: (A, B), rest: bytes ensures p.dec(p.enc(v) + rest) == Some((v, rest)) {
      assert p.enc(v) + rest == a.enc(v.0) + (b.enc(v.1) + rest);
    }
    forall s: bytes ensures p.dec(s).Some? ==> s == p.enc(p.dec(s).value.0) + p.dec(s).value.1 {
      if p.dec(s).Some? {
        var (x, rest) := a.dec(s).value;
        var (y, rest') := b.dec(rest).value;
        assert s == a.enc(x) + rest && rest == b.enc(y) + rest';
        assert a.enc(x) + (b.enc(y) + rest') == (a.enc(x) + b.enc(y)) + rest';
      }
    }
  }

  function DecIso<A, B>(a: Codec<A>, to: A -> B, s: bytes): Option<(B, bytes)> {
    match a.dec(s)
    case None => None
    case Some((x, rest)) => Some((to(x), rest))
  }

  /** The same bytes, read as another type with the same values. */
  function Iso<A, B>(a: Codec<A>, to: A -> B, from: B -> A): Codec<B> {
    Codec((v: B) => a.enc(from(v)), s => DecIso(a, to, s))
  }

  lemma IsoFaithful<A(!new), B(!new)>(a: Codec<A>, to: A -> B, from: B -> A)
    requires Faithful(a)
    requires forall x: A :: from(to(x)) == x
    requires forall y: B :: to(from(y)) == y
    ensures Faithful(Iso(a, to, from))
  {
  }

  function DecOption<A>(a: Codec<A>, s: bytes): Option<(Option<A>, bytes)> {
    if |s| == 0 then None
    else if s[0] == 0 then Some((None, s[1..]))
    else if s[0] == 1 then
      match a.dec(s[1..])
      case None => None
      case Some((x, rest)) => Some((Some(x), rest))
    else None
  }

  function EncOption<A>(a: Codec<A>, v: Option<A>): bytes {
    match v
    case None => [0]
    case Some(x) => [1] + a.enc(x)
  }

  function Opt<A>(a: Codec<A>): Codec<Option<A>> {
    Codec((v: Option<A>) => EncOption(a, v), s => DecOption(a, s))
  }

  lemma OptFaithful<A(!new)>(a: Codec<A>)
    requires Faithful(a)
    ensures Faithful(Opt(a))
  {
    var p := Opt(a);
    forall v: Option<A>, rest: bytes ensures p.dec(p.enc(v) + rest) == Some((v, rest)) {
      var s := p.enc(v) + rest;
      match v {
        case None => assert s[1..] == rest;
        case Some(x) => assert s[1..] == a.enc(x) + rest;
      }
    }
    forall s: bytes ensures p.dec(s).Some? ==> s == p.enc(p.dec(s).value.0) + p.dec(s).value.1 {
      if p.dec(s).Some? {
        assert s == [s[0]] + s[1..];
        if s[0] == 1 {
          var (x, rest) := a.dec(s[1..]).value;
          assert [1] + (a.enc(x) + rest) == ([1] + a.enc(x)) + rest;
        }
      }
    }
  }

  function DecEnum<A>(variants: seq<A>, s: bytes): Option<(A, bytes)> {
    if |s| == 0 || s[0] >= |variants| then None else Some((variants[s[0]], s[1..]))
  }

  /** An enumeration without payload: one byte, the variant's position. */
  function Enum<A>(variants: seq<A>, index: A -> u8): Codec<A> {
    Codec((v: A) => [index(v)], s => DecEnum(variants, s))
  }

  lemma EnumFaithful<A(!new)>(variants: seq<A>, index: A -> u8)
    requires forall v: A :: index(v) < |variants| && variants[index(v)] == v
    requires forall i: u8 | i < |variants| :: index(variants[i]) == i
    ensures Faithful(Enum(variants, index))
  {
    var p := Enum(variants, index);
    forall v: A, rest: bytes ensures p.dec(p.enc(v) + rest) == Some((v, rest)) {
      assert (p.enc(v) + rest)[1..] == rest;
    }
    forall s: bytes ensures p.dec(s).Some? ==> s == p.enc(p.dec(s).value.0) + p.dec(s).value.1 {
      if p.dec(s).Some? {
        assert s == [s[0]] + s[1..];
      }
    }
  }

  // --- Sequences ---

  function EncItems<A>(a: Codec<A>, v: seq<A>): bytes {
    if |v| == 0 then [] else a.enc(v[0]) + EncItems(a, v[1..])
  }

  function DecItems<A>(a: Codec<A>, n: nat, s: bytes): (r: Option<(seq<A>, bytes)>)
    ensures r.Some? ==> |r.value.0| == n
  {
    if n == 0 then Some(([], s))
    else
      match a.dec(s)
      case None => None
      case Some((x, rest)) =>
        match DecItems(a, n - 1, rest)
        case None => None
        case Some((xs, rest')) => Some(([x] + xs, rest'))
  }

  lemma {:induction false} ItemsRoundTrip<A(!new)>(a: Codec<A>, v: seq<A>, rest: bytes)
    requires Faithful(a)
    ensures DecItems(a, |v|, EncItems(a, v) + rest) == Some((v, rest))
  {
    if |v| == 0 {
      assert EncItems(a, v) + rest == rest;
    } else {
      ItemsRoundTrip(a, v[1..], rest);
      assert EncItems(a, v) + rest == a.enc(v[0]) + (EncItems(a, v[1..]) + rest);
      assert [v[0]] + v[1..] == v;
    }
  }

  lemma {:induction false} ItemsCanonical<A(!new)>(a: Codec<A>, n: nat, s: bytes)
    requires Faithful(a)
    ensures DecItems(a, n, s).Some? ==> s == EncItems(a, DecItems(a, n, s).value.0) + DecItems(a, n, s).value.1
  {
    if n > 0 && DecItems(a, n, s).Some? {
      var (x, rest) := a.dec(s).value;
      ItemsCanonical(a, n - 1, rest);
      var (xs, rest') := DecItems(a, n - 1, rest).value;
      assert ([x] + xs)[1..] == xs;
      assert a.enc(x) + (EncItems(a, xs) + rest') == (a.enc(x) + EncItems(a, xs)) + rest';
    }
  }

  function EncVec<A>(a: Codec<A>, v: Vec<A>): bytes {
    EncCompact(|v|) + EncItems(a, v)
  }

  function DecVec<A>(a: Codec<A>, s: bytes): Option<(Vec<A>, bytes)> {
    match DecCompact(s)
    case None => None
    case Some((n, rest)) => DecItems(a, n, rest)
  }

  function Sequence<A>(a: Codec<A>): Codec<Vec<A>> {
    Codec((v: Vec<A>) => EncVec(a, v), s => DecVec(a, s))
  }

  lemma Associative(x: bytes, y: bytes, z: bytes)
    ensures x + (y + z) == (x + y) + z
  {
  }

  lemma VecRoundTrip<A(!new)>(a: Codec<A>, v: Vec<A>, rest: bytes)
    requires Faithful(a)
    ensures DecVec(a, EncVec(a, v) + rest) == Some((v, rest))
  {
    var items := EncItems(a, v);
    assert EncVec(a, v) + rest == EncCompact(|v|) + (items + rest);
    CompactRoundTrip(|v|, items + rest);
    ItemsRoundTrip(a, v, rest);
  }

  lemma VecCanonical<A(!new)>(a: Codec<A>, s: bytes)
    requires Faithful(a)
    ensures DecVec(a, s).Some? ==> s == EncVec(a, DecVec(a, s).value.0) + DecVec(a, s).value.1
  {
    if DecVec(a, s).Some? {
      CompactCanonical(s);
      var (n, rest) := DecCompact(s).value;
      ItemsCanonical(a, n, rest);
      var (xs, rest') := DecItems(a, n, rest).value;
      Associative(EncCompact(n), EncItems(a, xs), rest');
    }
  }

  lemma SequenceFaithful<A(!new)>(a: Codec<A>)
    requires Faithful(a)
    ensures Faithful(Sequence(a))
  {
    forall v: Vec<A>, rest: bytes ensures Sequence(a).dec(Sequence(a).enc(v) + rest) == Some((v, rest)) {
      VecRoundTrip(a, v, rest);
    }
    forall s: bytes
      ensures Sequence(a).dec(s).Some? ==> s == Sequence(a).enc(Sequence(a).dec(s).value.0) + Sequence(a).dec(s).value.1
    {
      VecCanonical(a, s);
    }
  }

  function DecText(s: bytes): Option<(Text, bytes)> {
    match DecVec(U8(), s)
    case None => None
    case Some((b, rest)) => if ValidUtf8(b) then Some((b, rest)) else None
  }

  /** A string is its bytes as a sequence; bytes that are not UTF-8 do not decode. */
  function Str(): Codec<Text> {
    Codec((t: Text) => EncVec(U8(), t), s => DecText(s))
  }

  lemma StrFaithful()
    ensures Faithful(Str())
  {
    U8Faithful();
    SequenceFaithful(U8());
    var q := Sequence(U8());
    forall t: Text, rest: bytes ensures Str().dec(Str().enc(t) + rest) == Some((t, rest)) {
      assert q.dec(q.enc(t) + rest) == Some((t, rest));
    }
    forall s: bytes ensures Str().dec(s).Some? ==> s == Str().enc(Str().dec(s).value.0) + Str().dec(s).value.1 {
      assert q.dec(s).Some? ==> s == q.enc(q.dec(s).value.0) + q.dec(s).value.1;
    }
  }

  /** A stored key is longer than the text it encodes, so no text is its own key. */
  lemma {:induction false} ItemsOfBytes(t: bytes)
    ensures EncItems(U8(), t) == t
  {
    if |t| > 0 {
      ItemsOfBytes(t[1..]);
    }
  }

  lemma KeyIsLonger(t: Text)
    ensures Str().enc(t) == EncCompact(|t|) + t
    ensures |Str().enc(t)| > |t|
  {
    ItemsOfBytes(t);
  }
}
