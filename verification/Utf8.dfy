/** Go strings are bytes; ranging over one decodes UTF-8 and yields U+FFFD, one byte wide, for every
    byte that does not start a well-formed rune. */
module Utf8 {
  type Bytes = seq<int>
  type Runes = seq<int>

  const RUNE_ERROR := 0xFFFD

  predicate IsRune(r: int) { 0 <= r < 0xD800 || 0xE000 <= r <= 0x10FFFF }

  function EncodeRune(r: int): (bs: Bytes)
    requires IsRune(r)
    ensures 1 <= |bs| <= 4 && (|bs| == 1 <==> r < 0x80)
  {
    if r < 0x80 then [r]
    else if r < 0x800 then [0xC0 + r / 64, 0x80 + r % 64]
    else if r < 0x10000 then [0xE0 + r / 4096, 0x80 + r / 64 % 64, 0x80 + r % 64]
    else [0xF0 + r / 262144, 0x80 + r / 4096 % 64, 0x80 + r / 64 % 64, 0x80 + r % 64]
  }

  predicate AllRunes(rs: Runes) { forall r :: r in rs ==> IsRune(r) }

  function Encode(rs: Runes): Bytes
    requires AllRunes(rs)
  {
    if rs == [] then [] else EncodeRune(rs[0]) + Encode(rs[1..])
  }

  predicate Cont(b: int) { 0x80 <= b < 0xC0 }

  /** utf8.DecodeRuneInString: the rune and its width. */
  function DecodeRune(bs: Bytes): (r: (int, int))
    requires bs != []
    ensures IsRune(r.0) && 1 <= r.1 <= |bs|
  {
    var n, a := |bs|, bs[0];
    if 0 <= a < 0x80 then (a, 1)
    else if 0xC2 <= a < 0xE0 && n >= 2 && Cont(bs[1]) then ((a - 0xC0) * 64 + (bs[1] - 0x80), 2)
    else if 0xE0 <= a < 0xF0 && n >= 3 && Cont(bs[1]) && Cont(bs[2])
            && (a == 0xE0 ==> bs[1] >= 0xA0) && (a == 0xED ==> bs[1] < 0xA0)
    then ((a - 0xE0) * 4096 + (bs[1] - 0x80) * 64 + (bs[2] - 0x80), 3)
    else if 0xF0 <= a < 0xF5 && n >= 4 && Cont(bs[1]) && Cont(bs[2]) && Cont(bs[3])
            && (a == 0xF0 ==> bs[1] >= 0x90) && (a == 0xF4 ==> bs[1] < 0x90)
    then ((a - 0xF0) * 262144 + (bs[1] - 0x80) * 4096 + (bs[2] - 0x80) * 64 + (bs[3] - 0x80), 4)
    else (RUNE_ERROR, 1)
  }

  function Decode(bs: Bytes): (rs: Runes)
    ensures AllRunes(rs)
  {
    if bs == [] then [] else var (r, w) := DecodeRune(bs); [r] + Decode(bs[w..])
  }

  lemma Digits64(r: int)
    requires 0 <= r
    ensures r == r / 64 * 64 + r % 64
    ensures r / 64 == r / 4096 * 64 + r / 64 % 64
    ensures r / 4096 == r / 262144 * 64 + r / 4096 % 64
  {
    assert r / 4096 == r / 64 / 64;
    assert r / 262144 == r / 4096 / 64;
  }

  lemma DecodeRuneEncode(r: int, rest: Bytes)
    requires IsRune(r)
    ensures DecodeRune(EncodeRune(r) + rest) == (r, |EncodeRune(r)|)
  {
    Digits64(r);
  }

  lemma DecodeNext(r: int, rest: Bytes)
    requires IsRune(r)
    ensures Decode(EncodeRune(r) + rest) == [r] + Decode(rest)
  {
    DecodeRuneEncode(r, rest);
    assert (EncodeRune(r) + rest)[|EncodeRune(r)|..] == rest;
  }

  /** What was encoded is read back, whatever follows it. */
  lemma {:induction false} DecodeEncode(rs: Runes, rest: Bytes)
    requires AllRunes(rs)
    ensures Decode(Encode(rs) + rest) == rs + Decode(rest)
    decreases |rs|
  {
    if rs == [] {
      assert Encode(rs) + rest == rest;
    } else {
      EncodeFirst(rs, rest);
      DecodeNext(rs[0], Encode(rs[1..]) + rest);
      DecodeEncode(rs[1..], rest);
      Rejoin(rs, Decode(rest));
    }
  }

  lemma DecodeWhole(rs: Runes)
    requires AllRunes(rs)
    ensures Decode(Encode(rs)) == rs
  {
    DecodeEncode(rs, []);
    assert Encode(rs) + [] == Encode(rs);
  }

  lemma EncodeFirst(rs: Runes, rest: Bytes)
    requires AllRunes(rs) && rs != []
    ensures Encode(rs) + rest == EncodeRune(rs[0]) + (Encode(rs[1..]) + rest)
  {}

  lemma Rejoin(rs: Runes, more: Runes)
    requires rs != []
    ensures [rs[0]] + (rs[1..] + more) == rs + more
  {}

  /** The first bytes of a rune, cut before its end, decode to nothing but errors. */
  lemma CutRuneIsErrors(r: int, k: nat)
    requires IsRune(r) && 0 < k < |EncodeRune(r)|
    ensures forall x :: x in Decode(EncodeRune(r)[..k]) ==> x == RUNE_ERROR
  {
    var cut := EncodeRune(r)[..k];
    Digits64(r);
    assert Decode(cut) == [RUNE_ERROR] + Decode(cut[1..]);
    ContsAreErrors(cut[1..]);
  }

  lemma {:induction false} ContsAreErrors(bs: Bytes)
    requires forall b :: b in bs ==> Cont(b)
    ensures forall x :: x in Decode(bs) ==> x == RUNE_ERROR
    decreases |bs|
  {
    if bs != [] {
      assert Cont(bs[0]);
      ContsAreErrors(bs[1..]);
    }
  }
}
