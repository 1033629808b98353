/** Username allocation for accounts created through OAuth (internal/auth/usecase/oauth.go:206-242). */
module Usernames {
  import opened Wrappers
  import opened Utf8

  const MAX_BASE := 32
  const ATTEMPTS := 10

  /** unicode.IsLetter, unicode.IsDigit and unicode.IsSpace are tables outside this model. */
  datatype Tables = Tables(letterOrDigit: int -> bool, space: int -> bool) {
    /** What Unicode says of them: the replacement character is no letter, and no space is kept. */
    ghost predicate Sound() {
      && !letterOrDigit(RUNE_ERROR)
      && (forall r :: space(r) ==> !letterOrDigit(r) && r != '_' as int)
    }

    predicate Keeps(r: int) { letterOrDigit(r) || r == '_' as int }
  }

  // ---------------------------------------------------------------- sanitizing

  function TrimLeft(t: Tables, rs: Runes): Runes {
    if rs != [] && t.space(rs[0]) then TrimLeft(t, rs[1..]) else rs
  }

  function TrimRight(t: Tables, rs: Runes): Runes {
    if rs != [] && t.space(rs[|rs| - 1]) then TrimRight(t, rs[..|rs| - 1]) else rs
  }

  function Filter(t: Tables, rs: Runes): (kept: Runes)
    ensures forall r :: r in kept ==> r in rs && t.Keeps(r)
  {
    if rs == [] then []
    else if t.Keeps(rs[0]) then [rs[0]] + Filter(t, rs[1..]) else Filter(t, rs[1..])
  }

  function Cut(bs: Bytes): Bytes {
    if |bs| > MAX_BASE then bs[..MAX_BASE] else bs
  }

  /** The runes that survive, before the cut. */
  function Kept(t: Tables, input: Bytes): (rs: Runes)
    ensures AllRunes(rs)
  {
    var decoded := Decode(input);
    TrimmedAreRunes(t, decoded);
    Filter(t, TrimRight(t, TrimLeft(t, decoded)))
  }

  lemma {:induction false} TrimLeftRunes(t: Tables, rs: Runes)
    ensures forall r :: r in TrimLeft(t, rs) ==> r in rs
  {
    if rs != [] && t.space(rs[0]) { TrimLeftRunes(t, rs[1..]); }
  }

  lemma {:induction false} TrimRightRunes(t: Tables, rs: Runes)
    ensures forall r :: r in TrimRight(t, rs) ==> r in rs
    decreases |rs|
  {
    if rs != [] && t.space(rs[|rs| - 1]) { TrimRightRunes(t, rs[..|rs| - 1]); }
  }

  lemma TrimmedAreRunes(t: Tables, rs: Runes)
    requires AllRunes(rs)
    ensures AllRunes(TrimRight(t, TrimLeft(t, rs)))
  {
    TrimLeftRunes(t, rs);
    TrimRightRunes(t, TrimLeft(t, rs));
  }

  function Sanitize(t: Tables, input: Bytes): Bytes {
    Cut(Encode(Kept(t, input)))
  }

  /** sanitizeUsername: trim, keep letters, digits and underscores, and cut the bytes at 32. */
  method SanitizeUsername(t: Tables, input: Bytes) returns (out: Bytes)
    ensures out == Sanitize(t, input)
    ensures |out| <= MAX_BASE && out <= Encode(Kept(t, input))
  {
    var runes := TrimRight(t, TrimLeft(t, Decode(input)));
    TrimmedAreRunes(t, Decode(input));
    out := [];
    for i := 0 to |runes|
      invariant out + Encode(Filter(t, runes[i..])) == Encode(Kept(t, input))
    {
      assert runes[i..][0] == runes[i] && runes[i..][1..] == runes[i + 1..];
      if t.Keeps(runes[i]) {
        out := out + EncodeRune(runes[i]);
      }
    }
    if |out| > MAX_BASE {
      out := out[..MAX_BASE];
    }
  }

  lemma {:induction false} FilterKeepsAll(t: Tables, rs: Runes)
    requires forall r :: r in rs ==> t.Keeps(r)
    ensures Filter(t, rs) == rs
  {
    if rs != [] { FilterKeepsAll(t, rs[1..]); }
  }

  lemma {:induction false} FilterConcat(t: Tables, a: Runes, b: Runes)
    ensures Filter(t, a + b) == Filter(t, a) + Filter(t, b)
  {
    if a == [] {
      assert a + b == b;
    } else {
      assert (a + b)[1..] == a[1..] + b;
      FilterConcat(t, a[1..], b);
    }
  }

  lemma {:induction false} FilterDropsAll(t: Tables, rs: Runes)
    requires forall r :: r in rs ==> !t.Keeps(r)
    ensures Filter(t, rs) == []
  {
    if rs != [] { FilterDropsAll(t, rs[1..]); }
  }

  /** Trimming removes nothing the filter would keep. */
  lemma {:induction false} FilterAfterTrimLeft(t: Tables, rs: Runes)
    requires t.Sound()
    ensures Filter(t, TrimLeft(t, rs)) == Filter(t, rs)
  {
    if rs != [] && t.space(rs[0]) { FilterAfterTrimLeft(t, rs[1..]); }
  }

  lemma {:induction false} FilterAfterTrimRight(t: Tables, rs: Runes)
    requires t.Sound()
    ensures Filter(t, TrimRight(t, rs)) == Filter(t, rs)
    decreases |rs|
  {
    if rs != [] && t.space(rs[|rs| - 1]) {
      FilterAfterTrimRight(t, rs[..|rs| - 1]);
      assert rs == rs[..|rs| - 1] + [rs[|rs| - 1]];
      FilterConcat(t, rs[..|rs| - 1], [rs[|rs| - 1]]);
    }
  }

  lemma KeptFromDecoded(t: Tables, input: Bytes, decoded: Runes)
    requires t.Sound() && Decode(input) == decoded
    ensures Kept(t, input) == Filter(t, decoded)
  {
    FilterAfterTrimLeft(t, decoded);
    FilterAfterTrimRight(t, TrimLeft(t, decoded));
  }

  /** How many whole runes fit into the first `n` bytes. */
  function WholeRunes(rs: Runes, n: nat): (k: nat)
    requires AllRunes(rs)
    ensures k <= |rs|
  {
    if rs == [] || |EncodeRune(rs[0])| > n then 0
    else 1 + WholeRunes(rs[1..], n - |EncodeRune(rs[0])|)
  }

  /** The first `n` bytes are the whole runes that fit, then a piece of the next one. */
  lemma {:induction false} PrefixOfEncoding(rs: Runes, n: nat) returns (piece: Bytes)
    requires AllRunes(rs) && n <= |Encode(rs)|
    ensures EndsWithPiece(rs, n, WholeRunes(rs, n), piece)
    decreases |rs|
  {
    if rs == [] {
      piece := [];
    } else if |EncodeRune(rs[0])| > n {
      piece := EncodeRune(rs[0])[..n];
      NoRuneFits(rs, n);
    } else {
      var w := |EncodeRune(rs[0])|;
      piece := PrefixOfEncoding(rs[1..], n - w);
      OneRuneMore(rs, n, WholeRunes(rs[1..], n - w), piece);
    }
  }

  ghost predicate EndsWithPiece(rs: Runes, n: nat, k: nat, piece: Bytes)
    requires AllRunes(rs)
  {
    && k <= |rs| && n <= |Encode(rs)|
    && Encode(rs)[..n] == Encode(rs[..k]) + piece
    && (piece != [] ==> k < |rs| && |piece| < |EncodeRune(rs[k])| && piece == EncodeRune(rs[k])[..|piece|])
  }

  lemma NoRuneFits(rs: Runes, n: nat)
    requires AllRunes(rs) && rs != [] && |EncodeRune(rs[0])| > n
    ensures EndsWithPiece(rs, n, 0, EncodeRune(rs[0])[..n])
  {
    assert Encode(rs) == EncodeRune(rs[0]) + Encode(rs[1..]);
  }

  lemma OneRuneMore(rs: Runes, n: nat, k: nat, piece: Bytes)
    requires AllRunes(rs) && rs != [] && |EncodeRune(rs[0])| <= n
    requires EndsWithPiece(rs[1..], n - |EncodeRune(rs[0])|, k, piece)
    ensures EndsWithPiece(rs, n, k + 1, piece)
  {
    var first, rest := EncodeRune(rs[0]), Encode(rs[1..]);
    TakeBeyond(first, rest, n);
    EncodeTaken(rs, k);
    assert first + (Encode(rs[1..][..k]) + piece) == (first + Encode(rs[1..][..k])) + piece;
    assert k < |rs| - 1 ==> rs[1..][k] == rs[k + 1];
  }

  lemma EncodeTaken(rs: Runes, k: nat)
    requires AllRunes(rs) && k < |rs|
    ensures Encode(rs[..k + 1]) == EncodeRune(rs[0]) + Encode(rs[1..][..k])
  {
    assert rs[..k + 1][1..] == rs[1..][..k];
  }

  lemma TakeBeyond(a: seq<int>, b: seq<int>, n: nat)
    requires |a| <= n <= |a| + |b|
    ensures (a + b)[..n] == a + b[..n - |a|]
  {}

  /** The first byte that is cut away starts a rune, rather than continuing one. */
  ghost predicate CutsCleanly(t: Tables, input: Bytes) {
    var bytes := Encode(Kept(t, input));
    |bytes| > MAX_BASE ==> !Cont(bytes[MAX_BASE])
  }

  lemma {:induction false} EncodeConcat(a: Runes, b: Runes)
    requires AllRunes(a) && AllRunes(b)
    ensures AllRunes(a + b) && Encode(a + b) == Encode(a) + Encode(b)
    decreases |a|
  {
    if a == [] {
      assert a + b == b;
    } else {
      EncodeConcat(a[1..], b);
      assert (a + b)[1..] == a[1..] + b;
    }
  }

  /** Only the first byte of a rune is no continuation. */
  lemma LeadingByte(r: int, i: nat)
    requires IsRune(r) && i < |EncodeRune(r)|
    ensures Cont(EncodeRune(r)[i]) <==> i > 0
  {}

  /** One byte tells whether a cut splits a rune. */
  lemma CutByteTells(rs: Runes, n: nat)
    requires AllRunes(rs) && n < |Encode(rs)|
    ensures Encode(rs)[..n] == Encode(rs[..WholeRunes(rs, n)]) <==> !Cont(Encode(rs)[n])
  {
    var k := WholeRunes(rs, n);
    var piece := PrefixOfEncoding(rs, n);
    var whole, left := rs[..k], rs[k..];
    assert rs == whole + left;
    EncodeConcat(whole, left);
    assert |Encode(whole)| + |piece| == n && Encode(rs)[n] == Encode(left)[|piece|];
    assert left != [] && Encode(left)[|piece|] == EncodeRune(left[0])[|piece|];
    LeadingByte(left[0], |piece|);
  }

  /** Sanitizing again drops the piece of a rune the cut left behind, and nothing else. */
  lemma SanitizeTwice(t: Tables, input: Bytes)
    requires t.Sound()
    ensures var rs := Kept(t, input);
            Sanitize(t, Sanitize(t, input)) ==
              if |Encode(rs)| <= MAX_BASE then Encode(rs) else Encode(rs[..WholeRunes(rs, MAX_BASE)])
  {
    var rs := Kept(t, input);
    if |Encode(rs)| <= MAX_BASE {
      KeptOfEncoding(t, rs);
    } else {
      KeptOfCut(t, rs);
    }
  }

  /** A cut encoding is read as its whole runes; the piece at the end is all errors. */
  lemma KeptOfCut(t: Tables, rs: Runes)
    requires t.Sound() && AllRunes(rs) && (forall r :: r in rs ==> t.Keeps(r)) && |Encode(rs)| > MAX_BASE
    ensures var whole := rs[..WholeRunes(rs, MAX_BASE)];
            Kept(t, Encode(rs)[..MAX_BASE]) == whole && |Encode(whole)| <= MAX_BASE
  {
    var whole := rs[..WholeRunes(rs, MAX_BASE)];
    var piece := PrefixOfEncoding(rs, MAX_BASE);
    DecodeEncode(whole, piece);
    var rest := Decode(piece);
    if piece != [] { CutRuneIsErrors(rs[|whole|], |piece|); }
    FilterDropsAll(t, rest);
    FilterKeepsAll(t, whole);
    FilterConcat(t, whole, rest);
    KeptFromDecoded(t, Encode(rs)[..MAX_BASE], whole + rest);
  }

  /** Sanitizing is idempotent exactly when the byte after the cut starts a rune. */
  lemma IdempotentExactly(t: Tables, input: Bytes)
    requires t.Sound()
    ensures Sanitize(t, Sanitize(t, input)) == Sanitize(t, input) <==> CutsCleanly(t, input)
  {
    var rs := Kept(t, input);
    SanitizeTwice(t, input);
    if |Encode(rs)| > MAX_BASE {
      CutByteTells(rs, MAX_BASE);
    }
  }

  ghost predicate Ascii(rs: Runes) { forall i :: 0 <= i < |rs| ==> 0 <= rs[i] < 0x80 }

  lemma {:induction false} AsciiEncoding(rs: Runes)
    requires Ascii(rs)
    ensures AllRunes(rs) && Encode(rs) == rs
    decreases |rs|
  {
    if rs != [] {
      AsciiEncoding(rs[1..]);
    }
  }

  /** In particular on ASCII. */
  lemma IdempotentOnAscii(t: Tables, input: Bytes)
    requires t.Sound() && Ascii(Kept(t, input))
    ensures Sanitize(t, Sanitize(t, input)) == Sanitize(t, input)
  {
    var rs := Kept(t, input);
    AsciiEncoding(rs);
    IdempotentExactly(t, input);
  }

  function Copies(r: int, n: nat): (rs: Runes)
    ensures |rs| == n && forall x :: x in rs ==> x == r
  {
    if n == 0 then [] else [r] + Copies(r, n - 1)
  }

  lemma {:induction false} TwoByteRunes(r: int, n: nat, m: nat)
    requires 0x80 <= r < 0x800
    ensures AllRunes(Copies(r, n)) && |Encode(Copies(r, n))| == 2 * n
    ensures WholeRunes(Copies(r, n), m) == if m / 2 < n then m / 2 else n
    decreases n
  {
    if n > 0 { TwoByteRunes(r, n - 1, if m < 2 then 0 else m - 2); }
  }

  /** It does not always hold: a Latin letter and sixteen two-byte letters, 33 bytes in all, lose half
      of the last letter, and what is left is not even UTF-8. */
  lemma CutCanSplitRune(t: Tables, latin: int, other: int) returns (input: Bytes)
    requires t.Sound() && 0 <= latin < 0x80 <= other < 0x800 && t.Keeps(latin) && t.Keeps(other)
    ensures !CutsCleanly(t, input)
    ensures |Sanitize(t, Sanitize(t, input))| < |Sanitize(t, input)|
  {
    var rs := [latin] + Copies(other, 16);
    MixedRunes(latin, other);
    input := Encode(rs);
    KeptOfEncoding(t, rs);
    SplitShrinks(t, input);
  }

  lemma KeptOfEncoding(t: Tables, rs: Runes)
    requires t.Sound() && AllRunes(rs) && forall r :: r in rs ==> t.Keeps(r)
    ensures Kept(t, Encode(rs)) == rs
  {
    DecodeWhole(rs);
    FilterKeepsAll(t, rs);
    KeptFromDecoded(t, Encode(rs), rs);
  }

  lemma SplitShrinks(t: Tables, input: Bytes)
    requires t.Sound()
    requires var rs := Kept(t, input);
             |Encode(rs)| > MAX_BASE && |Encode(rs[..WholeRunes(rs, MAX_BASE)])| < MAX_BASE
    ensures !CutsCleanly(t, input)
    ensures |Sanitize(t, Sanitize(t, input))| < |Sanitize(t, input)|
  {
    SanitizeTwice(t, input);
    IdempotentExactly(t, input);
  }

  lemma MixedRunes(latin: int, other: int)
    requires 0 <= latin < 0x80 <= other < 0x800
    ensures var rs := [latin] + Copies(other, 16);
            AllRunes(rs) && |Encode(rs)| == 33 && WholeRunes(rs, MAX_BASE) == 16 && |Encode(rs[..16])| == 31
  {
    var rs := [latin] + Copies(other, 16);
    TwoByteRunes(other, 16, 31);
    assert rs[1..] == Copies(other, 16);
    CopiesPrefix(other, 16, 15);
    TwoByteRunes(other, 15, 0);
    assert rs[..16][1..] == Copies(other, 15);
  }

  lemma {:induction false} CopiesPrefix(r: int, n: nat, k: nat)
    requires k <= n
    ensures Copies(r, n)[..k] == Copies(r, k)
    decreases k
  {
    if k > 0 { CopiesPrefix(r, n - 1, k - 1); }
  }

  // ---------------------------------------------------------------- picking a free name

  const DEFAULT_BASE: Bytes := ['u' as int, 's' as int, 'e' as int, 'r' as int]

  function Base(t: Tables, input: Bytes): (base: Bytes)
    ensures base != []
  {
    if Sanitize(t, input) == [] then DEFAULT_BASE else Sanitize(t, input)
  }

  function DecimalOf(i: nat): Bytes
    requires i <= 10
  {
    if i < 10 then ['0' as int + i] else ['1' as int, '0' as int]
  }

  /** base, base2, ..., base10. */
  function Candidate(base: Bytes, i: nat): Bytes
    requires 1 <= i <= ATTEMPTS
  {
    if i == 1 then base else base + DecimalOf(i)
  }

  lemma CandidatesDiffer(base: Bytes, i: nat, j: nat)
    requires 1 <= i < j <= ATTEMPTS
    ensures Candidate(base, i) != Candidate(base, j)
  {
    if i > 1 && j < 10 {
      assert Candidate(base, i)[|base|] != Candidate(base, j)[|base|];
    }
  }

  /** The least candidate nobody has. */
  function FirstFree(base: Bytes, taken: set<Bytes>, i: nat): (k: Option<nat>)
    requires 1 <= i <= ATTEMPTS + 1
    ensures k.Some? ==> i <= k.value <= ATTEMPTS && Candidate(base, k.value) !in taken
    ensures k.Some? ==> forall j :: i <= j < k.value ==> Candidate(base, j) in taken
    ensures k.None? ==> forall j :: i <= j <= ATTEMPTS ==> Candidate(base, j) in taken
    decreases ATTEMPTS + 1 - i
  {
    if i > ATTEMPTS then None
    else if Candidate(base, i) !in taken then Some(i)
    else FirstFree(base, taken, i + 1)
  }

  /** The name the allocation settles on when every lookup answers. */
  function Allocate(t: Tables, input: Bytes, taken: set<Bytes>, suffix: Bytes): Bytes {
    var base := Base(t, input);
    match FirstFree(base, taken, 1)
    case Some(k) => Candidate(base, k)
    case None => base + ['_' as int] + suffix
  }

  /** Somebody has every candidate before the `n`th. */
  ghost predicate AllTaken(base: Bytes, taken: set<Bytes>, n: nat)
    requires n <= ATTEMPTS + 1
  {
    forall i :: 1 <= i < n ==> Candidate(base, i) in taken
  }

  /** A search that finds the candidates before the `n`th taken goes on from there. */
  lemma {:induction false} SearchGoesOn(base: Bytes, taken: set<Bytes>, i: nat, n: nat)
    requires 1 <= i <= n <= ATTEMPTS + 1 && AllTaken(base, taken, n)
    ensures FirstFree(base, taken, i) == FirstFree(base, taken, n)
    decreases n - i
  {
    if i < n { SearchGoesOn(base, taken, i + 1, n); }
  }

  /** A numbered name is too short to be a suffixed one. */
  lemma NotSuffixed(base: Bytes, i: nat, suffix: Bytes)
    requires 1 <= i <= ATTEMPTS && |suffix| == 6
    ensures Candidate(base, i) != base + ['_' as int] + suffix
  {
    assert |Candidate(base, i)| <= |base| + 2;
  }

  /** generateUsername.  `failing` are the lookups (counted from one) that return an error of their own. */
  method GenerateUsername(t: Tables, input: Bytes, taken: set<Bytes>, suffix: Bytes, failing: set<nat>)
    returns (name: Option<Bytes>, lookups: nat)
    requires |suffix| == 6
    ensures lookups <= ATTEMPTS
    ensures name.Some? ==> name.value == Allocate(t, input, taken, suffix)
    ensures name.None? ==> lookups in failing
    ensures 1 in failing ==> name.None?
    ensures name.Some? ==> forall i :: 1 <= i <= lookups ==> i !in failing
    ensures AllTaken(Base(t, input), taken, lookups) && forall i :: 1 <= i < lookups ==> i !in failing
    ensures name.Some? && name.value == Base(t, input) + ['_' as int] + suffix ==>
              lookups == ATTEMPTS && AllTaken(Base(t, input), taken, ATTEMPTS + 1)
  {
    var cleaned := SanitizeUsername(t, input);
    if cleaned == [] {
      cleaned := DEFAULT_BASE;
    }
    lookups := 0;
    for i := 1 to ATTEMPTS + 1
      invariant lookups == i - 1
      invariant AllTaken(cleaned, taken, i) && forall j :: 1 <= j < i ==> j !in failing
    {
      var candidate := Candidate(cleaned, i);
      lookups := lookups + 1;
      if i in failing {
        return None, lookups;
      }
      if candidate !in taken {
        NotSuffixed(cleaned, i, suffix);
        SearchGoesOn(cleaned, taken, 1, i);
        return Some(candidate), lookups;
      }
    }
    SearchGoesOn(cleaned, taken, 1, ATTEMPTS + 1);
    return Some(cleaned + ['_' as int] + suffix), lookups;
  }
}
