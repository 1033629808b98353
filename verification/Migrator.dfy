/** The schema migrator (cmd/migrator/main.go): the order of the work, the main loop over a database,
    and any number of migrators that interleave and crash between database operations. */
module Migrator {
  import opened Wrappers

  datatype DirEntry = DirEntry(name: string, isDir: bool)
  datatype Migration = Migration(version: int, file: string)

  // ---------------------------------------------------------------- file names

  /** Go compares strings byte by byte. */
  predicate Less(a: string, b: string) {
    b != "" && (a == "" || a[0] < b[0] || (a[0] == b[0] && Less(a[1..], b[1..])))
  }

  predicate IsSql(e: DirEntry) {
    !e.isDir && |e.name| >= 4 && e.name[|e.name| - 4..] == ".sql"
  }

  /** The part before the first underscore, when there is one. */
  function VersionPart(name: string): Option<string> {
    if name == "" then None
    else if name[0] == '_' then Some("")
    else match VersionPart(name[1..])
         case None => None
         case Some(rest) => Some([name[0]] + rest)
  }

  predicate IsDigit(ch: char) { '0' <= ch <= '9' }

  /** The value of a string of digits. */
  function Decimal(digits: string): int {
    if digits == "" then 0
    else Decimal(digits[..|digits| - 1]) * 10 + (digits[|digits| - 1] as int - '0' as int)
  }

  /** strconv.Atoi: an optional sign, then decimal digits, within int64. */
  function Atoi(s: string): Option<int> {
    var signed := s != "" && (s[0] == '-' || s[0] == '+');
    var digits := if signed then s[1..] else s;
    if digits == "" || exists ch :: ch in digits && !IsDigit(ch) then None
    else
      var n := if signed && s[0] == '-' then -Decimal(digits) else Decimal(digits);
      if -0x8000_0000_0000_0000 <= n <= 0x7FFF_FFFF_FFFF_FFFF then Some(n) else None
  }

  function ParseVersion(name: string): Option<int> {
    match VersionPart(name)
    case None => None
    case Some(part) => Atoi(part)
  }

  lemma {:induction false} PrefixIsVersionPart(part: string, rest: string)
    requires '_' !in part
    ensures VersionPart(part + "_" + rest) == Some(part)
  {
    var name := part + "_" + rest;
    if part != "" {
      PrefixIsVersionPart(part[1..], rest);
      assert name[1..] == part[1..] + "_" + rest;
      assert part == [name[0]] + part[1..];
    }
  }

  /** A name without an underscore is refused. */
  lemma {:induction false} NoUnderscoreNoVersion(name: string)
    requires '_' !in name
    ensures VersionPart(name).None? && ParseVersion(name).None?
  {
    if name != "" {
      NoUnderscoreNoVersion(name[1..]);
    }
  }

  lemma {:induction false} DecimalPadded(digits: string)
    requires forall ch :: ch in digits ==> IsDigit(ch)
    ensures Decimal("0" + digits) == Decimal(digits) >= 0
    decreases |digits|
  {
    if digits == "" {
      assert "0"[..0] == "";
    } else {
      var padded := "0" + digits;
      DecimalPadded(digits[..|digits| - 1]);
      assert padded[..|padded| - 1] == "0" + digits[..|digits| - 1];
      assert padded[|padded| - 1] == digits[|digits| - 1];
      assert IsDigit(digits[|digits| - 1]);
    }
  }

  /** A name parses by its digits before the first underscore, and a leading zero makes no difference: the
      padded and the plain name are two files of one version. */
  lemma PaddingKeepsVersion(digits: string, rest: string, other: string)
    requires digits != "" && forall ch :: ch in digits ==> IsDigit(ch)
    ensures var v := if Decimal(digits) <= 0x7FFF_FFFF_FFFF_FFFF then Some(Decimal(digits)) else None;
            ParseVersion(digits + "_" + rest) == v && ParseVersion("0" + digits + "_" + other) == v
  {
    PrefixIsVersionPart(digits, rest);
    PrefixIsVersionPart("0" + digits, other);
    DecimalPadded(digits);
    assert IsDigit(digits[0]);
    assert forall ch :: ch in "0" + digits ==> IsDigit(ch);
  }

  // ---------------------------------------------------------------- the order of the work

  ghost predicate SortedByName(es: seq<DirEntry>) {
    forall i, j :: 0 <= i < j < |es| ==> Less(es[i].name, es[j].name)
  }

  ghost predicate DistinctNames(es: seq<DirEntry>) {
    forall i, j :: 0 <= i < j < |es| ==> es[i].name != es[j].name
  }

  /** The migrations a run reaches: .sql files in order, up to the first name that does not parse. */
  function Reached(es: seq<DirEntry>): seq<Migration> {
    if es == [] then []
    else if !IsSql(es[0]) then Reached(es[1..])
    else match ParseVersion(es[0].name)
         case None => []
         case Some(v) => [Migration(v, es[0].name)] + Reached(es[1..])
  }

  predicate AllParse(es: seq<DirEntry>) {
    forall e :: e in es && IsSql(e) ==> ParseVersion(e.name).Some?
  }

  function Versions(ms: seq<Migration>): set<int> {
    set m | m in ms :: m.version
  }

  /** The canonical schema history: of several files with one version only the first counts. */
  function Canonical(ms: seq<Migration>): seq<Migration> {
    if ms == [] then []
    else
      var earlier := Canonical(ms[..|ms| - 1]);
      var m := ms[|ms| - 1];
      if m.version in Versions(earlier) then earlier else earlier + [m]
  }

  ghost predicate DistinctVersions(ms: seq<Migration>) {
    forall i, j :: 0 <= i < j < |ms| ==> ms[i].version != ms[j].version
  }

  lemma VersionsSnoc(ms: seq<Migration>, m: Migration)
    ensures Versions(ms + [m]) == Versions(ms) + {m.version}
  {
    forall v | v in Versions(ms) + {m.version} ensures v in Versions(ms + [m]) {
      var k :| k in ms + [m] && k.version == v;
    }
  }

  lemma VersionsUpTo(ms: seq<Migration>, i: nat)
    requires i < |ms|
    ensures Versions(ms[..i + 1]) == Versions(ms[..i]) + {ms[i].version}
  {
    assert ms[..i + 1] == ms[..i] + [ms[i]];
    VersionsSnoc(ms[..i], ms[i]);
  }

  lemma DistinctSnoc(ms: seq<Migration>, m: Migration)
    requires DistinctVersions(ms) && m.version !in Versions(ms)
    ensures DistinctVersions(ms + [m])
  {
    forall i | 0 <= i < |ms| ensures ms[i].version != m.version {
      assert ms[i] in ms;
    }
  }

  /** In a list without repeated versions, what follows a prefix is not in the prefix. */
  lemma NotInPrefix(c: seq<Migration>, applied: seq<Migration>, j: nat)
    requires DistinctVersions(c) && applied <= c && |applied| <= j < |c|
    ensures c[j].version !in Versions(applied)
  {}

  lemma {:induction false} CanonicalFacts(ms: seq<Migration>)
    ensures Versions(Canonical(ms)) == Versions(ms)
    ensures DistinctVersions(Canonical(ms))
    decreases |ms|
  {
    if ms != [] {
      var init, m := ms[..|ms| - 1], ms[|ms| - 1];
      CanonicalFacts(init);
      assert ms == init + [m];
      VersionsSnoc(init, m);
      VersionsSnoc(Canonical(init), m);
      if m.version !in Versions(Canonical(init)) { DistinctSnoc(Canonical(init), m); }
    }
  }

  /** A file added after all others leaves the history so far a prefix of the new one. */
  lemma {:induction false} CanonicalGrows(ms: seq<Migration>, more: seq<Migration>)
    ensures Canonical(ms) <= Canonical(ms + more)
    decreases |more|
  {
    if more == [] {
      assert ms + more == ms;
    } else {
      var rest := more[..|more| - 1];
      CanonicalGrows(ms, rest);
      assert (ms + more)[..|ms + more| - 1] == ms + rest;
    }
  }

  lemma CanonicalSnoc(ms: seq<Migration>, i: nat)
    requires i < |ms| && ms[i].version !in Versions(ms[..i])
    ensures Canonical(ms[..i]) + [ms[i]] <= Canonical(ms)
  {
    var m, rest := ms[i], ms[i + 1..];
    CanonicalFacts(ms[..i]);
    CanonicalStep(ms[..i], m);
    CanonicalGrows(ms[..i] + [m], rest);
    Split(ms, i);
  }

  lemma Split<T>(s: seq<T>, i: nat)
    requires i < |s|
    ensures s[..i] + [s[i]] + s[i + 1..] == s
  {}

  lemma CanonicalStep(init: seq<Migration>, m: Migration)
    requires m.version !in Versions(Canonical(init))
    ensures Canonical(init + [m]) == Canonical(init) + [m]
  {
    assert (init + [m])[..|init|] == init;
  }

  /** No earlier file has this one's version. */
  ghost predicate FirstOfVersion(ms: seq<Migration>, i: int) {
    0 <= i < |ms| && ms[i].version !in Versions(ms[..i])
  }

  lemma FirstIsKept(ms: seq<Migration>, i: int)
    requires FirstOfVersion(ms, i)
    ensures ms[i] in Canonical(ms)
  {
    CanonicalSnoc(ms, i);
    assert (Canonical(ms[..i]) + [ms[i]])[|Canonical(ms[..i])|] == ms[i];
  }

  lemma {:induction false} KeptIsFirst(ms: seq<Migration>, m: Migration) returns (i: int)
    requires m in Canonical(ms)
    ensures FirstOfVersion(ms, i) && ms[i] == m
    decreases |ms|
  {
    var init := ms[..|ms| - 1];
    if m in Canonical(init) {
      i := KeptIsFirst(init, m);
      assert init[..i] == ms[..i];
    } else {
      i := |ms| - 1;
      CanonicalFacts(init);
    }
  }

  /** Of several files with one version it is the first that counts, and only it. */
  lemma CanonicalKeepsFirsts(ms: seq<Migration>)
    ensures forall i :: FirstOfVersion(ms, i) ==> ms[i] in Canonical(ms)
    ensures forall m :: m in Canonical(ms) ==> exists i :: FirstOfVersion(ms, i) && ms[i] == m
  {
    forall i | FirstOfVersion(ms, i) ensures ms[i] in Canonical(ms) {
      FirstIsKept(ms, i);
    }
    forall m | m in Canonical(ms) ensures exists i :: FirstOfVersion(ms, i) && ms[i] == m {
      var i := KeptIsFirst(ms, m);
    }
  }

  /** The step both migrators and the main loop rely on.  When the history is a canonical prefix that
      holds every version before entry `i` but not the one of entry `i`, entry `i` is next in line. */
  lemma NextInLine(ms: seq<Migration>, applied: seq<Migration>, i: nat)
    requires i < |ms| && applied <= Canonical(ms)
    requires Versions(ms[..i]) <= Versions(applied)
    requires ms[i].version !in Versions(applied)
    ensures applied == Canonical(ms[..i])
    ensures applied + [ms[i]] <= Canonical(ms)
  {
    CanonicalSnoc(ms, i);
    CanonicalFacts(ms);
    CanonicalFacts(ms[..i]);
    SamePrefix(Canonical(ms), applied, Canonical(ms[..i]), ms[i]);
  }

  /** Of two prefixes of a list without repeated versions, only one stops just before `m`. */
  lemma SamePrefix(c: seq<Migration>, applied: seq<Migration>, before: seq<Migration>, m: Migration)
    requires DistinctVersions(c) && applied <= c && before + [m] <= c
    requires Versions(before) <= Versions(applied) && m.version !in Versions(applied)
    ensures applied == before
  {
    assert forall k :: 0 <= k < |applied| ==> applied[k].version in Versions(applied);
    assert c[|before|] == (before + [m])[|before|] == m;
    assert |applied| <= |before|;
    assert forall k :: 0 <= k < |before| ==> before[k].version in Versions(before);
    if |applied| < |before| {
      NotInPrefix(c, applied, |applied|);
    }
  }

  /** A history that holds every version of the list is the whole canonical history. */
  lemma AllAppliedIsCanonical(ms: seq<Migration>, applied: seq<Migration>)
    requires applied <= Canonical(ms) && Versions(ms) <= Versions(applied)
    ensures applied == Canonical(ms)
  {
    var c := Canonical(ms);
    CanonicalFacts(ms);
    if |applied| < |c| {
      NotInPrefix(c, applied, |applied|);
    }
  }
}
