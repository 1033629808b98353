/** JSON values and their token text (section 4 of RFC 8259 for objects), the three loops every generated
    decoder is made of, what those loops mean on values, and the proof that they mean it. */
module JsonText {
  import opened Wrappers
  import opened JsonLexer

  datatype Value =
    VNull | VBool(b: bool) | VNum(n: int) | VFrac | VStr(s: string)
    | VArr(items: seq<Value>) | VObj(members: seq<Member>)
  datatype Member = Member(key: string, value: Value)

  // ---------------------------------------------------------------- text

  /** The tokens of a value, followed by `more`. */
  function Print(v: Value, more: seq<Token>): seq<Token>
    decreases v
  {
    match v
    case VNull => [Null] + more
    case VBool(b) => [Bool(b)] + more
    case VNum(n) => [Num(n)] + more
    case VFrac => [Frac] + more
    case VStr(s) => [Str(s)] + more
    case VArr(items) => [LBrack] + PrintItems(items, true, more)
    case VObj(members) => [LBrace] + PrintMembers(members, true, more)
  }

  function PrintItems(items: seq<Value>, first: bool, more: seq<Token>): seq<Token>
    decreases items
  {
    if items == [] then [RBrack] + more
    else (if first then [] else [Comma]) + Print(items[0], PrintItems(items[1..], false, more))
  }

  function PrintMembers(members: seq<Member>, first: bool, more: seq<Token>): seq<Token>
    decreases members
  {
    if members == [] then [RBrace] + more
    else
      var tail := PrintMembers(members[1..], false, more);
      (if first then [] else [Comma]) + ([Str(members[0].key)] + ([Colon] + Print(members[0].value, tail)))
  }

  function Head(v: Value): Token {
    match v
    case VNull => Null
    case VBool(b) => Bool(b)
    case VNum(n) => Num(n)
    case VFrac => Frac
    case VStr(s) => Str(s)
    case VArr(_) => LBrack
    case VObj(_) => LBrace
  }

  lemma PrintHead(v: Value, more: seq<Token>)
    ensures Print(v, more) == [Head(v)] + Print(v, more)[1..]
  {}

  // ---------------------------------------------------------------- decoding loops

  /** A field decoder is given the key and a lexer that expects the colon. */
  ghost predicate Shrinks<T(!new)>(field: (string, Lex, T) -> (Lex, T)) {
    forall key, l, out :: Size(field(key, l, out).0) <= Size(l)
  }

  /** The member loop, up to the closing brace. */
  function Members<T(!new)>(l: Lex, out: T, field: (string, Lex, T) -> (Lex, T)): (r: (Lex, T))
    requires Shrinks(field)
    ensures Size(r.0) <= Size(l)
    decreases Size(l)
  {
    if IsDelim(l, RBrace) then (Fetch(l), out)
    else
      var (l1, key) := ReadText(Fetch(l));
      var (l2, out1) := field(key, After(l1, WantColon), out);
      Members(After(l2, WantComma), out1, field)
  }

  function Object<T(!new)>(l: Lex, out: T, field: (string, Lex, T) -> (Lex, T)): (r: (Lex, T))
    requires Shrinks(field)
    ensures if l.ok then Size(r.0) < Size(l) else !r.0.ok
  {
    if IsNull(l) then (Skip(if l.start then Consumed(Fetch(l)) else Fetch(l)), out)
    else
      var (l1, out1) := Members(Delim(Fetch(l), LBrace), out, field);
      var l2 := Delim(l1, RBrace);
      (if l.start then Consumed(l2) else l2, out1)
  }

  function Items<E(!new)>(l: Lex, items: seq<E>, field: (string, Lex, E) -> (Lex, E), zero: E): (r: (Lex, seq<E>))
    requires Shrinks(field)
    ensures Size(r.0) <= Size(l)
    decreases Size(l)
  {
    if IsDelim(l, RBrack) then (Fetch(l), items)
    else if IsNull(l) then Items(After(Skip(l), WantComma), items + [zero], field, zero)
    else
      var (l1, e) := Object(Fetch(l), zero, field);
      Items(After(l1, WantComma), items + [e], field, zero)
  }

  /** A slice: null decodes to nil, an array to a slice that is not nil, however short. */
  function Slice<E(!new)>(l: Lex, field: (string, Lex, E) -> (Lex, E), zero: E): (r: (Lex, Option<seq<E>>))
    requires Shrinks(field)
    ensures Size(r.0) <= Size(l)
  {
    if IsNull(l) then (Skip(l), None)
    else
      var (l1, items) := Items(Delim(Fetch(l), LBrack), [], field, zero);
      (Delim(l1, RBrack), Some(items))
  }

  // ---------------------------------------------------------------- what the loops mean on values

  /** Folds the members left to right; a later duplicate key is decoded over an earlier one. */
  function Meaning<T(!new)>(members: seq<Member>, out: T, sem: (string -> bool, string, Value, T) -> Option<T>,
                            isTime: string -> bool): Option<T>
    decreases |members|
  {
    if members == [] then Some(out)
    else match sem(isTime, members[0].key, members[0].value, out)
      case None => None
      case Some(out1) => Meaning(members[1..], out1, sem, isTime)
  }

  function ObjectMeaning<T(!new)>(v: Value, out: T, sem: (string -> bool, string, Value, T) -> Option<T>,
                                  isTime: string -> bool): Option<T>
  {
    match v
    case VNull => Some(out)
    case VObj(members) => Meaning(members, out, sem, isTime)
    case _ => None
  }

  function ItemsMeaning<E(!new)>(vs: seq<Value>, items: seq<E>, zero: E,
                                 sem: (string -> bool, string, Value, E) -> Option<E>,
                                 isTime: string -> bool): Option<seq<E>>
    decreases |vs|
  {
    if vs == [] then Some(items)
    else match ObjectMeaning(vs[0], zero, sem, isTime)
      case None => None
      case Some(e) => ItemsMeaning(vs[1..], items + [e], zero, sem, isTime)
  }

  function SliceMeaning<E(!new)>(v: Value, zero: E, sem: (string -> bool, string, Value, E) -> Option<E>,
                                 isTime: string -> bool): Option<Option<seq<E>>>
  {
    match v
    case VNull => Some(None)
    case VArr(vs) => (match ItemsMeaning(vs, [], zero, sem, isTime) case None => None case Some(items) => Some(Some(items)))
    case _ => None
  }

  // ---------------------------------------------------------------- the loops mean it

  /** The value has been read and exactly `more` is left. */
  ghost predicate Settled(l: Lex, more: seq<Token>, isTime: string -> bool) {
    l.ok && l.token.None? && l.want == NoSep && !l.start && l.rest == more && l.isTime == isTime
  }

  /** A decoding result is the meaning: a failure when there is none, else that value and that remainder. */
  ghost predicate Agrees<T(!new)>(r: (Lex, T), more: seq<Token>, meaning: Option<T>, isTime: string -> bool) {
    match meaning
    case None => !r.0.ok
    case Some(out) => Settled(r.0, more, isTime) && r.1 == out
  }

  /** The lexer before a member's colon. */
  function AtColon(rest: seq<Token>, isTime: string -> bool): Lex {
    Lex([Colon] + rest, None, WantColon, false, false, true, isTime)
  }

  /** The lexer once the value's first token is fetched. */
  ghost predicate Entered(l: Lex, v: Value, more: seq<Token>, isTime: string -> bool) {
    && l.ok && l.token == Some(Head(v)) && [Head(v)] + l.rest == Print(v, more)
    && l.want == NoSep && !l.start && l.isTime == isTime
    && (v.VArr? || v.VObj? ==> l.first)
  }

  lemma EntersAtColon(v: Value, more: seq<Token>, isTime: string -> bool)
    ensures Entered(Fetch(AtColon(Print(v, more), isTime)), v, more, isTime)
  {
    PrintHead(v, more);
    assert ([Colon] + Print(v, more))[1..] == Print(v, more);
  }

  /** Where the member loop stands between members. */
  function Between(rest: seq<Token>, first: bool, isTime: string -> bool): Lex {
    Lex(rest, None, if first then NoSep else WantComma, first, false, true, isTime)
  }

  /** The bracket that ends a loop has been fetched. */
  ghost predicate Closed(l: Lex, close: Token, more: seq<Token>, isTime: string -> bool) {
    l.ok && l.token == Some(close) && l.want == NoSep && !l.start && l.rest == more && l.isTime == isTime
  }

  lemma ClosesBetween(close: Token, more: seq<Token>, first: bool, isTime: string -> bool)
    requires close == RBrace || close == RBrack
    ensures Closed(Fetch(Between([close] + more, first, isTime)), close, more, isTime)
  {
    assert ([close] + more)[1..] == more;
  }

  lemma EntersBetween(v: Value, more: seq<Token>, first: bool, isTime: string -> bool)
    ensures Entered(Fetch(Between((if first then [] else [Comma]) + Print(v, more), first, isTime)), v, more, isTime)
  {
    PrintHead(v, more);
    var text := Print(v, more);
    if first {
      assert [] + text == text;
    } else {
      assert ([Comma] + text)[1..] == text;
    }
  }

  /** A field decoder that means `sem` on every value, whatever follows it. */
  ghost predicate Means<T(!new)>(field: (string, Lex, T) -> (Lex, T),
                                 sem: (string -> bool, string, Value, T) -> Option<T>, isTime: string -> bool)
  {
    forall key, v, out, more ::
      Agrees(field(key, AtColon(Print(v, more), isTime), out), more, sem(isTime, key, v, out), isTime)
  }

  lemma Stops<T(!new)>(l: Lex, out: T, field: (string, Lex, T) -> (Lex, T))
    requires Shrinks(field) && !l.ok
    ensures Members(l, out, field) == (l, out)
  {}

  lemma MembersAtKey<T(!new)>(key: string, rest: seq<Token>, first: bool, out: T,
                              field: (string, Lex, T) -> (Lex, T), isTime: string -> bool)
    requires Shrinks(field)
    ensures var l := Between((if first then [] else [Comma]) + ([Str(key)] + ([Colon] + rest)), first, isTime);
            var (l1, out1) := field(key, AtColon(rest, isTime), out);
            Members(l, out, field) == Members(After(l1, WantComma), out1, field)
  {
    var tail := [Str(key)] + ([Colon] + rest);
    var l := Between((if first then [] else [Comma]) + tail, first, isTime);
    assert tail[1..] == [Colon] + rest;
    if first {
      assert [] + tail == tail;
    } else {
      assert ([Comma] + tail)[1..] == tail;
    }
    assert Fetch(l).token == Some(Str(key)) && Fetch(l).rest == [Colon] + rest;
    assert After(ReadText(Fetch(l)).0, WantColon) == AtColon(rest, isTime);
  }

  lemma {:induction false} MembersMean<T(!new)>(members: seq<Member>, first: bool, more: seq<Token>, out: T,
      field: (string, Lex, T) -> (Lex, T), sem: (string -> bool, string, Value, T) -> Option<T>, isTime: string -> bool)
    requires Shrinks(field) && Means(field, sem, isTime)
    ensures var r := Members(Between(PrintMembers(members, first, more), first, isTime), out, field);
            match Meaning(members, out, sem, isTime)
            case None => !r.0.ok
            case Some(final) => Closed(r.0, RBrace, more, isTime) && r.1 == final
    decreases |members|
  {
    var l := Between(PrintMembers(members, first, more), first, isTime);
    if members == [] {
      ClosesBetween(RBrace, more, first, isTime);
    } else {
      var key, v, tail := members[0].key, members[0].value, PrintMembers(members[1..], false, more);
      MembersAtKey(key, Print(v, tail), first, out, field, isTime);
      var (l1, out1) := field(key, AtColon(Print(v, tail), isTime), out);
      assert Agrees((l1, out1), tail, sem(isTime, key, v, out), isTime);
      if sem(isTime, key, v, out).None? {
        Stops(After(l1, WantComma), out1, field);
      } else {
        assert After(l1, WantComma) == Between(tail, false, isTime);
        MembersMean(members[1..], false, more, out1, field, sem, isTime);
      }
    }
  }

  lemma AfterOpening(l: Lex, v: Value, more: seq<Token>, isTime: string -> bool)
    requires Entered(l, v, more, isTime)
    ensures v.VObj? ==> Delim(l, LBrace) == Between(PrintMembers(v.members, true, more), true, isTime)
    ensures v.VArr? ==> Delim(l, LBrack) == Between(PrintItems(v.items, true, more), true, isTime)
    ensures !v.VObj? ==> !Delim(l, LBrace).ok
    ensures !v.VArr? ==> !Delim(l, LBrack).ok
    ensures !v.VArr? && !v.VObj? ==> Settled(Skip(l), more, isTime)
  {
    assert Print(v, more)[1..] == l.rest;
  }

  lemma AfterClosing(l: Lex, close: Token, more: seq<Token>, isTime: string -> bool)
    requires Closed(l, close, more, isTime)
    ensures Settled(Delim(l, close), more, isTime)
  {}

  /** Inside a larger text an object decodes to its meaning and leaves exactly what follows it. */
  lemma ObjectMeans<T(!new)>(l: Lex, v: Value, more: seq<Token>, out: T,
      field: (string, Lex, T) -> (Lex, T), sem: (string -> bool, string, Value, T) -> Option<T>, isTime: string -> bool)
    requires Shrinks(field) && Means(field, sem, isTime)
    requires !l.start && Entered(Fetch(l), v, more, isTime)
    ensures Agrees(Object(l, out, field), more, ObjectMeaning(v, out, sem, isTime), isTime)
  {
    var l0 := Fetch(l);
    AfterOpening(l0, v, more, isTime);
    if v.VNull? {
    } else if v.VObj? {
      MembersMean(v.members, true, more, out, field, sem, isTime);
      var (l1, out1) := Members(Delim(l0, LBrace), out, field);
      if l1.ok {
        AfterClosing(l1, RBrace, more, isTime);
      }
    } else {
      Stops(Delim(l0, LBrace), out, field);
    }
  }

  /** A whole document decodes exactly when its object does and nothing follows it. */
  lemma DocumentMeans<T(!new)>(v: Value, more: seq<Token>, out: T,
      field: (string, Lex, T) -> (Lex, T), sem: (string -> bool, string, Value, T) -> Option<T>, isTime: string -> bool)
    requires Shrinks(field) && Means(field, sem, isTime)
    ensures var r := Object(Begin(Print(v, more), isTime), out, field);
            match ObjectMeaning(v, out, sem, isTime)
            case None => !r.0.ok
            case Some(final) => (r.0.ok <==> more == []) && r.1 == final
  {
    var l := Begin(Print(v, more), isTime);
    PrintHead(v, more);
    var inner := l.(start := false);
    assert Fetch(l) == Fetch(inner);
    ObjectMeans(inner, v, more, out, field, sem, isTime);
  }

  lemma ItemsStop<E(!new)>(l: Lex, items: seq<E>, field: (string, Lex, E) -> (Lex, E), zero: E)
    requires Shrinks(field) && !l.ok
    ensures Items(l, items, field, zero) == (l, items)
  {}

  lemma {:induction false} ItemsMean<E(!new)>(vs: seq<Value>, first: bool, more: seq<Token>, items: seq<E>,
      field: (string, Lex, E) -> (Lex, E), zero: E,
      sem: (string -> bool, string, Value, E) -> Option<E>, isTime: string -> bool)
    requires Shrinks(field) && Means(field, sem, isTime)
    ensures var r := Items(Between(PrintItems(vs, first, more), first, isTime), items, field, zero);
            match ItemsMeaning(vs, items, zero, sem, isTime)
            case None => !r.0.ok
            case Some(final) => Closed(r.0, RBrack, more, isTime) && r.1 == final
    decreases |vs|
  {
    var l := Between(PrintItems(vs, first, more), first, isTime);
    if vs == [] {
      ClosesBetween(RBrack, more, first, isTime);
    } else {
      var tail := PrintItems(vs[1..], false, more);
      EntersBetween(vs[0], tail, first, isTime);
      var l0 := Fetch(l);
      AfterOpening(l0, vs[0], tail, isTime);
      ObjectMeans(l0, vs[0], tail, zero, field, sem, isTime);
      var (l1, e) := if vs[0].VNull? then (Skip(l0), zero) else Object(l0, zero, field);
      assert Items(l, items, field, zero) == Items(After(l1, WantComma), items + [e], field, zero);
      if l1.ok {
        assert After(l1, WantComma) == Between(tail, false, isTime);
        ItemsMean(vs[1..], false, more, items + [e], field, zero, sem, isTime);
      } else {
        ItemsStop(After(l1, WantComma), items + [e], field, zero);
      }
    }
  }

  lemma SliceMeans<E(!new)>(l: Lex, v: Value, more: seq<Token>,
      field: (string, Lex, E) -> (Lex, E), zero: E,
      sem: (string -> bool, string, Value, E) -> Option<E>, isTime: string -> bool)
    requires Shrinks(field) && Means(field, sem, isTime)
    requires Entered(Fetch(l), v, more, isTime)
    ensures Agrees(Slice(l, field, zero), more, SliceMeaning(v, zero, sem, isTime), isTime)
  {
    var l0 := Fetch(l);
    AfterOpening(l0, v, more, isTime);
    if v.VArr? {
      ItemsMean(v.items, true, more, [], field, zero, sem, isTime);
      var (l1, items) := Items(Delim(l0, LBrack), [], field, zero);
      if l1.ok {
        AfterClosing(l1, RBrack, more, isTime);
      }
    } else if !v.VNull? {
      ItemsStop(Delim(l0, LBrack), [], field, zero);
    }
  }

  // ---------------------------------------------------------------- skipping

  /** A counter of one kind of bracket does not notice a complete value. */
  lemma {:induction false} SkipsValue(l: Lex, v: Value, more: seq<Token>, open: Token, close: Token, level: nat)
    requires l.ok && l.token.None? && level > 0 && l.rest == Print(v, more)
    requires (open == LBrace && close == RBrace) || (open == LBrack && close == RBrack)
    ensures SkipTo(l, open, close, level) == SkipTo(l.(rest := more), open, close, level)
    decreases v
  {
    match v
    case VArr(items) =>
      var l1 := l.(rest := PrintItems(items, true, more));
      assert l.rest[1..] == l1.rest;
      SkipsItems(l1, items, true, more, open, close, if open == LBrack then level + 1 else level);
    case VObj(members) =>
      var l1 := l.(rest := PrintMembers(members, true, more));
      assert l.rest[1..] == l1.rest;
      SkipsMembers(l1, members, true, more, open, close, if open == LBrace then level + 1 else level);
    case _ =>
      assert l.rest[1..] == more;
  }

  lemma SkipsToken(l: Lex, t: Token, rest: seq<Token>, open: Token, close: Token, level: nat)
    requires l.ok && l.token.None? && level > 0 && l.rest == [t] + rest
    requires (open == LBrace && close == RBrace) || (open == LBrack && close == RBrack)
    ensures SkipTo(l, open, close, level)
      == SkipTo(l.(rest := rest), open, close, if t == open then level + 1 else if t == close then level - 1 else level)
  {
    assert l.rest[1..] == rest;
  }

  lemma {:induction false} SkipsItems(l: Lex, items: seq<Value>, first: bool, more: seq<Token>,
                                      open: Token, close: Token, level: nat)
    requires l.ok && l.token.None? && level > 0 && l.rest == PrintItems(items, first, more)
    requires (open == LBrace && close == RBrace) || (open == LBrack && close == RBrack)
    ensures SkipTo(l, open, close, level)
      == SkipTo(l.(rest := more), open, close, if open == LBrack then level - 1 else level)
    decreases items
  {
    if items == [] {
      SkipsToken(l, RBrack, more, open, close, level);
    } else {
      var tail := PrintItems(items[1..], false, more);
      var text := Print(items[0], tail);
      if first {
        assert [] + text == text;
      } else {
        SkipsToken(l, Comma, text, open, close, level);
      }
      SkipsValue(l.(rest := text), items[0], tail, open, close, level);
      SkipsItems(l.(rest := tail), items[1..], false, more, open, close, level);
    }
  }

  lemma {:induction false} SkipsMembers(l: Lex, members: seq<Member>, first: bool, more: seq<Token>,
                                        open: Token, close: Token, level: nat)
    requires l.ok && l.token.None? && level > 0 && l.rest == PrintMembers(members, first, more)
    requires (open == LBrace && close == RBrace) || (open == LBrack && close == RBrack)
    ensures SkipTo(l, open, close, level)
      == SkipTo(l.(rest := more), open, close, if open == LBrace then level - 1 else level)
    decreases members
  {
    if members == [] {
      SkipsToken(l, RBrace, more, open, close, level);
    } else {
      var v, tail := members[0].value, PrintMembers(members[1..], false, more);
      var text := [Str(members[0].key)] + ([Colon] + Print(v, tail));
      if first {
        assert [] + text == text;
      } else {
        SkipsToken(l, Comma, text, open, close, level);
      }
      SkipsToken(l.(rest := text), Str(members[0].key), [Colon] + Print(v, tail), open, close, level);
      SkipsToken(l.(rest := [Colon] + Print(v, tail)), Colon, Print(v, tail), open, close, level);
      SkipsValue(l.(rest := Print(v, tail)), v, tail, open, close, level);
      SkipsMembers(l.(rest := tail), members[1..], false, more, open, close, level);
    }
  }

  /** Skipping an unknown member's value leaves exactly what follows it. */
  lemma SkipMeans(l: Lex, v: Value, more: seq<Token>, isTime: string -> bool)
    requires Entered(Fetch(l), v, more, isTime)
    ensures Settled(SkipRecursive(l), more, isTime)
  {
    var l0 := Fetch(l);
    AfterOpening(l0, v, more, isTime);
    if v.VObj? {
      SkipsMembers(Skip(l0), v.members, true, more, LBrace, RBrace, 1);
    } else if v.VArr? {
      SkipsItems(Skip(l0), v.items, true, more, LBrack, RBrack, 1);
    }
  }
}
