/** The token stream behind the generated JSON code (internal/domain/domain_easyjson.go) and the cursor its
    decoders drive.  The lexer and writer packages themselves are not part of the repository; what is modelled
    here is what the generated code relies on: one fetched token at a time, the separator the last call asked
    for, and a failure that is final. */
module JsonLexer {
  import opened Wrappers

  type int64 = x: int | -0x8000_0000_0000_0000 <= x < 0x8000_0000_0000_0000

  // `Frac` stands for any numeral that is not a plain integer.
  datatype Token =
    LBrace | RBrace | LBrack | RBrack | Colon | Comma
    | Str(text: string) | Num(n: int) | Frac | Bool(b: bool) | Null

  datatype Sep = NoSep | WantComma | WantColon

  /** `token` is the fetched token, if any, and `rest` what follows it; `isTime` says which texts the time
      package accepts. */
  datatype Lex = Lex(rest: seq<Token>, token: Option<Token>, want: Sep, first: bool, start: bool, ok: bool,
                     isTime: string -> bool)

  function Fail(l: Lex): Lex {
    l.(token := None, ok := false)
  }

  function Begin(tokens: seq<Token>, isTime: string -> bool): Lex {
    Lex(tokens, None, NoSep, false, true, true, isTime)
  }

  function Size(l: Lex): nat {
    if !l.ok then 0 else 1 + |l.rest| + if l.token.Some? then 1 else 0
  }

  predicate Separates(t: Token, want: Sep) {
    (t == Comma && want == WantComma) || (t == Colon && want == WantColon)
  }

  /** Takes the next token, past the separator that is due; a wrong, missing or extra separator fails. */
  function Fetch(l: Lex): (r: Lex)
    ensures Size(r) <= Size(l)
    ensures !r.ok || r.token.Some?
  {
    if !l.ok || l.token.Some? then l
    else if l.rest != [] && Separates(l.rest[0], l.want) then FetchValue(l.(rest := l.rest[1..], want := NoSep))
    else FetchValue(l)
  }

  function FetchValue(l: Lex): (r: Lex)
    requires l.ok && l.token.None?
    ensures Size(r) <= Size(l)
    ensures !r.ok || r.token.Some?
  {
    if l.rest == [] then Fail(l)
    else
      var taken := l.(rest := l.rest[1..], token := Some(l.rest[0]), want := NoSep, start := false);
      match l.rest[0]
      case Comma | Colon => Fail(l)
      case RBrace | RBrack => if !l.first && l.want != WantComma then Fail(l) else taken
      case LBrace | LBrack => if l.want != NoSep then Fail(l) else taken.(first := true)
      case _ => if l.want != NoSep then Fail(l) else taken
  }

  predicate IsNull(l: Lex) {
    Fetch(l).token == Some(Null)
  }

  /** True as well once the lexer has failed, so that every loop ends. */
  predicate IsDelim(l: Lex, t: Token) {
    !Fetch(l).ok || Fetch(l).token == Some(t)
  }

  function Skip(l: Lex): (r: Lex)
    ensures if l.ok then Size(r) < Size(l) else r == Fail(l)
  {
    Fetch(l).(token := None)
  }

  function Delim(l: Lex, t: Token): (r: Lex)
    ensures if l.ok then Size(r) < Size(l) else r == Fail(l)
  {
    if IsDelim(l, t) then Skip(l) else Fail(Fetch(l))
  }

  function After(l: Lex, want: Sep): (r: Lex)
    ensures Size(r) == Size(l)
  {
    l.(want := want, first := false)
  }

  function Consumed(l: Lex): (r: Lex)
    ensures Size(r) <= Size(l)
  {
    if l.ok && l.rest != [] then Fail(l) else l
  }

  function ReadText(l: Lex): (r: (Lex, string))
    ensures if l.ok then Size(r.0) < Size(l) else r.0 == Fail(l)
  {
    match Fetch(l).token
    case Some(Str(s)) => (Skip(l), s)
    case _ => (Fail(Fetch(l)), "")
  }

  predicate InRange(n: int) {
    -0x8000_0000_0000_0000 <= n < 0x8000_0000_0000_0000
  }

  function ReadInt(l: Lex): (r: (Lex, int64))
    ensures if l.ok then Size(r.0) < Size(l) else r.0 == Fail(l)
  {
    match Fetch(l).token
    case Some(Num(n)) => if InRange(n) then (Skip(l), n) else (Fail(Fetch(l)), 0)
    case _ => (Fail(Fetch(l)), 0)
  }

  function ReadBool(l: Lex): (r: (Lex, bool))
    ensures if l.ok then Size(r.0) < Size(l) else r.0 == Fail(l)
  {
    match Fetch(l).token
    case Some(Bool(b)) => (Skip(l), b)
    case _ => (Fail(Fetch(l)), false)
  }

  /** A raw value handed to the time parser; `current` stays when the parser refuses it. */
  function ReadTime(l: Lex, current: string): (r: (Lex, string))
    ensures if l.ok then Size(r.0) < Size(l) else r.0 == Fail(l)
  {
    match Fetch(l).token
    case Some(Str(s)) => if l.isTime(s) then (Skip(l), s) else (Fail(Fetch(l)), current)
    case _ => (Fail(Fetch(l)), current)
  }

  /** Skips one value; inside a bracket it only counts brackets of the kind it started with. */
  function SkipRecursive(l: Lex): (r: Lex)
    ensures if l.ok then Size(r) < Size(l) else r == Fail(l)
  {
    var l1 := Fetch(l);
    match l1.token
    case Some(LBrace) => SkipTo(Skip(l1), LBrace, RBrace, 1)
    case Some(LBrack) => SkipTo(Skip(l1), LBrack, RBrack, 1)
    case _ => Skip(l1)
  }

  function SkipTo(l: Lex, open: Token, close: Token, level: nat): (r: Lex)
    requires l.token.None?
    ensures Size(r) <= Size(l)
    ensures !l.ok ==> r == l
    decreases |l.rest|
  {
    if !l.ok then l
    else if level == 0 then l
    else if l.rest == [] then Fail(l)
    else
      var l1 := l.(rest := l.rest[1..]);
      if l.rest[0] == open then SkipTo(l1, open, close, level + 1)
      else if l.rest[0] == close then SkipTo(l1, open, close, level - 1)
      else SkipTo(l1, open, close, level)
  }
}
