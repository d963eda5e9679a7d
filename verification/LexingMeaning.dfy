/** What a source text is made of, piece by piece as it is written, and the tokens of each piece. */
module LexingMeaning {
  import opened Wrappers
  import opened Lexing

  datatype Lexeme =
    | Gap(c: char)
    | Note(text: string)
    | Remark(text: string)
    | Break(text: string)
    | Quoted(text: string)
    | Raw(text: string)
    | Number(whole: string, fraction: string, exponent: string)
    | Cross
    | Name(text: string)
    | Sign(text: string)

  function SpellOne(c: Lexeme): string {
    match c
    case Gap(m) => [m]
    case Note(t) => "//" + t
    case Remark(t) => "/*" + (t + "*/")
    case Break(t) => t
    case Quoted(t) => "\"" + (t + "\"")
    case Raw(t) => "`" + (t + "`")
    case Number(w, f, e) => w + (f + e)
    case Cross => "x"
    case Name(t) => t
    case Sign(t) => t
  }

  function Spell(cs: seq<Lexeme>): string {
    if cs == [] then "" else SpellOne(cs[0]) + Spell(cs[1..])
  }

  predicate Digit(c: char) { '0' <= c <= '9' }

  predicate Letter(c: char) { 'a' <= c <= 'z' || 'A' <= c <= 'Z' || c == '_' }

  predicate Digits(s: string) { s != "" && forall i :: 0 <= i < |s| ==> Digit(s[i]) }

  predicate Ident(w: string) { w != "" && Letter(w[0]) && forall i :: 0 <= i < |w| ==> Letter(w[i]) || Digit(w[i]) }

  predicate StartsDigit(s: string) { s != "" && Digit(s[0]) }

  predicate StartsWord(s: string) { s != "" && (Letter(s[0]) || Digit(s[0])) }

  predicate StartsWith(s: string, c: char) { s != "" && s[0] == c }

  predicate OnOneLine(s: string) { forall i :: 0 <= i < |s| ==> s[i] != '\n' && s[i] != '\r' }

  predicate NoStarSlash(t: string) { forall i :: 0 <= i < |t| - 1 ==> t[i] != '*' || t[i + 1] != '/' }

  /** The characters a literal's text may hold, and the four escapes. */
  predicate Escapes(t: string) {
    t == "" ||
    if t[0] == '\\' then |t| >= 2 && t[1] in {'"', '\\', 'n', 't'} && Escapes(t[2..])
    else t[0] != '"' && t[0] != '\n' && t[0] != '\r' && Escapes(t[1..])
  }

  function Plain(t: string): string
    requires Escapes(t)
  {
    if t == "" then ""
    else if t[0] != '\\' then [t[0]] + Plain(t[1..])
    else (match t[1] case 'n' => "\n" case 't' => "\t" case c => [c]) + Plain(t[2..])
  }

  /** Every line break, of whichever kind, as one line feed. */
  function Feeds(t: string): string {
    if t == "" then ""
    else if t[0] != '\r' then [t[0]] + Feeds(t[1..])
    else if |t| > 1 && t[1] == '\n' then "\n" + Feeds(t[2..])
    else "\n" + Feeds(t[1..])
  }

  predicate IsFraction(f: string) { f == "" || (f[0] == '.' && Digits(f[1..])) }

  predicate IsExponent(e: string) {
    e == "" || ((e[0] == 'e' || e[0] == 'E')
                && (Digits(e[1..]) || (|e| > 1 && (e[1] == '+' || e[1] == '-') && Digits(e[2..]))))
  }

  predicate Pair(s: string) { s in {"->", "++", "+=", "-=", "==", "!=", "<=", ">=", "&&", "||"} }

  predicate Single(s: string) {
    s in {"(", ")", "[", "]", "{", "}", ":", "=", "+", "-", "*", "/", "%", "!", "<", ">", "|", ",", "."}
  }

  /** Whether a piece is what it says when `rest` follows, and a digit stands before it or not.
      Every piece is as long as it can be. */
  predicate Fits(c: Lexeme, digit: bool, rest: string) {
    match c
    case Gap(m) => m == ' ' || m == '\t'
    case Note(t) => OnOneLine(t) && (rest == "" || StartsWith(rest, '\n') || StartsWith(rest, '\r'))
    case Remark(t) => NoStarSlash(t)
    case Break(t) => t == "\r\n" || t == "\n" || (t == "\r" && !StartsWith(rest, '\n'))
    case Quoted(t) => Escapes(t)
    case Raw(t) => forall i :: 0 <= i < |t| ==> t[i] != '`'
    case Number(w, f, e) =>
      && Digits(w) && IsFraction(f) && IsExponent(e) && !StartsDigit(rest)
      && (e == "" ==> !StartsWith(rest, 'e') && !StartsWith(rest, 'E'))
      && (e == "" && f == "" && StartsWith(rest, '.') ==> !StartsDigit(rest[1..]))
    case Cross => digit && (StartsWord(rest) || StartsWith(rest, '('))
    case Name(t) => Ident(t) && !StartsWord(rest) && !(digit && t[0] == 'x' && (|t| > 1 || StartsWith(rest, '(')))
    case Sign(t) =>
      || Pair(t)
      || (Single(t) && (rest != "" ==> !Pair(t + rest[..1]) && (t == "/" ==> rest[0] != '/' && rest[0] != '*')))
  }

  function Meaning(c: Lexeme, digit: bool, rest: string): Option<(Kind, string)>
    requires Fits(c, digit, rest)
  {
    match c
    case Gap(_) => None
    case Note(_) => None
    case Remark(_) => None
    case Break(_) => Some((Newline, "\n"))
    case Quoted(t) => Some((StringLiteral, Plain(t)))
    case Raw(t) => Some((StringLiteral, Feeds(t)))
    case Number(_, f, e) => Some((if f == "" && e == "" then IntLiteral else FltLiteral, SpellOne(c)))
    case Cross => Some((Word, "x"))
    case Name(t) => Some((Word, t))
    case Sign(t) => Some((Symbol, t))
  }

  predicate EndsInDigit(s: string) { s != "" && Digit(s[|s| - 1]) }

  predicate FitsAt(cs: seq<Lexeme>, i: nat)
    requires i < |cs|
  {
    Fits(cs[i], EndsInDigit(Spell(cs[..i])), Spell(cs[i + 1..]))
  }

  predicate Source(cs: seq<Lexeme>) { forall i :: 0 <= i < |cs| ==> FitsAt(cs, i) }

  /** The token of a piece at an offset, where it has one. */
  function TokenOf(c: Lexeme, digit: bool, rest: string, at: nat): seq<Tok>
    requires Fits(c, digit, rest)
  {
    var m := Meaning(c, digit, rest);
    if m.Some? then [Tok(m.value.0, m.value.1, at)] else []
  }

  /** The tokens from piece k on, each at the offset of its piece. */
  function Tokens(cs: seq<Lexeme>, k: nat): seq<Tok>
    requires Source(cs) && k <= |cs|
    decreases |cs| - k
  {
    if k == |cs| then [Tok(Eof, "", |Spell(cs)|)] else
    assert FitsAt(cs, k);
    TokenOf(cs[k], EndsInDigit(Spell(cs[..k])), Spell(cs[k + 1..]), |Spell(cs[..k])|) + Tokens(cs, k + 1)
  }

  // ---- one piece ----

  /** From offset i the source reads `text` and then `rest`. */
  predicate Lies(src: string, i: nat, text: string, rest: string) { i <= |src| && src[i..] == text + rest }

  lemma {:induction false} LiesFront(src: string, i: nat, text: string, rest: string)
    requires Lies(src, i, text, rest)
    ensures i + |text| + |rest| == |src|
    ensures forall k :: 0 <= k < |text| ==> src[i + k] == text[k]
    ensures forall k :: 0 <= k < |rest| ==> src[i + |text| + k] == rest[k]
  {
    forall k | 0 <= k < |text| ensures src[i + k] == text[k] { assert src[i..][k] == (text + rest)[k]; }
    forall k | 0 <= k < |rest| ensures src[i + |text| + k] == rest[k] { assert src[i..][|text| + k] == (text + rest)[|text| + k]; }
  }

  lemma {:induction false} LiesOn(src: string, i: nat, text: string, rest: string, k: nat)
    requires Lies(src, i, text, rest) && k <= |text|
    ensures Lies(src, i + k, text[k..], rest)
  {
    LiesFront(src, i, text, rest);
    assert src[i + k..] == src[i..][k..];
  }

  /** The two parts of a text lie one after the other. */
  lemma {:induction false} LiesBoth(src: string, i: nat, a: string, b: string, rest: string)
    requires Lies(src, i, a + b, rest)
    ensures Lies(src, i, a, b + rest) && Lies(src, i + |a|, b, rest)
  {
    LiesOn(src, i, a + b, rest, |a|);
    assert (a + b)[|a|..] == b && a + b + rest == a + (b + rest);
  }

  lemma {:induction false} LineEndIs(src: string, i: nat, t: string, rest: string)
    requires Lies(src, i, t, rest) && Fits(Note(t), false, rest)
    ensures LineEnd(src, i) == i + |t|
    decreases |t|
  {
    LiesFront(src, i, t, rest);
    if t != "" { LiesOn(src, i, t, rest, 1); LineEndIs(src, i + 1, t[1..], rest); }
  }

  lemma {:induction false} CommentEndIs(src: string, i: nat, t: string, rest: string)
    requires Lies(src, i, t, "*/" + rest) && NoStarSlash(t)
    ensures CommentEnd(src, i) == Some(i + |t| + 2)
    decreases |t|
  {
    LiesFront(src, i, t, "*/" + rest);
    assert src[i + |t|] == '*' && src[i + |t| + 1] == '/';
    if t != "" {
      assert |t| > 1 ==> src[i + 1] == t[1];
      var k := if t[0] == '\r' && |t| > 1 && t[1] == '\n' then 2 else 1;
      LiesOn(src, i, t, "*/" + rest, k);
      CommentEndIs(src, i + k, t[k..], rest);
    }
  }

  /** The character that stands first, and how many of the text's characters say it. */
  function First(t: string): (char, nat)
    requires Escapes(t) && t != ""
    ensures First(t).1 <= |t|
  {
    if t[0] != '\\' then (t[0], 1) else ((match t[1] case 'n' => '\n' case 't' => '\t' case c => c), 2)
  }

  lemma {:induction false} PlainStep(t: string, sofar: string)
    requires Escapes(t) && t != ""
    ensures var (c, k) := First(t); Escapes(t[k..]) && sofar + [c] + Plain(t[k..]) == sofar + Plain(t)
  {
    var (c, k) := First(t);
    assert Plain(t) == [c] + Plain(t[k..]);
    Rejoin(sofar, [c], Plain(t[k..]));
  }

  lemma {:induction false} Rejoin(a: string, b: string, c: string)
    ensures a + b + c == a + (b + c)
  {
  }

  lemma {:induction false} FeedsStep(t: string, sofar: string)
    requires t != ""
    ensures var k := if t[0] == '\r' && |t| > 1 && t[1] == '\n' then 2 else 1;
      var c := if t[0] == '\r' then '\n' else t[0];
      sofar + [c] + Feeds(t[k..]) == sofar + Feeds(t)
  {
    var k := if t[0] == '\r' && |t| > 1 && t[1] == '\n' then 2 else 1;
    var c := if t[0] == '\r' then '\n' else t[0];
    assert Feeds(t) == [c] + Feeds(t[k..]);
    Rejoin(sofar, [c], Feeds(t[k..]));
  }

  lemma {:induction false} StringIs(src: string, i: nat, t: string, rest: string, sofar: string)
    requires Lies(src, i, t, "\"" + rest) && Escapes(t)
    ensures StringFrom(src, i, sofar) == Some((sofar + Plain(t), i + |t| + 1))
    decreases |t|
  {
    LiesFront(src, i, t, "\"" + rest);
    assert src[i + |t|] == '"';
    if t == "" {
      assert sofar + "" == sofar;
    } else {
      var (c, k) := First(t);
      assert t[0] == '\\' ==> Escaped(t[1]) == Some(c) && src[i + 1] == t[1];
      LiesOn(src, i, t, "\"" + rest, k);
      PlainStep(t, sofar);
      StringIs(src, i + k, t[k..], rest, sofar + [c]);
    }
  }

  lemma {:induction false} RawStep(src: string, i: nat, t: string, rest: string, sofar: string)
    requires t != "" && t[0] != '`' && Lies(src, i, t, "`" + rest)
    ensures var k := if t[0] == '\r' && |t| > 1 && t[1] == '\n' then 2 else 1;
      var c := if t[0] == '\r' then '\n' else t[0];
      i + k <= |src| && RawFrom(src, i, sofar) == RawFrom(src, i + k, sofar + [c])
  {
    LiesFront(src, i, t, "`" + rest);
    assert src[i + |t|] == '`';
    assert |t| > 1 ==> src[i + 1] == t[1];
  }

  lemma {:induction false} RawIs(src: string, i: nat, t: string, rest: string, sofar: string)
    requires Lies(src, i, t, "`" + rest) && Fits(Raw(t), false, rest)
    ensures RawFrom(src, i, sofar) == Some((sofar + Feeds(t), i + |t| + 1))
    decreases |t|
  {
    if t == "" {
      LiesFront(src, i, t, "`" + rest);
      assert src[i + |t|] == '`' && sofar + "" == sofar;
    } else {
      var k := if t[0] == '\r' && |t| > 1 && t[1] == '\n' then 2 else 1;
      var c := if t[0] == '\r' then '\n' else t[0];
      RawStep(src, i, t, rest, sofar);
      LiesOn(src, i, t, "`" + rest, k);
      RawIs(src, i + k, t[k..], rest, sofar + [c]);
      FeedsStep(t, sofar);
    }
  }

  lemma {:induction false} DigitsEndIs(src: string, i: nat, t: string, rest: string)
    requires Lies(src, i, t, rest) && (t == "" || Digits(t)) && !StartsDigit(rest)
    ensures DigitsEnd(src, i) == i + |t|
    decreases |t|
  {
    LiesFront(src, i, t, rest);
    if t != "" { LiesOn(src, i, t, rest, 1); DigitsEndIs(src, i + 1, t[1..], rest); }
  }

  lemma {:induction false} WordEndIs(src: string, i: nat, t: string, rest: string)
    requires Lies(src, i, t, rest) && (forall k :: 0 <= k < |t| ==> Letter(t[k]) || Digit(t[k])) && !StartsWord(rest)
    ensures WordEnd(src, i) == i + |t|
    decreases |t|
  {
    LiesFront(src, i, t, rest);
    if t != "" { LiesOn(src, i, t, rest, 1); WordEndIs(src, i + 1, t[1..], rest); }
  }

  lemma {:induction false} FractionIs(src: string, i: nat, f: string, rest: string)
    requires Lies(src, i, f, rest) && IsFraction(f) && !StartsDigit(rest)
    requires f == "" && StartsWith(rest, '.') ==> !StartsDigit(rest[1..])
    ensures FractionEnd(src, i) == i + |f|
  {
    LiesFront(src, i, f, rest);
    if f == "" {
      assert |rest| > 1 ==> src[i + 1] == rest[1];
    } else {
      LiesOn(src, i, f, rest, 1);
      DigitsEndIs(src, i + 1, f[1..], rest);
    }
  }

  lemma {:induction false} ExponentIs(src: string, i: nat, e: string, rest: string)
    requires Lies(src, i, e, rest) && IsExponent(e) && !StartsDigit(rest)
    requires e == "" ==> !StartsWith(rest, 'e') && !StartsWith(rest, 'E')
    ensures ExponentEnd(src, i) == Some(i + |e|)
  {
    LiesFront(src, i, e, rest);
    if e != "" {
      var k := if Digits(e[1..]) then 1 else 2;
      assert k == 1 ==> Digit(e[1..][0]) && e[1] == e[1..][0];
      assert k == 2 ==> Digit(e[2..][0]) && e[2] == e[2..][0];
      assert src[i + 1] == e[1];
      LiesOn(src, i, e, rest, k);
      DigitsEndIs(src, i + k, e[k..], rest);
    }
  }

  lemma {:induction false} PartsLie(src: string, i: nat, w: string, f: string, e: string, rest: string)
    requires Lies(src, i, w + (f + e), rest)
    ensures Lies(src, i, w, f + (e + rest)) && Lies(src, i + |w|, f, e + rest) && Lies(src, i + |w| + |f|, e, rest)
  {
    LiesBoth(src, i, w, f + e, rest);
    LiesBoth(src, i + |w|, f, e, rest);
    assert (f + e) + rest == f + (e + rest);
  }

  lemma {:induction false} NumberEnds(src: string, i: nat, j: nat, k: nat, end: nat)
    requires i < j <= k <= end <= |src| && IsDigit(src[i])
    requires DigitsEnd(src, i) == j && FractionEnd(src, j) == k && ExponentEnd(src, k) == Some(end)
    ensures NumberTurn(src, i) == Emit(if end == j then IntLiteral else FltLiteral, src[i..end], end)
  {
  }

  lemma {:induction false} NumberText(src: string, i: nat, text: string, c: char, rest: string)
    requires text != "" && text[0] == c && Lies(src, i, text, rest)
    ensures i + |text| <= |src| && src[i] == c && src[i..i + |text|] == text
  {
    LiesFront(src, i, text, rest);
  }

  lemma {:induction false} NumberParts(src: string, i: nat, w: string, f: string, e: string, rest: string)
    requires Fits(Number(w, f, e), false, rest) && Lies(src, i, w + (f + e), rest) && i + |w| + |f| + |e| <= |src|
    ensures DigitsEnd(src, i) == i + |w| && FractionEnd(src, i + |w|) == i + |w| + |f|
    ensures ExponentEnd(src, i + |w| + |f|) == Some(i + |w| + |f| + |e|)
  {
    PartsLie(src, i, w, f, e, rest);
    TailsStart(w, f, e, rest);
    assert DigitsEnd(src, i) == i + |w| by { DigitsEndIs(src, i, w, f + (e + rest)); }
    assert FractionEnd(src, i + |w|) == i + |w| + |f| by { FractionIs(src, i + |w|, f, e + rest); }
    ExponentIs(src, i + |w| + |f|, e, rest);
  }

  lemma {:induction false} NumberIs(src: string, i: nat, w: string, f: string, e: string, text: string, rest: string)
    requires Fits(Number(w, f, e), false, rest) && text == w + (f + e) && Lies(src, i, text, rest)
    ensures i < |src| && IsDigit(src[i])
    ensures NumberTurn(src, i) == Emit(if f == "" && e == "" then IntLiteral else FltLiteral, text, i + |text|)
  {
    var j, k, end := i + |w|, i + |w| + |f|, i + |w| + |f| + |e|;
    assert |text| == |w| + |f| + |e| && text[0] == w[0];
    NumberText(src, i, text, w[0], rest);
    NumberParts(src, i, w, f, e, rest);
    NumberEnds(src, i, j, k, end);
  }

  lemma {:induction false} TailsStart(w: string, f: string, e: string, rest: string)
    requires Fits(Number(w, f, e), false, rest)
    ensures !StartsDigit(e + rest) && !StartsDigit(f + (e + rest))
    ensures f == "" && StartsWith(e + rest, '.') ==> !StartsDigit((e + rest)[1..])
  {
    var tail := e + rest;
    if e == "" { assert tail == rest; } else { assert tail[0] == e[0]; }
    if f == "" { assert f + tail == tail; } else { assert (f + tail)[0] == f[0]; }
  }

  lemma {:induction false} PairsAgree(s: string)
    ensures Pair(s) <==> s in Pairs
    ensures Single(s) <==> |s| == 1 && s[0] in Singles
  {
    if |s| == 1 { assert s == [s[0]]; }
  }

  lemma {:induction false} SignIs(src: string, i: nat, t: string, digit: bool, rest: string)
    requires Fits(Sign(t), digit, rest) && Lies(src, i, t, rest)
    ensures i < |src| && SymbolTurn(src, i) == Emit(Symbol, t, i + |t|)
  {
    LiesFront(src, i, t, rest);
    PairsAgree(t);
    assert |t| == 1 || |t| == 2;
    assert src[i..i + |t|] == t;
    if !Pair(t) && rest != "" {
      assert src[i + 1] == rest[0];
      assert src[i..i + 2] == t + rest[..1];
      PairsAgree(t + rest[..1]);
    }
  }

  /** A digit stands right before offset i. */
  predicate DigitBefore(src: string, i: nat) { 0 < i <= |src| && Digit(src[i - 1]) }

  /** The turn a piece makes. */
  function TurnOf(c: Lexeme, digit: bool, rest: string, next: nat): Turn
    requires Fits(c, digit, rest)
  {
    var m := Meaning(c, digit, rest);
    if m.None? then Skip(next) else Emit(m.value.0, m.value.1, next)
  }

  lemma {:induction false} SpaceTurn(src: string, i: nat, c: Lexeme, digit: bool, rest: string)
    requires (c.Gap? || c.Break? || c.Note?) && Fits(c, digit, rest) && Lies(src, i, SpellOne(c), rest)
    ensures i < |src| && TurnAt(src, i) == TurnOf(c, digit, rest, i + |SpellOne(c)|)
  {
    LiesFront(src, i, SpellOne(c), rest);
    assert src[i] == SpellOne(c)[0];
    if c.Note? {
      assert src[i + 1] == SpellOne(c)[1];
      LiesBoth(src, i, "//", c.text, rest);
      LineEndIs(src, i + 2, c.text, rest);
    } else if c.Break? {
      assert |SpellOne(c)| == 2 ==> src[i + 1] == SpellOne(c)[1];
    }
  }

  lemma {:induction false} RemarkTurn(src: string, i: nat, c: Lexeme, digit: bool, rest: string)
    requires c.Remark? && Fits(c, digit, rest) && Lies(src, i, SpellOne(c), rest)
    ensures i < |src| && TurnAt(src, i) == TurnOf(c, digit, rest, i + |SpellOne(c)|)
  {
    LiesFront(src, i, SpellOne(c), rest);
    assert src[i] == SpellOne(c)[0] && src[i + 1] == SpellOne(c)[1];
    LiesBoth(src, i, "/*", c.text + "*/", rest);
    LiesBoth(src, i + 2, c.text, "*/", rest);
    CommentEndIs(src, i + 2, c.text, rest);
  }

  lemma {:induction false} LiteralTurn(src: string, i: nat, c: Lexeme, digit: bool, rest: string)
    requires (c.Quoted? || c.Raw?) && Fits(c, digit, rest) && Lies(src, i, SpellOne(c), rest)
    ensures i < |src| && TurnAt(src, i) == TurnOf(c, digit, rest, i + |SpellOne(c)|)
  {
    LiesFront(src, i, SpellOne(c), rest);
    assert src[i] == SpellOne(c)[0];
    var q := SpellOne(c)[..1];
    LiesBoth(src, i, q, c.text + q, rest);
    LiesBoth(src, i + 1, c.text, q, rest);
    if c.Quoted? {
      StringIs(src, i + 1, c.text, rest, "");
      assert "" + Plain(c.text) == Plain(c.text);
    } else {
      RawIs(src, i + 1, c.text, rest, "");
      assert "" + Feeds(c.text) == Feeds(c.text);
    }
  }

  lemma {:induction false} WordTurn(src: string, i: nat, c: Lexeme, rest: string)
    requires (c.Name? || c.Cross?) && Fits(c, DigitBefore(src, i), rest) && Lies(src, i, SpellOne(c), rest)
    ensures i < |src| && TurnAt(src, i) == TurnOf(c, DigitBefore(src, i), rest, i + |SpellOne(c)|)
  {
    var t := SpellOne(c);
    LiesFront(src, i, t, rest);
    assert src[i] == t[0];
    assert |t| > 1 ==> src[i + 1] == t[1];
    assert |t| == 1 && rest != "" ==> src[i + 1] == rest[0];
    if c.Name? {
      WordEndIs(src, i, t, rest);
      assert src[i..i + |t|] == t;
    }
  }

  lemma {:induction false} SignTurn(src: string, i: nat, c: Lexeme, digit: bool, rest: string)
    requires c.Sign? && Fits(c, digit, rest) && Lies(src, i, SpellOne(c), rest)
    ensures i < |src| && TurnAt(src, i) == TurnOf(c, digit, rest, i + |SpellOne(c)|)
  {
    LiesFront(src, i, c.text, rest);
    SignIs(src, i, c.text, digit, rest);
    assert src[i] == c.text[0];
    assert |c.text| > 1 ==> src[i + 1] == c.text[1];
    assert |c.text| == 1 && rest != "" ==> src[i + 1] == rest[0];
  }

  lemma {:induction false} DigitTurn(src: string, i: nat, c: Lexeme, digit: bool, rest: string)
    requires c.Number? && Fits(c, digit, rest) && Lies(src, i, SpellOne(c), rest)
    ensures i < |src| && TurnAt(src, i) == TurnOf(c, digit, rest, i + |SpellOne(c)|)
  {
    NumberIs(src, i, c.whole, c.fraction, c.exponent, SpellOne(c), rest);
  }

  lemma {:induction false} TurnIs(src: string, i: nat, c: Lexeme, rest: string)
    requires Fits(c, DigitBefore(src, i), rest) && Lies(src, i, SpellOne(c), rest)
    ensures i < |src| && TurnAt(src, i) == TurnOf(c, DigitBefore(src, i), rest, i + |SpellOne(c)|)
    ensures i + |SpellOne(c)| <= |src|
  {
    var digit := DigitBefore(src, i);
    LiesFront(src, i, SpellOne(c), rest);
    match c
    case Gap(_) => SpaceTurn(src, i, c, digit, rest);
    case Break(_) => SpaceTurn(src, i, c, digit, rest);
    case Note(_) => SpaceTurn(src, i, c, digit, rest);
    case Remark(_) => RemarkTurn(src, i, c, digit, rest);
    case Quoted(_) => LiteralTurn(src, i, c, digit, rest);
    case Raw(_) => LiteralTurn(src, i, c, digit, rest);
    case Number(_, _, _) => DigitTurn(src, i, c, digit, rest);
    case Cross => WordTurn(src, i, c, rest);
    case Name(_) => WordTurn(src, i, c, rest);
    case Sign(_) => SignTurn(src, i, c, digit, rest);
  }

  // ---- whole sources ----

  lemma {:induction false} SpellTo(cs: seq<Lexeme>, i: nat)
    requires i < |cs|
    ensures Spell(cs[..i + 1]) == Spell(cs[..i]) + SpellOne(cs[i])
    decreases i
  {
    if i == 0 {
      assert cs[..1][1..] == [] && cs[..0] == [];
      assert SpellOne(cs[0]) + "" == SpellOne(cs[0]) == "" + SpellOne(cs[0]);
    } else {
      SpellTo(cs[1..], i - 1);
      assert cs[..i + 1][1..] == cs[1..][..i] && cs[..i][1..] == cs[1..][..i - 1];
      Rejoin(SpellOne(cs[0]), Spell(cs[1..][..i - 1]), SpellOne(cs[i]));
    }
  }

  lemma {:induction false} SpellSplits(cs: seq<Lexeme>, i: nat)
    requires i <= |cs|
    ensures Spell(cs) == Spell(cs[..i]) + Spell(cs[i..])
    decreases i
  {
    if i == 0 {
      assert cs[..0] == [] && cs[0..] == cs && "" + Spell(cs) == Spell(cs);
    } else {
      SpellSplits(cs[1..], i - 1);
      assert cs[..i][1..] == cs[1..][..i - 1] && cs[1..][i - 1..] == cs[i..];
      Rejoin(SpellOne(cs[0]), Spell(cs[1..][..i - 1]), Spell(cs[i..]));
    }
  }

  lemma {:induction false} PieceLies(cs: seq<Lexeme>, k: nat)
    requires k < |cs|
    ensures Lies(Spell(cs), |Spell(cs[..k])|, SpellOne(cs[k]), Spell(cs[k + 1..]))
    ensures DigitBefore(Spell(cs), |Spell(cs[..k])|) == EndsInDigit(Spell(cs[..k]))
    ensures |Spell(cs[..k + 1])| == |Spell(cs[..k])| + |SpellOne(cs[k])|
  {
    SpellSplits(cs, k);
    SpellTo(cs, k);
    assert cs[k..][1..] == cs[k + 1..];
    var front := Spell(cs[..k]);
    assert front != "" ==> Spell(cs)[|front| - 1] == front[|front| - 1];
  }

  lemma {:induction false} LexStep(src: string, i: nat, c: Lexeme, digit: bool, rest: string, more: seq<Tok>)
    requires i < |src| && Fits(c, digit, rest) && TurnAt(src, i) == TurnOf(c, digit, rest, i + |SpellOne(c)|)
    requires i + |SpellOne(c)| <= |src| && LexFrom(src, i + |SpellOne(c)|) == Some(more)
    ensures LexFrom(src, i) == Some(TokenOf(c, digit, rest, i) + more)
  {
    assert [] + more == more;
  }

  lemma {:induction false} PieceLexes(src: string, i: nat, c: Lexeme, rest: string, more: seq<Tok>)
    requires Fits(c, DigitBefore(src, i), rest) && Lies(src, i, SpellOne(c), rest)
    requires i + |SpellOne(c)| <= |src| && LexFrom(src, i + |SpellOne(c)|) == Some(more)
    ensures LexFrom(src, i) == Some(TokenOf(c, DigitBefore(src, i), rest, i) + more)
  {
    TurnIs(src, i, c, rest);
    LexStep(src, i, c, DigitBefore(src, i), rest, more);
  }

  lemma {:induction false} LexEnds(cs: seq<Lexeme>)
    ensures LexFrom(Spell(cs), |Spell(cs)|) == Some([Tok(Eof, "", |Spell(cs)|)])
  {
  }

  lemma {:induction false} LexesFrom(cs: seq<Lexeme>, k: nat)
    requires Source(cs) && k <= |cs|
    ensures |Spell(cs[..k])| <= |Spell(cs)| && LexFrom(Spell(cs), |Spell(cs[..k])|) == Some(Tokens(cs, k))
    decreases |cs| - k
  {
    if k == |cs| {
      assert cs[..k] == cs;
      LexEnds(cs);
    } else {
      var src, i := Spell(cs), |Spell(cs[..k])|;
      assert FitsAt(cs, k);
      PieceLies(cs, k);
      LexesFrom(cs, k + 1);
      PieceLexes(src, i, cs[k], Spell(cs[k + 1..]), Tokens(cs, k + 1));
    }
  }

  /** A text lexes to exactly the tokens of the pieces it is made of. */
  lemma {:induction false} LexMeans(cs: seq<Lexeme>)
    requires Source(cs)
    ensures Lex(Spell(cs)) == Some(Tokens(cs, 0))
  {
    assert cs[..0] == [];
    LexesFrom(cs, 0);
  }

  // ---- whatever lexes is made of such pieces ----

  lemma {:induction false} LineSpan(src: string, i: nat)
    requires i <= |src|
    ensures OnOneLine(src[i..LineEnd(src, i)])
    ensures LineEnd(src, i) < |src| ==> IsBreak(src[LineEnd(src, i)])
    decreases |src| - i
  {
    if i < |src| && !IsBreak(src[i]) {
      LineSpan(src, i + 1);
      assert src[i..LineEnd(src, i)] == [src[i]] + src[i + 1..LineEnd(src, i)];
    }
  }

  lemma {:induction false} CommentSpan(src: string, i: nat)
    requires i <= |src| && CommentEnd(src, i).Some?
    ensures var j := CommentEnd(src, i).value;
      && i + 2 <= j && src[j - 2] == '*' && src[j - 1] == '/'
      && forall k :: i <= k < j - 2 ==> src[k] != '*' || src[k + 1] != '/'
    decreases |src| - i
  {
    if src[i] == '*' && i + 1 < |src| && src[i + 1] == '/' {
    } else {
      CommentSpan(src, if IsBreak(src[i]) then PastBreak(src, i) else i + 1);
    }
  }

  lemma {:induction false} StringSpan(src: string, i: nat, sofar: string)
    requires i <= |src| && StringFrom(src, i, sofar).Some?
    ensures var j := StringFrom(src, i, sofar).value.1; i < j && src[j - 1] == '"' && Escapes(src[i..j - 1])
    decreases |src| - i
  {
    if src[i] != '"' {
      var k := if src[i] == '\\' then 2 else 1;
      var c := if src[i] == '\\' then Escaped(src[i + 1]).value else src[i];
      StringSpan(src, i + k, sofar + [c]);
      var t := src[i..StringFrom(src, i, sofar).value.1 - 1];
      assert t[k..] == src[i + k..StringFrom(src, i, sofar).value.1 - 1] && t[0] == src[i];
      assert k == 2 ==> t[1] == src[i + 1];
    }
  }

  lemma {:induction false} RawSpan(src: string, i: nat, sofar: string)
    requires i <= |src| && RawFrom(src, i, sofar).Some?
    ensures var j := RawFrom(src, i, sofar).value.1;
      && i < j && src[j - 1] == '`'
      && forall k :: i <= k < j - 1 ==> src[k] != '`'
    decreases |src| - i
  {
    if src[i] != '`' {
      if IsBreak(src[i]) { RawSpan(src, PastBreak(src, i), sofar + ['\n']); } else { RawSpan(src, i + 1, sofar + [src[i]]); }
    }
  }

  lemma {:induction false} DigitsSpan(src: string, i: nat)
    requires i <= |src|
    ensures var j := DigitsEnd(src, i); (forall k :: i <= k < j ==> Digit(src[k])) && (j < |src| ==> !Digit(src[j]))
    decreases |src| - i
  {
    if i < |src| && IsDigit(src[i]) { DigitsSpan(src, i + 1); }
  }

  lemma {:induction false} WordSpan(src: string, i: nat)
    requires i <= |src|
    ensures var j := WordEnd(src, i);
      (forall k :: i <= k < j ==> Letter(src[k]) || Digit(src[k])) && (j < |src| ==> !Letter(src[j]) && !Digit(src[j]))
    decreases |src| - i
  {
    if i < |src| && IsWordChar(src[i]) { WordSpan(src, i + 1); }
  }

  /** c is the piece from i to j. */
  predicate Covers(src: string, i: nat, j: nat, c: Lexeme) {
    i < j <= |src| && SpellOne(c) == src[i..j] && Fits(c, DigitBefore(src, i), src[j..])
  }

  lemma {:induction false} SkipCovered(src: string, i: nat) returns (c: Lexeme)
    requires i < |src| && TurnAt(src, i).Skip?
    ensures Covers(src, i, TurnAt(src, i).next, c)
  {
    var j := TurnAt(src, i).next;
    if src[i] == ' ' || src[i] == '\t' {
      c := Gap(src[i]);
    } else if src[i + 1] == '/' {
      LineSpan(src, i + 2);
      c := Note(src[i + 2..j]);
    } else {
      CommentSpan(src, i + 2);
      var t := src[i + 2..j - 2];
      c := Remark(t);
      assert forall k :: 0 <= k < |t| ==> t[k] == src[i + 2 + k];
      assert SpellOne(c) == src[i..j];
    }
  }

  lemma {:induction false} Inside(src: string, i: nat, j: nat, q: string)
    requires i + 2 <= j <= |src| && |q| == 1 && src[i] == q[0] && src[j - 1] == q[0]
    ensures q + (src[i + 1..j - 1] + q) == src[i..j]
  {
  }

  lemma {:induction false} QuotedCovered(src: string, i: nat) returns (c: Lexeme)
    requires i < |src| && src[i] == '"' && TurnAt(src, i).Emit?
    ensures Covers(src, i, TurnAt(src, i).next, c)
  {
    var j := TurnAt(src, i).next;
    StringSpan(src, i + 1, "");
    c := Quoted(src[i + 1..j - 1]);
    Inside(src, i, j, "\"");
  }

  lemma {:induction false} RawCovered(src: string, i: nat) returns (c: Lexeme)
    requires i < |src| && src[i] == '`' && TurnAt(src, i).Emit?
    ensures Covers(src, i, TurnAt(src, i).next, c)
  {
    var j := TurnAt(src, i).next;
    RawSpan(src, i + 1, "");
    c := Raw(src[i + 1..j - 1]);
    Inside(src, i, j, "`");
  }

  lemma {:induction false} BreakCovered(src: string, i: nat) returns (c: Lexeme)
    requires i < |src| && IsBreak(src[i])
    ensures TurnAt(src, i).Emit? && Covers(src, i, TurnAt(src, i).next, c)
  {
    var j := PastBreak(src, i);
    c := Break(src[i..j]);
    assert j == i + 1 ==> src[i..j] == [src[i]];
    assert j == i + 2 ==> src[i..j] == [src[i], src[i + 1]];
  }

  lemma {:induction false} FractionSpan(src: string, i: nat)
    requires i <= |src|
    ensures var j := FractionEnd(src, i);
      && IsFraction(src[i..j])
      && (j == i && StartsWith(src[i..], '.') ==> !StartsDigit(src[i + 1..])) && (j > i ==> !StartsDigit(src[j..]))
  {
    var j := FractionEnd(src, i);
    if j > i {
      DigitsSpan(src, i + 1);
      assert src[i..j][1..] == src[i + 1..j];
    }
  }

  lemma {:induction false} DigitsCut(src: string, i: nat, j: nat)
    requires i < j <= |src| && forall k :: i <= k < j ==> Digit(src[k])
    ensures Digits(src[i..j])
  {
  }

  lemma {:induction false} ExponentText(src: string, i: nat, k: nat, j: nat)
    requires i < k < j <= |src| && (src[i] == 'e' || src[i] == 'E') && Digits(src[k..j])
    requires k == i + 1 || (k == i + 2 && (src[i + 1] == '+' || src[i + 1] == '-'))
    ensures IsExponent(src[i..j])
  {
    var e := src[i..j];
    assert e[k - i..] == src[k..j] && e[0] == src[i] && e[1] == src[i + 1];
  }

  lemma {:induction false} ExponentSpan(src: string, i: nat)
    requires i <= |src| && ExponentEnd(src, i).Some?
    ensures var j := ExponentEnd(src, i).value;
      && IsExponent(src[i..j])
      && (j == i ==> !StartsWith(src[i..], 'e') && !StartsWith(src[i..], 'E')) && (j > i ==> !StartsDigit(src[j..]))
  {
    var j := ExponentEnd(src, i).value;
    if j > i {
      var k := if src[i + 1] == '+' || src[i + 1] == '-' then i + 2 else i + 1;
      DigitsSpan(src, k);
      assert j == DigitsEnd(src, k) && k < j;
      DigitsCut(src, k, j);
      ExponentText(src, i, k, j);
    }
  }

  lemma {:induction false} NumberFits(src: string, i: nat, j: nat, k: nat, end: nat)
    requires i < j <= k <= end <= |src| && Digits(src[i..j]) && IsFraction(src[j..k]) && IsExponent(src[k..end])
    requires (j < |src| ==> !Digit(src[j])) && (k > j ==> !StartsDigit(src[k..])) && (end > k ==> !StartsDigit(src[end..]))
    requires k == j && StartsWith(src[j..], '.') ==> !StartsDigit(src[j + 1..])
    requires end == k ==> !StartsWith(src[k..], 'e') && !StartsWith(src[k..], 'E')
    ensures Covers(src, i, end, Number(src[i..j], src[j..k], src[k..end]))
  {
    assert src[i..j] + (src[j..k] + src[k..end]) == src[i..end];
    if k == j && StartsWith(src[j..], '.') { assert src[j..][1..] == src[j + 1..]; }
  }

  lemma {:induction false} NumberCovered(src: string, i: nat) returns (c: Lexeme)
    requires i < |src| && IsDigit(src[i]) && NumberTurn(src, i).Emit?
    ensures Covers(src, i, NumberTurn(src, i).next, c)
  {
    var j := DigitsEnd(src, i);
    var k := FractionEnd(src, j);
    var end := ExponentEnd(src, k).value;
    DigitsSpan(src, i);
    DigitsCut(src, i, j);
    FractionSpan(src, j);
    ExponentSpan(src, k);
    c := Number(src[i..j], src[j..k], src[k..end]);
    NumberFits(src, i, j, k, end);
  }

  lemma {:induction false} WordCovered(src: string, i: nat) returns (c: Lexeme)
    requires i < |src| && IsWordStart(src[i])
    ensures TurnAt(src, i).Emit? && Covers(src, i, TurnAt(src, i).next, c)
  {
    if IsShapeMark(src, i) {
      c := Cross;
    } else {
      WordSpan(src, i);
      c := Name(src[i..WordEnd(src, i)]);
    }
  }

  lemma {:induction false} SignCovered(src: string, i: nat) returns (c: Lexeme)
    requires i < |src| && SymbolTurn(src, i).Emit?
    requires src[i] == '/' && i + 1 < |src| ==> src[i + 1] != '/' && src[i + 1] != '*'
    ensures Covers(src, i, SymbolTurn(src, i).next, c)
  {
    var j := SymbolTurn(src, i).next;
    c := Sign(src[i..j]);
    PairsAgree(src[i..j]);
    if j == i + 1 && j < |src| {
      PairsAgree(src[i..i + 2]);
      assert src[i..j] + src[j..][..1] == src[i..i + 2];
    }
  }

  lemma {:induction false} TurnCovered(src: string, i: nat)
    requires i < |src| && !TurnAt(src, i).Bad?
    ensures exists c :: Covers(src, i, TurnAt(src, i).next, c)
  {
    var c: Lexeme;
    if TurnAt(src, i).Skip? {
      c := SkipCovered(src, i);
    } else if IsBreak(src[i]) {
      c := BreakCovered(src, i);
    } else if src[i] == '"' {
      c := QuotedCovered(src, i);
    } else if src[i] == '`' {
      c := RawCovered(src, i);
    } else if IsDigit(src[i]) {
      c := NumberCovered(src, i);
    } else if IsWordStart(src[i]) {
      c := WordCovered(src, i);
    } else {
      c := SignCovered(src, i);
    }
  }

  /** Like `Source`, for pieces that stand after the text `before`. */
  predicate SourceAfter(before: string, cs: seq<Lexeme>) {
    forall i :: 0 <= i < |cs| ==> Fits(cs[i], EndsInDigit(before + Spell(cs[..i])), Spell(cs[i + 1..]))
  }

  lemma {:induction false} SpellMore(c: Lexeme, cs: seq<Lexeme>, i: nat)
    requires i <= |cs|
    ensures Spell(([c] + cs)[..i + 1]) == SpellOne(c) + Spell(cs[..i])
  {
    assert ([c] + cs)[..i + 1][1..] == cs[..i];
  }

  lemma {:induction false} LaterPiece(before: string, c: Lexeme, cs: seq<Lexeme>, i: nat)
    requires i < |cs| && SourceAfter(before + SpellOne(c), cs)
    ensures Fits(([c] + cs)[i + 1], EndsInDigit(before + Spell(([c] + cs)[..i + 1])), Spell(([c] + cs)[i + 2..]))
  {
    var more := [c] + cs;
    assert more[i + 1] == cs[i] && more[i + 2..] == cs[i + 1..];
    SpellMore(c, cs, i);
    Rejoin(before, SpellOne(c), Spell(cs[..i]));
  }

  lemma {:induction false} OneMore(before: string, c: Lexeme, cs: seq<Lexeme>)
    requires Fits(c, EndsInDigit(before), Spell(cs)) && SourceAfter(before + SpellOne(c), cs)
    ensures SourceAfter(before, [c] + cs) && Spell([c] + cs) == SpellOne(c) + Spell(cs)
  {
    var more := [c] + cs;
    assert more[1..] == cs;
    forall i | 0 <= i < |more| ensures Fits(more[i], EndsInDigit(before + Spell(more[..i])), Spell(more[i + 1..])) {
      if i == 0 {
        assert more[..0] == [] && before + "" == before;
      } else {
        LaterPiece(before, c, cs, i - 1);
      }
    }
  }

  lemma {:induction false} CoveredThen(src: string, i: nat, j: nat, c: Lexeme, cs: seq<Lexeme>)
    requires i < j <= |src| && Covers(src, i, j, c) && SourceAfter(src[..j], cs) && Spell(cs) == src[j..]
    ensures SourceAfter(src[..i], [c] + cs) && Spell([c] + cs) == src[i..]
  {
    ThreeCuts(src, i, j);
    OneMore(src[..i], c, cs);
  }

  lemma {:induction false} ThreeCuts(src: string, i: nat, j: nat)
    requires i <= j <= |src|
    ensures src[..i] + src[i..j] == src[..j] && src[i..j] + src[j..] == src[i..]
    ensures EndsInDigit(src[..i]) == DigitBefore(src, i)
  {
  }

  lemma {:induction false} LexedFrom(src: string, i: nat)
    requires i <= |src| && LexFrom(src, i).Some?
    ensures exists cs :: SourceAfter(src[..i], cs) && Spell(cs) == src[i..]
    decreases |src| - i
  {
    if i == |src| {
      assert SourceAfter(src[..i], []) && Spell([]) == src[i..];
    } else {
      var j := TurnAt(src, i).next;
      TurnCovered(src, i);
      var c :| Covers(src, i, j, c);
      LexedFrom(src, j);
      var cs :| SourceAfter(src[..j], cs) && Spell(cs) == src[j..];
      CoveredThen(src, i, j, c, cs);
    }
  }

  /** A text lexes exactly when it is made of such pieces, and then to their tokens. */
  lemma {:induction false} LexesExactly(src: string, tokens: seq<Tok>)
    ensures Lex(src) == Some(tokens) <==> exists cs :: Source(cs) && Spell(cs) == src && Tokens(cs, 0) == tokens
  {
    if Lex(src) == Some(tokens) {
      LexedFrom(src, 0);
      var cs :| SourceAfter(src[..0], cs) && Spell(cs) == src[0..];
      forall i | 0 <= i < |cs| ensures FitsAt(cs, i) { assert src[..0] + Spell(cs[..i]) == Spell(cs[..i]); }
      LexMeans(cs);
    }
    if cs :| Source(cs) && Spell(cs) == src && Tokens(cs, 0) == tokens { LexMeans(cs); }
  }
}
