/** Tokens of a source text, and the escaping that makes a text one string token. */
module Lexing {
  import opened Wrappers

  /** A word is a keyword or a name, as its text says. */
  datatype Kind = Newline | StringLiteral | IntLiteral | FltLiteral | Word | Symbol | Eof

  datatype Tok = Tok(kind: Kind, text: string, start: nat)

  /** One turn of the lexer at an offset. */
  datatype Turn = Skip(next: nat) | Emit(kind: Kind, text: string, next: nat) | Bad

  predicate IsBreak(c: char) { c == '\n' || c == '\r' }

  predicate IsDigit(c: char) { '0' <= c <= '9' }

  predicate IsWordStart(c: char) { 'a' <= c <= 'z' || 'A' <= c <= 'Z' || c == '_' }

  predicate IsWordChar(c: char) { IsWordStart(c) || IsDigit(c) }

  function Char(src: string, i: nat): char { if i < |src| then src[i] else '\0' }

  /** Past the line break at i; a carriage return takes a line feed with it. */
  function PastBreak(src: string, i: nat): (j: nat)
    requires i < |src|
    ensures i < j <= |src|
  {
    if src[i] == '\r' && Char(src, i + 1) == '\n' && i + 1 < |src| then i + 2 else i + 1
  }

  function LineEnd(src: string, i: nat): (j: nat)
    requires i <= |src|
    ensures i <= j <= |src|
    decreases |src| - i
  {
    if i == |src| || IsBreak(src[i]) then i else LineEnd(src, i + 1)
  }

  /** Past the end of a block comment. */
  function CommentEnd(src: string, i: nat): (j: Option<nat>)
    requires i <= |src|
    ensures j.Some? ==> i < j.value <= |src|
    decreases |src| - i
  {
    if i == |src| then None
    else if src[i] == '*' && Char(src, i + 1) == '/' && i + 1 < |src| then Some(i + 2)
    else CommentEnd(src, if IsBreak(src[i]) then PastBreak(src, i) else i + 1)
  }

  function Escaped(e: char): Option<char> {
    if e == '"' then Some('"') else if e == '\\' then Some('\\')
    else if e == 'n' then Some('\n') else if e == 't' then Some('\t') else None
  }

  /** The text of a string literal whose inside starts at i, after `sofar`, and the offset past it. */
  function StringFrom(src: string, i: nat, sofar: string): (r: Option<(string, nat)>)
    requires i <= |src|
    ensures r.Some? ==> i < r.value.1 <= |src|
    decreases |src| - i
  {
    if i == |src| || IsBreak(src[i]) then None
    else if src[i] == '"' then Some((sofar, i + 1))
    else if src[i] == '\\' then
      if i + 1 == |src| || Escaped(src[i + 1]).None? then None
      else StringFrom(src, i + 2, sofar + [Escaped(src[i + 1]).value])
    else StringFrom(src, i + 1, sofar + [src[i]])
  }

  /** Likewise for a raw string: line breaks become line feeds. */
  function RawFrom(src: string, i: nat, sofar: string): (r: Option<(string, nat)>)
    requires i <= |src|
    ensures r.Some? ==> i < r.value.1 <= |src|
    decreases |src| - i
  {
    if i == |src| then None
    else if src[i] == '`' then Some((sofar, i + 1))
    else if IsBreak(src[i]) then RawFrom(src, PastBreak(src, i), sofar + ['\n'])
    else RawFrom(src, i + 1, sofar + [src[i]])
  }

  function DigitsEnd(src: string, i: nat): (j: nat)
    requires i <= |src|
    ensures i <= j <= |src|
    ensures i < |src| && IsDigit(src[i]) ==> i < j
    decreases |src| - i
  {
    if i < |src| && IsDigit(src[i]) then DigitsEnd(src, i + 1) else i
  }

  function FractionEnd(src: string, i: nat): (j: nat)
    requires i <= |src|
    ensures i <= j <= |src|
  {
    if Char(src, i) == '.' && IsDigit(Char(src, i + 1)) && i + 1 < |src| then DigitsEnd(src, i + 1) else i
  }

  /** None when an exponent has no digits. */
  function ExponentEnd(src: string, i: nat): (j: Option<nat>)
    requires i <= |src|
    ensures j.Some? ==> i <= j.value <= |src|
  {
    if i < |src| && (src[i] == 'e' || src[i] == 'E') then
      var k := if i + 1 < |src| && (src[i + 1] == '+' || src[i + 1] == '-') then i + 2 else i + 1;
      if k < |src| && IsDigit(src[k]) then Some(DigitsEnd(src, k)) else None
    else Some(i)
  }

  function WordEnd(src: string, i: nat): (j: nat)
    requires i <= |src|
    ensures i <= j <= |src|
    ensures i < |src| && IsWordChar(src[i]) ==> i < j
    decreases |src| - i
  {
    if i < |src| && IsWordChar(src[i]) then WordEnd(src, i + 1) else i
  }

  /** An `x` between digits and a word or parenthesis separates dimensions. */
  predicate IsShapeMark(src: string, i: nat) {
    i < |src| && src[i] == 'x' && i > 0 && IsDigit(src[i - 1]) && (IsWordChar(Char(src, i + 1)) || Char(src, i + 1) == '(')
  }

  const Pairs := {"->", "++", "+=", "-=", "==", "!=", "<=", ">=", "&&", "||"}
  const Singles := {'(', ')', '[', ']', '{', '}', ':', '=', '+', '-', '*', '/', '%', '!', '<', '>', '|', ',', '.'}

  function NumberTurn(src: string, i: nat): (t: Turn)
    requires i < |src| && IsDigit(src[i])
    ensures t.Emit? ==> i < t.next <= |src|
    ensures !t.Skip?
  {
    var whole := DigitsEnd(src, i);
    var fraction := FractionEnd(src, whole);
    match ExponentEnd(src, fraction)
    case None => Bad
    case Some(end) => Emit(if end == whole then IntLiteral else FltLiteral, src[i..end], end)
  }

  function SymbolTurn(src: string, i: nat): (t: Turn)
    requires i < |src|
    ensures t.Emit? ==> i < t.next <= |src|
    ensures !t.Skip?
  {
    if i + 1 < |src| && src[i..i + 2] in Pairs then Emit(Symbol, src[i..i + 2], i + 2)
    else if src[i] in Singles then Emit(Symbol, [src[i]], i + 1)
    else Bad
  }

  function TextTurn(r: Option<(string, nat)>): Turn { if r.None? then Bad else Emit(StringLiteral, r.value.0, r.value.1) }

  function TurnAt(src: string, i: nat): (t: Turn)
    requires i < |src|
    ensures t.Skip? || t.Emit? ==> i < t.next <= |src|
  {
    var c := src[i];
    if c == ' ' || c == '\t' then Skip(i + 1)
    else if IsBreak(c) then Emit(Newline, "\n", PastBreak(src, i))
    else if c == '/' && i + 1 < |src| && src[i + 1] == '/' then Skip(LineEnd(src, i + 2))
    else if c == '/' && i + 1 < |src| && src[i + 1] == '*' then
      var end := CommentEnd(src, i + 2);
      if end.None? then Bad else Skip(end.value)
    else if c == '"' then TextTurn(StringFrom(src, i + 1, ""))
    else if c == '`' then TextTurn(RawFrom(src, i + 1, ""))
    else if IsDigit(c) then NumberTurn(src, i)
    else if IsShapeMark(src, i) then Emit(Word, "x", i + 1)
    else if IsWordStart(c) then Emit(Word, src[i..WordEnd(src, i)], WordEnd(src, i))
    else SymbolTurn(src, i)
  }

  function LexFrom(src: string, i: nat): Option<seq<Tok>>
    requires i <= |src|
    decreases |src| - i
  {
    if i == |src| then Some([Tok(Eof, "", i)])
    else match TurnAt(src, i)
      case Bad => None
      case Skip(j) => LexFrom(src, j)
      case Emit(kind, text, j) =>
        var rest := LexFrom(src, j);
        if rest.None? then None else Some([Tok(kind, text, i)] + rest.value)
  }

  function Lex(src: string): Option<seq<Tok>> { LexFrom(src, 0) }

  // ---- positions ----

  /** Line and column of an offset, counted over the characters before it. A line feed after a
      carriage return belongs to the break the carriage return made. */
  function Position(src: string, i: nat): (nat, nat)
    requires i <= |src|
  {
    if i == 0 then (1, 1) else
    var (line, col) := Position(src, i - 1);
    if src[i - 1] == '\r' then (line + 1, 1)
    else if src[i - 1] == '\n' then (if i > 1 && src[i - 2] == '\r' then (line, 1) else (line + 1, 1))
    else (line, col + 1)
  }

  // ---- escaping ----

  function Escape(c: char): string {
    if c == '"' then "\\\"" else if c == '\\' then "\\\\" else if c == '\n' then "\\n" else if c == '\t' then "\\t" else [c]
  }

  function EscapeAll(s: string): string { if s == "" then "" else Escape(s[0]) + EscapeAll(s[1..]) }

  function CEscape(s: string): string { "\"" + EscapeAll(s) + "\"" }

  predicate Holds(src: string, i: nat, text: string) { i + |text| <= |src| && src[i..i + |text|] == text }

  lemma {:induction false} HoldsBoth(src: string, i: nat, a: string, b: string)
    requires Holds(src, i, a + b)
    ensures Holds(src, i, a) && Holds(src, i + |a|, b)
  {
    assert src[i..i + |a|] == (a + b)[..|a|];
    assert src[i + |a|..i + |a| + |b|] == (a + b)[|a|..];
  }

  lemma {:induction false} ReadsOneEscape(src: string, i: nat, c: char, sofar: string)
    requires Holds(src, i, Escape(c))
    ensures StringFrom(src, i, sofar) == if c == '\r' then None else StringFrom(src, i + |Escape(c)|, sofar + [c])
  {
    assert src[i] == src[i..i + |Escape(c)|][0];
    if |Escape(c)| == 2 { assert src[i + 1] == src[i..i + 2][1]; }
  }

  lemma {:induction false} ReadsClose(src: string, i: nat, sofar: string)
    requires Holds(src, i, "\"")
    ensures StringFrom(src, i, sofar) == Some((sofar, i + 1))
  {
    assert src[i] == src[i..i + 1][0];
  }

  /** What the rest of the escaped text reads as. */
  function AfterEscapes(i: nat, s: string, sofar: string): Option<(string, nat)> {
    if '\r' in s then None else Some((sofar + s, i + |EscapeAll(s)| + 1))
  }

  lemma {:induction false} AfterOne(i: nat, s: string, sofar: string)
    requires s != "" && s[0] != '\r'
    ensures AfterEscapes(i + |Escape(s[0])|, s[1..], sofar + [s[0]]) == AfterEscapes(i, s, sofar)
  {
    EscapeSplits(s);
  }

  /** A carriage return ends the attempt. */
  lemma {:induction false} ReadsEscapes(src: string, i: nat, s: string, sofar: string)
    requires Holds(src, i, EscapeAll(s) + "\"")
    ensures StringFrom(src, i, sofar) == AfterEscapes(i, s, sofar)
    decreases |s|
  {
    if s == "" {
      assert EscapeAll(s) + "\"" == "\"" && sofar + s == sofar;
      ReadsClose(src, i, sofar);
    } else {
      EscapeSplits(s);
      HoldsBoth(src, i, Escape(s[0]), EscapeAll(s[1..]) + "\"");
      ReadsOneEscape(src, i, s[0], sofar);
      if s[0] != '\r' {
        ReadsEscapes(src, i + |Escape(s[0])|, s[1..], sofar + [s[0]]);
        AfterOne(i, s, sofar);
      }
    }
  }

  lemma {:induction false} EscapeSplits(s: string)
    requires s != ""
    ensures EscapeAll(s) + "\"" == Escape(s[0]) + (EscapeAll(s[1..]) + "\"")
    ensures |EscapeAll(s)| == |Escape(s[0])| + |EscapeAll(s[1..])|
    ensures '\r' in s <==> s[0] == '\r' || '\r' in s[1..]
    ensures forall sofar: string :: (sofar + [s[0]]) + s[1..] == sofar + s
  {
    assert s == [s[0]] + s[1..];
  }

  lemma {:induction false} QuoteTurn(src: string, i: nat)
    requires i < |src| && src[i] == '"'
    ensures TurnAt(src, i) == TextTurn(StringFrom(src, i + 1, ""))
  {
  }

  /** Escaped text lexes as exactly one string token with the text, unless the text holds a
      carriage return; then it does not lex at all. */
  lemma {:induction false} EscapedTextIsOneToken(s: string)
    ensures Lex(CEscape(s)) == if '\r' in s then None else Some([Tok(StringLiteral, s, 0), Tok(Eof, "", |CEscape(s)|)])
  {
    var src := CEscape(s);
    var inside := EscapeAll(s) + "\"";
    assert src == "\"" + inside && src[1..1 + |inside|] == inside && src[0] == '"';
    ReadsEscapes(src, 1, s, "");
    assert "" + s == s;
    QuoteTurn(src, 0);
    if '\r' !in s {
      assert LexFrom(src, |src|) == Some([Tok(Eof, "", |src|)]);
      assert [Tok(StringLiteral, s, 0)] + [Tok(Eof, "", |src|)] == [Tok(StringLiteral, s, 0), Tok(Eof, "", |src|)];
    }
  }
}
