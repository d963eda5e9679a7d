/** The lexer as the program runs it: an offset with its line and column. */
module LexerMachine {
  import opened Wrappers
  import opened Lexing

  datatype Token = Token(kind: Kind, text: string, line: nat, col: nat)

  function Place(src: string, t: Tok): Token {
    var (line, col) := if t.start <= |src| then Position(src, t.start) else (0, 0);
    Token(t.kind, t.text, line, col)
  }

  function PlaceAll(src: string, ts: seq<Tok>): seq<Token> { if ts == [] then [] else [Place(src, ts[0])] + PlaceAll(src, ts[1..]) }

  class Lexer {
    const src: string
    var i: nat
    var line: nat
    var col: nat

    /** The offset is never inside a two-character line break. */
    ghost predicate Valid() reads this {
      && i <= |src| && (line, col) == Position(src, i)
      && !(0 < i < |src| && src[i - 1] == '\r' && src[i] == '\n')
    }

    constructor (src: string)
      ensures Valid() && this.src == src && i == 0
    {
      this.src := src;
      i, line, col := 0, 1, 1;
    }

    method Step()
      requires Valid() && i < |src| && !IsBreak(src[i])
      modifies this
      ensures Valid() && i == old(i) + 1
    {
      i, col := i + 1, col + 1;
    }

    method Break()
      requires Valid() && i < |src| && IsBreak(src[i])
      modifies this
      ensures Valid() && i == PastBreak(src, old(i))
    {
      if src[i] == '\r' && i + 1 < |src| && src[i + 1] == '\n' {
        assert Position(src, i + 1) == (line + 1, 1);
        i := i + 2;
      } else {
        i := i + 1;
      }
      line, col := line + 1, 1;
    }

    method SkipLine()
      requires Valid()
      modifies this
      ensures Valid() && i == LineEnd(src, old(i))
    {
      ghost var end := LineEnd(src, i);
      while i < |src| && !IsBreak(src[i])
        invariant Valid() && LineEnd(src, i) == end
        decreases |src| - i
      {
        Step();
      }
    }

    method SkipComment() returns (ok: bool)
      requires Valid()
      modifies this
      ensures ok <==> CommentEnd(src, old(i)).Some?
      ensures ok ==> Valid() && CommentEnd(src, old(i)) == Some(i)
    {
      ghost var end := CommentEnd(src, i);
      while i < |src| && !(src[i] == '*' && i + 1 < |src| && src[i + 1] == '/')
        invariant Valid() && CommentEnd(src, i) == end
        decreases |src| - i
      {
        if IsBreak(src[i]) { Break(); } else { Step(); }
      }
      if i == |src| { return false; }
      Step();
      Step();
      ok := true;
    }

    /** The inside of a string literal, past the opening quote. */
    method ReadString() returns (text: Option<string>)
      requires Valid()
      modifies this
      ensures text.None? <==> StringFrom(src, old(i), "").None?
      ensures text.Some? ==> Valid() && StringFrom(src, old(i), "") == Some((text.value, i))
    {
      var buf := "";
      ghost var all := StringFrom(src, i, "");
      while i < |src| && src[i] != '"'
        invariant Valid() && StringFrom(src, i, buf) == all
        decreases |src| - i
      {
        if IsBreak(src[i]) { return None; }
        if src[i] == '\\' {
          if i + 1 == |src| { return None; }
          var out := Escaped(src[i + 1]);
          if out.None? { return None; }
          buf := buf + [out.value];
          Step();
          Step();
        } else {
          buf := buf + [src[i]];
          Step();
        }
      }
      if i == |src| { return None; }
      Step();
      text := Some(buf);
    }

    method ReadRaw() returns (text: Option<string>)
      requires Valid()
      modifies this
      ensures text.None? <==> RawFrom(src, old(i), "").None?
      ensures text.Some? ==> Valid() && RawFrom(src, old(i), "") == Some((text.value, i))
    {
      var buf := "";
      ghost var all := RawFrom(src, i, "");
      while i < |src| && src[i] != '`'
        invariant Valid() && RawFrom(src, i, buf) == all
        decreases |src| - i
      {
        if IsBreak(src[i]) {
          buf := buf + ['\n'];
          Break();
        } else {
          buf := buf + [src[i]];
          Step();
        }
      }
      if i == |src| { return None; }
      Step();
      text := Some(buf);
    }

    method SkipDigits()
      requires Valid()
      modifies this
      ensures Valid() && i == DigitsEnd(src, old(i))
    {
      ghost var end := DigitsEnd(src, i);
      while i < |src| && IsDigit(src[i])
        invariant Valid() && DigitsEnd(src, i) == end
        decreases |src| - i
      {
        Step();
      }
    }

    method SkipWord()
      requires Valid()
      modifies this
      ensures Valid() && i == WordEnd(src, old(i))
    {
      ghost var end := WordEnd(src, i);
      while i < |src| && IsWordChar(src[i])
        invariant Valid() && WordEnd(src, i) == end
        decreases |src| - i
      {
        Step();
      }
    }

    method SkipFraction()
      requires Valid()
      modifies this
      ensures Valid() && i == FractionEnd(src, old(i))
    {
      if i + 1 < |src| && src[i] == '.' && IsDigit(src[i + 1]) {
        ghost var dot := i;
        Step();
        SkipDigits();
        assert i == DigitsEnd(src, dot + 1);
      }
    }

    /** False for an exponent without digits. */
    method SkipExponent() returns (ok: bool)
      requires Valid()
      modifies this
      ensures ok <==> ExponentEnd(src, old(i)).Some?
      ensures ok ==> Valid() && ExponentEnd(src, old(i)) == Some(i)
    {
      if i < |src| && (src[i] == 'e' || src[i] == 'E') {
        Step();
        if i < |src| && (src[i] == '+' || src[i] == '-') { Step(); }
        if i == |src| || !IsDigit(src[i]) { return false; }
        SkipDigits();
      }
      ok := true;
    }

    /** One turn: blanks and comments give no token; None is a reported error. */
    method TakeTurn() returns (r: Option<seq<(Kind, string)>>)
      requires Valid() && i < |src|
      modifies this
      ensures match TurnAt(src, old(i))
        case Bad => r.None?
        case Skip(j) => r == Some([]) && Valid() && i == j
        case Emit(kind, text, j) => r == Some([(kind, text)]) && Valid() && i == j
    {
      var c, start := src[i], i;
      if c == ' ' || c == '\t' {
        Step();
        r := Some([]);
      } else if IsBreak(c) {
        Break();
        r := Some([(Newline, "\n")]);
      } else if c == '/' && i + 1 < |src| && src[i + 1] == '/' {
        Step();
        Step();
        SkipLine();
        r := Some([]);
      } else if c == '/' && i + 1 < |src| && src[i + 1] == '*' {
        Step();
        Step();
        var ok := SkipComment();
        r := if ok then Some([]) else None;
      } else if c == '"' {
        Step();
        var text := ReadString();
        r := if text.None? then None else Some([(StringLiteral, text.value)]);
      } else if c == '`' {
        Step();
        var text := ReadRaw();
        r := if text.None? then None else Some([(StringLiteral, text.value)]);
      } else {
        r := PlainTurn();
      }
    }

    method PlainTurn() returns (r: Option<seq<(Kind, string)>>)
      requires Valid() && i < |src| && src[i] !in {' ', '\t', '"', '`'} && !IsBreak(src[i])
      requires !(src[i] == '/' && i + 1 < |src| && (src[i + 1] == '/' || src[i + 1] == '*'))
      modifies this
      ensures match TurnAt(src, old(i))
        case Bad => r.None?
        case Skip(j) => false
        case Emit(kind, text, j) => r == Some([(kind, text)]) && Valid() && i == j
    {
      var c, start := src[i], i;
      if IsDigit(c) {
        SkipDigits();
        var whole := i;
        SkipFraction();
        var ok := SkipExponent();
        if !ok { return None; }
        r := Some([(if i == whole then IntLiteral else FltLiteral, src[start..i])]);
      } else if IsShapeMark(src, i) {
        Step();
        r := Some([(Word, "x")]);
      } else if IsWordStart(c) {
        SkipWord();
        r := Some([(Word, src[start..i])]);
      } else if i + 1 < |src| && src[i..i + 2] in Pairs {
        assert src[i + 1] == src[i..i + 2][1];
        Step();
        Step();
        r := Some([(Symbol, src[start..start + 2])]);
      } else if c in Singles {
        Step();
        r := Some([(Symbol, [c])]);
      } else {
        r := None;
      }
    }

    /** Every token carries the line and column of its first character. */
    method LexAll() returns (r: Option<seq<Token>>)
      requires Valid() && i == 0
      modifies this
      ensures r == var all := Lex(src); if all.None? then None else Some(PlaceAll(src, all.value))
    {
      var tokens: seq<Token> := [];
      ghost var found: seq<Tok> := [];
      AfterNone(Lex(src));
      while i < |src|
        invariant Valid() && tokens == PlaceAll(src, found) && Lex(src) == After(found, LexFrom(src, i))
        decreases |src| - i
      {
        var tokLine, tokCol, start := line, col, i;
        LexStep(src, i, found);
        var turn := TakeTurn();
        if turn.None? { return None; }
        if turn.value != [] {
          var (kind, text) := turn.value[0];
          PlaceOneMore(src, found, Tok(kind, text, start));
          found := found + [Tok(kind, text, start)];
          tokens := tokens + [Token(kind, text, tokLine, tokCol)];
        }
      }
      PlaceOneMore(src, found, Tok(Eof, "", i));
      r := Some(tokens + [Token(Eof, "", line, col)]);
    }
  }

  function After(found: seq<Tok>, rest: Option<seq<Tok>>): Option<seq<Tok>> { if rest.None? then None else Some(found + rest.value) }

  lemma {:induction false} AfterNone(all: Option<seq<Tok>>)
    ensures After([], all) == all
  {
    if all.Some? { assert [] + all.value == all.value; }
  }

  lemma {:induction false} LexStep(src: string, i: nat, found: seq<Tok>)
    requires i < |src|
    ensures After(found, LexFrom(src, i))
            == match TurnAt(src, i)
               case Bad => None
               case Skip(j) => After(found, LexFrom(src, j))
               case Emit(kind, text, j) => After(found + [Tok(kind, text, i)], LexFrom(src, j))
  {
    match TurnAt(src, i)
    case Emit(kind, text, j) =>
      var tok, rest := Tok(kind, text, i), LexFrom(src, j);
      if rest.Some? { assert (found + [tok]) + rest.value == found + ([tok] + rest.value); }
    case _ =>
  }

  lemma {:induction false} PlaceOneMore(src: string, ts: seq<Tok>, t: Tok)
    ensures PlaceAll(src, ts + [t]) == PlaceAll(src, ts) + [Place(src, t)]
  {
    if ts == [] {
      assert ts + [t] == [t] && [t][1..] == [];
    } else {
      assert (ts + [t])[1..] == ts[1..] + [t];
      PlaceOneMore(src, ts[1..], t);
    }
  }
}
