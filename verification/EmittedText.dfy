/** The text generated for numeric and boolean expressions, read back by the lexer and the
    parser: every operator in parentheses, a single space around binary ones. */
module EmittedText {
  import opened Wrappers
  import opened ExprSyntax
  import opened ParserSpec
  import opened ParserProof
  import opened Lexing
  import Json
  import JsonProof

  function OpText(op: BinOp): string {
    match op
    case OrOr => "||" case AndAnd => "&&" case EqEq => "==" case Neq => "!="
    case Lt => "<" case Lte => "<=" case Gt => ">" case Gte => ">="
    case Pipe => "|" case Plus => "+" case Minus => "-"
    case Star => "*" case Slash => "/" case Percent => "%"
  }

  function UnText(op: UnOp): string { match op case Negate => "-" case Bang => "!" }

  function WordText(w: ExprSyntax.Word): string {
    match w case True => "true" case False => "false" case Nil => "NUL" case Init => "INIT"
  }

  function FullText(e: Expr): string
    requires Emitted(e)
  {
    match e
    case Int(n) => Json.Decimal(n)
    case Constant(w) => WordText(w)
    case Name(s) => s
    case Unary(op, x) => "(" + (UnText(op) + (FullText(x) + ")"))
    case Binary(op, l, r) => "(" + (FullText(l) + (" " + (OpText(op) + (" " + (FullText(r) + ")")))))
  }

  // ---- tokens of the parser from tokens of the lexer ----

  const Keywords := {"TYPE", "MAP", "FN", "REF", "TSK", "INIT", "INT", "FLT", "BOL", "STR", "NUL", "ARR", "ret", "if",
                     "elx", "else", "loop", "pass", "throw", "FREE", "hold", "as", "IS", "true", "false"}

  /** None for a word the expression parser of this model does not know. */
  function WordToken(s: string): Option<Token> {
    if s == "true" then Some(WordLit(True))
    else if s == "false" then Some(WordLit(False))
    else if s == "NUL" then Some(WordLit(Nil))
    else if s == "INIT" then Some(WordLit(Init))
    else if s == "else" then Some(ElseTok)
    else if s == "IS" then Some(IsTok)
    else if s in Keywords then None
    else Some(Ident(s))
  }

  function SymbolToken(s: string): Option<Token> {
    match s
    case "||" => Some(Op(OrOr)) case "&&" => Some(Op(AndAnd)) case "==" => Some(Op(EqEq)) case "!=" => Some(Op(Neq))
    case "<" => Some(Op(Lt)) case "<=" => Some(Op(Lte)) case ">" => Some(Op(Gt)) case ">=" => Some(Op(Gte))
    case "|" => Some(Op(Pipe)) case "+" => Some(Op(Plus)) case "-" => Some(Op(Minus))
    case "*" => Some(Op(Star)) case "/" => Some(Op(Slash)) case "%" => Some(Op(Percent))
    case "!" => Some(BangTok) case "->" => Some(Arrow) case "," => Some(Comma) case "." => Some(DotTok)
    case "(" => Some(LParen) case ")" => Some(RParen) case "[" => Some(LBracket) case "]" => Some(RBracket)
    case _ => None
  }

  function TokenOf(kind: Kind, text: string): Option<Token> {
    match kind
    case Newline => Some(ExprSyntax.Newline)
    case StringLiteral => Some(StrLit(text))
    case IntLiteral => if forall k :: 0 <= k < |text| ==> IsDigit(text[k]) then Some(IntLit(Json.DigitsValue(text))) else None
    case FltLiteral => Some(FltLit(text))
    case Word => WordToken(text)
    case Symbol => SymbolToken(text)
    case Eof => Some(ExprSyntax.Eof)
  }

  function Tokens(toks: seq<Tok>): Option<seq<Token>> {
    if toks == [] then Some([])
    else
      var first := TokenOf(toks[0].kind, toks[0].text);
      if first.None? then None else Before(first.value, Tokens(toks[1..]))
  }

  function Before(t: Token, rest: Option<seq<Token>>): Option<seq<Token>> {
    if rest.None? then None else Some([t] + rest.value)
  }

  /** The parser's tokens of a source from an offset on. */
  function TokensFrom(src: string, i: nat): Option<seq<Token>>
    requires i <= |src|
  {
    var toks := LexFrom(src, i);
    if toks.None? then None else Tokens(toks.value)
  }

  /** A whole source as one expression; None when it does not lex, does not parse, or goes on. */
  function ReadExpr(src: string, nl: bool): Option<Expr> {
    var ts := TokensFrom(src, 0);
    if ts.None? then None else
    match ParseExpr(ts.value, 0, nl)
    case Fail => None
    case Got(e, rest) => if rest == [ExprSyntax.Eof] then Some(e) else None
  }

  // ---- names ----

  predicate Identifier(s: string) {
    s != "" && IsWordStart(s[0]) && (forall i :: 0 <= i < |s| ==> IsWordChar(s[i])) && s !in Keywords
  }

  predicate NamesOk(e: Expr) {
    match e
    case Name(s) => Identifier(s)
    case Unary(_, x) => NamesOk(x)
    case Binary(_, l, r) => NamesOk(l) && NamesOk(r)
    case _ => true
  }

  // ---- what stands around a piece of text ----

  predicate Opens(src: string, i: nat) { i <= |src| && (i == 0 || !IsDigit(src[i - 1])) }

  predicate Closes(src: string, i: nat) { i == |src| || (i < |src| && src[i] in {' ', ')'}) }

  function After(ts: seq<Token>, rest: Option<seq<Token>>): Option<seq<Token>> {
    if rest.None? then None else Some(ts + rest.value)
  }

  /** From i the source reads as ts and then as it does from j. */
  ghost predicate Reads(src: string, i: nat, ts: seq<Token>, j: nat) {
    i <= |src| && j <= |src| && TokensFrom(src, i) == After(ts, TokensFrom(src, j))
  }

  lemma {:induction false} OneToken(src: string, i: nat, kind: Kind, text: string, j: nat)
    requires i < |src| && TurnAt(src, i) == Emit(kind, text, j) && TokenOf(kind, text).Some?
    ensures Reads(src, i, [TokenOf(kind, text).value], j)
  {
    var rest := LexFrom(src, j);
    if rest.Some? {
      var toks := [Tok(kind, text, i)] + rest.value;
      assert toks[1..] == rest.value;
    }
  }

  lemma {:induction false} OneSpace(src: string, i: nat)
    requires Holds(src, i, " ")
    ensures Reads(src, i, [], i + 1)
  {
    assert src[i] == src[i..i + 1][0];
    var rest := TokensFrom(src, i + 1);
    if rest.Some? { assert [] + rest.value == rest.value; }
  }

  // ---- single tokens ----

  lemma {:induction false} FirstChar(e: Expr)
    requires Emitted(e) && NamesOk(e)
    ensures FullText(e) != "" && (IsWordChar(FullText(e)[0]) || FullText(e)[0] == '(')
  {
    if e.Int? { JsonProof.DecimalReads(e.n); }
  }

  lemma {:induction false} DigitsHeld(src: string, i: nat, t: string)
    requires Holds(src, i, t) && JsonProof.Digits(t) && Closes(src, i + |t|)
    ensures DigitsEnd(src, i) == i + |t|
    decreases |t|
  {
    if t != "" {
      HoldsBoth(src, i, [t[0]], t[1..]) by { assert [t[0]] + t[1..] == t; }
      assert src[i] == src[i..i + 1][0];
      DigitsHeld(src, i + 1, t[1..]);
    }
  }

  lemma {:induction false} WordHeld(src: string, i: nat, t: string)
    requires Holds(src, i, t) && (forall k :: 0 <= k < |t| ==> IsWordChar(t[k])) && Closes(src, i + |t|)
    ensures WordEnd(src, i) == i + |t|
    decreases |t|
  {
    if t != "" {
      HoldsBoth(src, i, [t[0]], t[1..]) by { assert [t[0]] + t[1..] == t; }
      assert src[i] == src[i..i + 1][0];
      WordHeld(src, i + 1, t[1..]);
    }
  }

  lemma {:induction false} NumberReads(src: string, i: nat, n: nat)
    requires Holds(src, i, Json.Decimal(n)) && Closes(src, i + |Json.Decimal(n)|)
    ensures Reads(src, i, [IntLit(n)], i + |Json.Decimal(n)|)
  {
    var t := Json.Decimal(n);
    JsonProof.DecimalReads(n);
    DigitsHeld(src, i, t);
    NumberTurns(src, i, t);
    OneToken(src, i, IntLiteral, t, i + |t|);
  }

  lemma {:induction false} NumberTurns(src: string, i: nat, t: string)
    requires t != "" && Holds(src, i, t) && IsDigit(t[0]) && DigitsEnd(src, i) == i + |t| && Closes(src, i + |t|)
    ensures TurnAt(src, i) == Emit(IntLiteral, t, i + |t|)
  {
    assert src[i] == src[i..i + |t|][0];
    assert FractionEnd(src, i + |t|) == i + |t| && ExponentEnd(src, i + |t|) == Some(i + |t|);
    assert TurnAt(src, i) == NumberTurn(src, i);
  }

  lemma {:induction false} WordReads(src: string, i: nat, s: string)
    requires s != "" && IsWordStart(s[0]) && (forall k :: 0 <= k < |s| ==> IsWordChar(s[k])) && WordToken(s).Some?
    requires Holds(src, i, s) && Opens(src, i) && Closes(src, i + |s|)
    ensures Reads(src, i, [WordToken(s).value], i + |s|)
  {
    WordHeld(src, i, s);
    assert src[i] == src[i..i + |s|][0];
    assert TurnAt(src, i) == Emit(Word, s, i + |s|);
    OneToken(src, i, Word, s, i + |s|);
  }

  /** A bracket, or an operator with a space or the start of an operand behind it. */
  predicate SymbolAt(src: string, i: nat, s: string, t: Token) {
    && ((|s| == 2 && s in Pairs) || (|s| == 1 && s[0] in Singles))
    && Holds(src, i, s) && SymbolToken(s) == Some(t)
    && (|s| == 1 && s != "(" && s != ")" ==> i + 1 < |src| && (IsWordChar(src[i + 1]) || src[i + 1] in {' ', '('}))
  }

  lemma {:induction false} SymbolReads(src: string, i: nat, s: string, t: Token)
    requires SymbolAt(src, i, s, t)
    ensures Reads(src, i, [t], i + |s|)
  {
    assert src[i] == src[i..i + |s|][0];
    if |s| == 2 { PairTurn(src, i, s); } else { SingleTurn(src, i, s); }
    OneToken(src, i, Symbol, s, i + |s|);
  }

  lemma {:induction false} PairTurn(src: string, i: nat, s: string)
    requires s in Pairs && |s| == 2 && Holds(src, i, s)
    ensures TurnAt(src, i) == Emit(Symbol, s, i + 2)
  {
    assert src[i] == src[i..i + 2][0] && src[i + 1] == src[i..i + 2][1];
  }

  lemma {:induction false} SingleTurn(src: string, i: nat, s: string)
    requires |s| == 1 && s[0] in Singles && Holds(src, i, s)
    requires s != "(" && s != ")" ==> i + 1 < |src| && (IsWordChar(src[i + 1]) || src[i + 1] in {' ', '('})
    ensures TurnAt(src, i) == Emit(Symbol, s, i + 1)
  {
    assert src[i] == src[i..i + 1][0] && s == [src[i]];
    if i + 1 < |src| { NotAPair(src[i], src[i + 1], src[i..i + 2]); }
  }

  lemma {:induction false} NotAPair(c: char, d: char, s: string)
    requires s == [c, d] && c in Singles
    requires c == '(' || c == ')' || IsWordChar(d) || d in {' ', '('}
    ensures s !in Pairs
  {
    assert s[0] == c && s[1] == d;
  }

  // ---- whole expressions ----

  /** What stands behind each offset, as a reader gives it. */
  type Reader = nat -> Option<seq<Token>>

  ghost predicate Spans(f: Reader, i: nat, ts: seq<Token>, j: nat) { f(i) == After(ts, f(j)) }

  /** f takes numbers, words, symbols and spaces of src one at a time. */
  ghost predicate TakesTokens(f: Reader, src: string) {
    && (forall i: nat, n: nat {:trigger NumberAt(src, i, n)} :: NumberAt(src, i, n) ==>
          Spans(f, i, [IntLit(n)], i + |Json.Decimal(n)|))
    && (forall i: nat, s: string {:trigger WordAt(src, i, s)} :: WordAt(src, i, s) ==> Spans(f, i, [WordToken(s).value], i + |s|))
    && (forall i: nat, s: string, t: Token {:trigger SymbolAt(src, i, s, t)} :: SymbolAt(src, i, s, t) ==> Spans(f, i, [t], i + |s|))
    && (forall i: nat {:trigger SpaceAt(src, i)} :: SpaceAt(src, i) ==> Spans(f, i, [], i + 1))
  }

  predicate NumberAt(src: string, i: nat, n: nat) { Holds(src, i, Json.Decimal(n)) && Closes(src, i + |Json.Decimal(n)|) }

  predicate WordAt(src: string, i: nat, s: string) {
    && s != "" && IsWordStart(s[0]) && (forall k :: 0 <= k < |s| ==> IsWordChar(s[k])) && WordToken(s).Some?
    && Holds(src, i, s) && Opens(src, i) && Closes(src, i + |s|)
  }

  predicate SpaceAt(src: string, i: nat) { Holds(src, i, " ") }

  lemma {:induction false} LexerTakesTokens(src: string, f: Reader)
    requires forall i :: 0 <= i <= |src| ==> f(i) == TokensFrom(src, i)
    ensures TakesTokens(f, src)
  {
    forall i: nat, n: nat | NumberAt(src, i, n)
      ensures Spans(f, i, [IntLit(n)], i + |Json.Decimal(n)|)
    {
      NumberReads(src, i, n);
    }
    forall i: nat, s: string | WordAt(src, i, s)
      ensures Spans(f, i, [WordToken(s).value], i + |s|)
    {
      WordReads(src, i, s);
    }
    forall i: nat, s: string, t: Token | SymbolAt(src, i, s, t) ensures Spans(f, i, [t], i + |s|) {
      SymbolReads(src, i, s, t);
    }
    forall i: nat | SpaceAt(src, i) ensures Spans(f, i, [], i + 1) {
      OneSpace(src, i);
    }
  }

  lemma {:induction false} SpansThen(f: Reader, i: nat, ts: seq<Token>, j: nat, us: seq<Token>, k: nat)
    requires Spans(f, i, ts, j) && Spans(f, j, us, k)
    ensures Spans(f, i, ts + us, k)
  {
    var rest := f(k);
    if rest.Some? { assert (ts + us) + rest.value == ts + (us + rest.value); }
  }

  lemma {:induction false} BracketSpans(f: Reader, src: string, i: nat, s: string)
    requires TakesTokens(f, src) && Holds(src, i, s) && (s == "(" || s == ")")
    ensures Spans(f, i, [if s == "(" then LParen else RParen], i + 1)
    ensures if s == "(" then Opens(src, i + 1) else Closes(src, i)
  {
    assert src[i] == src[i..i + 1][0];
    assert SymbolAt(src, i, s, if s == "(" then LParen else RParen);
  }

  lemma {:induction false} UnOpSpans(f: Reader, src: string, i: nat, op: UnOp)
    requires TakesTokens(f, src)
    requires Holds(src, i, UnText(op)) && i + 1 < |src| && (IsWordChar(src[i + 1]) || src[i + 1] == '(')
    ensures Spans(f, i, [UnToken(op)], i + 1) && Opens(src, i + 1)
  {
    assert src[i] == src[i..i + 1][0];
    assert SymbolAt(src, i, UnText(op), UnToken(op));
  }

  lemma {:induction false} OpWritten(op: BinOp)
    ensures var s := OpText(op);
            SymbolToken(s) == Some(Op(op)) && (if |s| == 2 then s in Pairs else |s| == 1 && s[0] in Singles)
    ensures OpText(op) != "(" && OpText(op) != ")"
  {
  }

  /** An operator between two spaces. */
  lemma {:induction false} BinOpSpans(f: Reader, src: string, j: nat, op: BinOp, right: string)
    requires TakesTokens(f, src) && Holds(src, j, " " + (OpText(op) + (" " + right)))
    ensures var k := j + 2 + |OpText(op)|; Spans(f, j, [Op(op)], k) && Holds(src, k, right) && Opens(src, k)
    ensures Closes(src, j)
  {
    var k := j + 1 + |OpText(op)|;
    HoldsBoth(src, j, " ", OpText(op) + (" " + right));
    HoldsBoth(src, j + 1, OpText(op), " " + right);
    HoldsBoth(src, k, " ", right);
    assert src[j] == src[j..j + 1][0] && src[k] == src[k..k + 1][0];
    OpWritten(op);
    assert SpaceAt(src, j) && SpaceAt(src, k) && SymbolAt(src, j + 1, OpText(op), Op(op));
    SpansThen(f, j, [], j + 1, [Op(op)], k);
    SpansThen(f, j, [] + [Op(op)], k, [], k + 1);
    assert [] + [Op(op)] + [] == [Op(op)];
  }

  /** Generated text reads as its tokens, wherever it stands between brackets and spaces. */
  lemma {:induction false} TextSpans(f: Reader, src: string, i: nat, e: Expr)
    requires TakesTokens(f, src) && Emitted(e) && NamesOk(e)
    requires Holds(src, i, FullText(e)) && Opens(src, i) && Closes(src, i + |FullText(e)|)
    ensures Spans(f, i, Full(e), i + |FullText(e)|)
    decreases e, 1
  {
    match e
    case Int(n) => assert NumberAt(src, i, n);
    case Constant(w) => assert WordAt(src, i, WordText(w));
    case Name(s) => assert WordAt(src, i, s);
    case Unary(op, x) => UnarySpans(f, src, i, op, x);
    case Binary(op, l, r) => BinarySpans(f, src, i, op, l, r);
  }

  lemma {:induction false} UnarySpans(f: Reader, src: string, i: nat, op: UnOp, x: Expr)
    requires TakesTokens(f, src) && Emitted(x) && NamesOk(x)
    requires Holds(src, i, FullText(Unary(op, x)))
    ensures Spans(f, i, Full(Unary(op, x)), i + |FullText(Unary(op, x))|)
    decreases Unary(op, x), 0
  {
    var k := i + 2 + |FullText(x)|;
    FirstChar(x);
    UnaryPieces(src, i, op, FullText(x));
    BracketSpans(f, src, i, "(");
    UnOpSpans(f, src, i + 1, op);
    BracketSpans(f, src, k, ")");
    TextSpans(f, src, i + 2, x);
    UnaryJoins(f, i, op, Full(x), k);
  }

  lemma {:induction false} UnaryPieces(src: string, i: nat, op: UnOp, t: string)
    requires Holds(src, i, "(" + (UnText(op) + (t + ")"))) && t != ""
    ensures var k := i + 2 + |t|;
            Holds(src, i, "(") && Holds(src, i + 1, UnText(op)) && Holds(src, i + 2, t) && Holds(src, k, ")") && src[i + 2] == t[0]
  {
    HoldsBoth(src, i, "(", UnText(op) + (t + ")"));
    HoldsBoth(src, i + 1, UnText(op), t + ")");
    HoldsBoth(src, i + 2, t, ")");
    assert src[i + 2] == src[i + 2..i + 2 + |t|][0];
  }

  lemma {:induction false} UnaryJoins(f: Reader, i: nat, op: UnOp, inner: seq<Token>, k: nat)
    requires Spans(f, i, [LParen], i + 1) && Spans(f, i + 1, [UnToken(op)], i + 2)
    requires Spans(f, i + 2, inner, k) && Spans(f, k, [RParen], k + 1)
    ensures Spans(f, i, Paren([UnToken(op)] + inner), k + 1)
  {
    SpansThen(f, i + 1, [UnToken(op)], i + 2, inner, k);
    SpansThen(f, i, [LParen], i + 1, [UnToken(op)] + inner, k);
    SpansThen(f, i, [LParen] + ([UnToken(op)] + inner), k, [RParen], k + 1);
  }

  lemma {:induction false} BinarySpans(f: Reader, src: string, i: nat, op: BinOp, l: Expr, r: Expr)
    requires TakesTokens(f, src) && Emitted(Binary(op, l, r)) && NamesOk(l) && NamesOk(r)
    requires Holds(src, i, FullText(Binary(op, l, r)))
    ensures Spans(f, i, Full(Binary(op, l, r)), i + |FullText(Binary(op, l, r))|)
    decreases Binary(op, l, r), 0
  {
    var j := i + 1 + |FullText(l)|;
    var k := j + 2 + |OpText(op)|;
    BinarySplits(f, src, i, op, FullText(l), FullText(r));
    TextSpans(f, src, i + 1, l);
    TextSpans(f, src, k, r);
    BinaryJoins(f, i, op, Full(l), j, k, Full(r), k + |FullText(r)|);
  }

  lemma {:induction false} BinarySplits(f: Reader, src: string, i: nat, op: BinOp, left: string, right: string)
    requires TakesTokens(f, src) && Holds(src, i, "(" + (left + (" " + (OpText(op) + (" " + (right + ")"))))))
    ensures var j := i + 1 + |left|; var k := j + 2 + |OpText(op)|; var m := k + |right|;
            && Spans(f, i, [LParen], i + 1) && Holds(src, i + 1, left) && Opens(src, i + 1) && Closes(src, j)
            && Spans(f, j, [Op(op)], k) && Holds(src, k, right) && Opens(src, k) && Closes(src, m)
            && Spans(f, m, [RParen], m + 1)
  {
    BinaryPieces(src, i, op, left, right);
    BracketSpans(f, src, i, "(");
    BinOpSpans(f, src, i + 1 + |left|, op, right + ")");
    RightPieces(f, src, i + 3 + |left| + |OpText(op)|, right);
  }

  lemma {:induction false} BinaryPieces(src: string, i: nat, op: BinOp, left: string, right: string)
    requires Holds(src, i, "(" + (left + (" " + (OpText(op) + (" " + (right + ")"))))))
    ensures Holds(src, i, "(") && Holds(src, i + 1, left)
    ensures Holds(src, i + 1 + |left|, " " + (OpText(op) + (" " + (right + ")"))))
  {
    var middle := " " + (OpText(op) + (" " + (right + ")")));
    HoldsBoth(src, i, "(", left + middle);
    HoldsBoth(src, i + 1, left, middle);
  }

  lemma {:induction false} RightPieces(f: Reader, src: string, k: nat, right: string)
    requires TakesTokens(f, src) && Holds(src, k, right + ")")
    ensures Holds(src, k, right) && Closes(src, k + |right|) && Spans(f, k + |right|, [RParen], k + |right| + 1)
  {
    HoldsBoth(src, k, right, ")");
    BracketSpans(f, src, k + |right|, ")");
  }

  lemma {:induction false} BinaryJoins(f: Reader, i: nat, op: BinOp, left: seq<Token>, j: nat, k: nat, right: seq<Token>, m: nat)
    requires Spans(f, i, [LParen], i + 1) && Spans(f, i + 1, left, j) && Spans(f, j, [Op(op)], k)
    requires Spans(f, k, right, m) && Spans(f, m, [RParen], m + 1)
    ensures Spans(f, i, Paren(left + ([Op(op)] + right)), m + 1)
  {
    SpansThen(f, j, [Op(op)], k, right, m);
    SpansThen(f, i + 1, left, j, [Op(op)] + right, m);
    SpansThen(f, i, [LParen], i + 1, left + ([Op(op)] + right), m);
    SpansThen(f, i, [LParen] + (left + ([Op(op)] + right)), m, [RParen], m + 1);
  }

  lemma {:induction false} EndReads(src: string)
    ensures TokensFrom(src, |src|) == Some([ExprSyntax.Eof])
  {
    var end := [Tok(Kind.Eof, "", |src|)];
    assert LexFrom(src, |src|) == Some(end) && end[1..] == [];
    assert Tokens(end) == Before(ExprSyntax.Eof, Tokens([]));
    assert [ExprSyntax.Eof] + [] == [ExprSyntax.Eof];
  }

  /** The whole text lexes as the fully parenthesised tokens and the end of the source. */
  lemma {:induction false} LexInvertsFullText(e: Expr)
    requires Emitted(e) && NamesOk(e)
    ensures TokensFrom(FullText(e), 0) == Some(Full(e) + [ExprSyntax.Eof])
  {
    var src := FullText(e);
    var f: Reader := (i: nat) => if i <= |src| then TokensFrom(src, i) else None;
    LexerTakesTokens(src, f);
    assert Holds(src, 0, src) by { assert src[0..|src|] == src; }
    TextSpans(f, src, 0, e);
    EndReads(src);
  }

  /** From text to tree: lexing and parsing the text of a numeric or boolean expression gives
      the expression back, whether or not operators may start lines. */
  lemma {:induction false} ReadInvertsFullText(e: Expr, nl: bool)
    requires Emitted(e) && NamesOk(e)
    ensures ReadExpr(FullText(e), nl) == Some(e)
  {
    LexInvertsFullText(e);
    ParseInvertsFull(e, [ExprSyntax.Eof], nl);
  }

  /** So different expressions have different text. */
  lemma {:induction false} FullTextIsInjective(e: Expr, f: Expr)
    requires Emitted(e) && NamesOk(e) && Emitted(f) && NamesOk(f) && FullText(e) == FullText(f)
    ensures e == f
  {
    ReadInvertsFullText(e, false);
    ReadInvertsFullText(f, false);
  }
}
