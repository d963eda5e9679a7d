/** The parser as functions on the remaining tokens. `nl` is the flag that lets operators
    stand on later lines. */
module ParserSpec {
  import opened Wrappers
  import opened ExprSyntax

  function SkipNewlines(ts: seq<Token>): (r: seq<Token>)
    ensures |r| <= |ts|
    ensures r != [] ==> r[0] != Newline
  {
    if ts != [] && ts[0] == Newline then SkipNewlines(ts[1..]) else ts
  }

  function Head(ts: seq<Token>): Token { if ts == [] then Eof else ts[0] }

  /** The operand of an expression; a leading dot reads from the element `e`. */
  function ParsePrefix(ts: seq<Token>, nl: bool): (r: Parsed<Expr>)
    ensures r.Got? ==> |r.rest| < |ts|
    decreases |ts|, 7
  {
    if AtomOf(Head(ts)).Some? then Got(AtomOf(Head(ts)).value, ts[1..]) else
    match Head(ts)
    case DotTok => ParsePostfix(Name("e"), ts, nl)
    case StrLit(s) => ParsePostfix(Str(s), ts[1..], nl)
    case Ident(s) => ParsePostfix(Name(s), ts[1..], nl)
    case Op(Minus) => ParseUnary(Negate, ts[1..], nl)
    case BangTok => ParseUnary(Bang, ts[1..], nl)
    case LParen => ParseGroup(ts[1..], nl)
    case _ => Fail
  }

  function ParseGroup(ts: seq<Token>, nl: bool): (r: Parsed<Expr>)
    ensures r.Got? ==> |r.rest| < |ts|
    decreases |ts|, 9
  {
    var inner := ParseExpr(SkipNewlines(ts), 0, nl);
    if inner.Fail? || Head(inner.rest) != RParen then Fail
    else ParsePostfix(inner.value, inner.rest[1..], nl)
  }

  function ParseUnary(op: UnOp, ts: seq<Token>, nl: bool): (r: Parsed<Expr>)
    ensures r.Got? ==> |r.rest| < |ts|
    decreases |ts|, 9
  {
    var inner := ParseExpr(ts, 7, nl);
    if inner.Fail? then Fail else ParsePostfix(Unary(op, inner.value), inner.rest, nl)
  }

  /** Calls, field reads and computed reads after a value; a dot may start a later line. */
  function ParsePostfix(base: Expr, ts: seq<Token>, nl: bool): (r: Parsed<Expr>)
    ensures r.Got? ==> |r.rest| <= |ts| && (Head(ts) == DotTok ==> |r.rest| < |ts|)
    decreases |ts|, 6
  {
    var at := PostfixStart(ts);
    match ParseOnePostfix(base, at, nl)
    case Stop => Got(base, at)
    case Error => Fail
    case Go(longer, rest) => ParsePostfix(longer, rest, nl)
  }

  function PostfixStart(ts: seq<Token>): (at: seq<Token>)
    ensures |at| <= |ts|
  {
    if Head(SkipNewlines(ts)) == DotTok then SkipNewlines(ts) else ts
  }

  function ParseOnePostfix(base: Expr, ts: seq<Token>, nl: bool): (r: Turn)
    ensures r.Go? ==> |r.rest| < |ts|
    decreases |ts|, 5
  {
    if Head(ts) == LParen then
      var args := ParseArgs(ts[1..], nl);
      if args.Fail? then Error else Go(Call(base, args.value), args.rest)
    else if Head(ts) == DotTok then AsTurn(ParseMember(base, ts[1..], nl))
    else Stop
  }

  /** After a dot: a field, a computed read or a numeric index. A name that is called is a
      method call, outside this model. */
  function ParseMember(base: Expr, ts: seq<Token>, nl: bool): (r: Parsed<Expr>)
    ensures r.Got? ==> |r.rest| < |ts|
    decreases |ts|, 4
  {
    match Head(ts)
    case Ident(s) => if Head(ts[1..]) == LParen then Fail else Got(Dot(base, s), ts[1..])
    case LBracket => ParseIndex(base, ts[1..], nl)
    case IntLit(n) => Got(Index(base, Int(n)), ts[1..])
    case _ => Fail
  }

  function ParseIndex(base: Expr, ts: seq<Token>, nl: bool): (r: Parsed<Expr>)
    ensures r.Got? ==> |r.rest| < |ts|
    decreases |ts|, 9
  {
    var index := ParseExpr(ts, 0, nl);
    if index.Fail? || Head(index.rest) != RBracket then Fail else Got(Index(base, index.value), index.rest[1..])
  }

  /** Call arguments up to and including the closing parenthesis. */
  function ParseArgs(ts: seq<Token>, nl: bool): (r: Parsed<seq<Expr>>)
    ensures r.Got? ==> |r.rest| < |ts|
    decreases |ts|, 10
  {
    if Head(ts) == RParen then Got([], ts[1..]) else ParseMoreArgs(ts, nl)
  }

  function ParseMoreArgs(ts: seq<Token>, nl: bool): (r: Parsed<seq<Expr>>)
    ensures r.Got? ==> |r.rest| < |ts|
    decreases |ts|, 9
  {
    var first := ParseExpr(ts, 0, nl);
    if first.Fail? then Fail
    else if Head(first.rest) == Comma then
      var others := ParseMoreArgs(first.rest[1..], nl);
      if others.Fail? then Fail else Got([first.value] + others.value, others.rest)
    else if Head(first.rest) == RParen then Got([first.value], first.rest[1..])
    else Fail
  }

  function ParseExpr(ts: seq<Token>, min: nat, nl: bool): (r: Parsed<Expr>)
    ensures r.Got? ==> |r.rest| < |ts|
    decreases |ts|, 8
  {
    var left := ParsePrefix(ts, nl);
    if left.Fail? then Fail else ParseLoop(left.value, left.rest, min, nl)
  }

  function ParseLoop(left: Expr, ts: seq<Token>, min: nat, nl: bool): (r: Parsed<Expr>)
    ensures r.Got? ==> |r.rest| <= |ts|
    decreases |ts|, 6
  {
    var at := if nl then SkipNewlines(ts) else ts;
    match ParseOperator(left, at, min, nl)
    case Stop => Got(left, at)
    case Error => Fail
    case Go(longer, rest) => ParseLoop(longer, rest, min, nl)
  }

  function ParseOperator(left: Expr, ts: seq<Token>, min: nat, nl: bool): (r: Turn)
    ensures r.Go? ==> |r.rest| < |ts|
    decreases |ts|, 5
  {
    match Head(ts)
    case ElseTok =>
      if min > 0 then Stop else
      var right := ParseExpr(ts[1..], 1, nl);
      if right.Fail? then Error else Go(Else(left, right.value), right.rest)
    case IsTok => if min > 0 then Stop else AsTurn(ParseIs(left, ts[1..], nl))
    case Arrow => Error
    case Op(op) =>
      if Precedence(op) < min then Stop else
      var right := ParseExpr(ts[1..], Precedence(op) + 1, nl);
      if right.Fail? then Error else Go(Binary(op, left, right.value), right.rest)
    case _ => Stop
  }

  /** One clause of an IS check: an optional comparison, then a value above comparisons. */
  function ParsePiece(subject: Expr, ts: seq<Token>, nl: bool): (r: Parsed<Expr>)
    ensures r.Got? ==> |r.rest| < |ts|
    decreases |ts|, 9
  {
    var op := if IsCheckOp(Head(ts)) then Head(ts).op else EqEq;
    var right := ParseExpr(if IsCheckOp(Head(ts)) then ts[1..] else ts, 5, nl);
    if right.Fail? then Fail else Got(Binary(op, subject, right.value), right.rest)
  }

  function ParseIs(subject: Expr, ts: seq<Token>, nl: bool): (r: Parsed<Expr>)
    ensures r.Got? ==> |r.rest| < |ts|
    decreases |ts|, 10
  {
    var first := ParsePiece(subject, ts, nl);
    if first.Fail? then Fail
    else if Head(first.rest) == Op(AndAnd) || Head(first.rest) == Op(OrOr)
    then ParseMorePieces(subject, first.value, first.rest, nl)
    else Fail
  }

  function ParseMorePieces(subject: Expr, sofar: Expr, ts: seq<Token>, nl: bool): (r: Parsed<Expr>)
    ensures r.Got? ==> |r.rest| <= |ts|
    decreases |ts|, 3
  {
    if Head(ts) == Op(AndAnd) || Head(ts) == Op(OrOr) then
      var next := ParsePiece(subject, ts[1..], nl);
      if next.Fail? then Fail
      else ParseMorePieces(subject, Binary(ts[0].op, sofar, next.value), next.rest, nl)
    else Got(sofar, ts)
  }
}
