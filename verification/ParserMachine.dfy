/** The parser as the program has it: a cursor over the tokens, moved by loops. */
module ParserMachine {
  import opened Wrappers
  import opened ExprSyntax
  import S = ParserSpec

  /** None is a reported syntax error, after which the parser is not used again. */
  class Parser {
    const tokens: seq<Token>
    var pos: nat
    var allowNewlineOps: bool

    ghost predicate Valid() reads this { pos <= |tokens| }

    function Rest(): seq<Token> reads this requires Valid() { tokens[pos..] }

    constructor (tokens: seq<Token>, allowNewlineOps: bool)
      ensures Valid() && Rest() == tokens && this.allowNewlineOps == allowNewlineOps
    {
      this.tokens := tokens;
      pos := 0;
      this.allowNewlineOps := allowNewlineOps;
    }

    /** Agreement with what the specification reads from `was`. */
    ghost predicate Matches<T(!new)>(r: Option<T>, spec: Parsed<T>) reads this {
      && Valid()
      && match spec
         case Fail => r.None?
         case Got(value, rest) => r == Some(value) && Rest() == rest
    }

    function Cur(): (t: Token)
      reads this
      requires Valid()
      ensures t == S.Head(Rest())
    {
      if pos < |tokens| then tokens[pos] else Eof
    }

    method Advance()
      requires Valid() && pos < |tokens|
      modifies this`pos
      ensures Valid() && pos == old(pos) + 1 && Rest() == old(Rest())[1..]
    {
      pos := pos + 1;
    }

    method Match(t: Token) returns (found: bool)
      requires Valid() && t != Eof
      modifies this`pos
      ensures Valid() && found == (S.Head(old(Rest())) == t)
      ensures Rest() == if found then old(Rest())[1..] else old(Rest())
    {
      found := Cur() == t;
      if found { pos := pos + 1; }
    }

    method SkipNewlines()
      requires Valid()
      modifies this`pos
      ensures Valid() && Rest() == S.SkipNewlines(old(Rest()))
    {
      while pos < |tokens| && tokens[pos] == Newline
        invariant Valid() && S.SkipNewlines(Rest()) == S.SkipNewlines(old(Rest()))
        decreases |tokens| - pos
      {
        pos := pos + 1;
      }
    }

    method ParsePrefix() returns (r: Option<Expr>)
      requires Valid()
      modifies this`pos
      ensures Matches(r, S.ParsePrefix(old(Rest()), allowNewlineOps))
      decreases |tokens| - pos, 7
    {
      var atom := AtomOf(Cur());
      if atom.Some? {
        Advance();
        return atom;
      }
      match Cur()
      case DotTok => r := ParsePostfix(Name("e"));
      case StrLit(s) =>
        Advance();
        r := ParsePostfix(Str(s));
      case Ident(s) =>
        Advance();
        r := ParsePostfix(Name(s));
      case Op(Minus) =>
        Advance();
        r := ParseUnary(Negate);
      case BangTok =>
        Advance();
        r := ParseUnary(Bang);
      case LParen =>
        Advance();
        r := ParseGroup();
      case _ => r := None;
    }

    /** A parenthesised expression after its opening parenthesis. */
    method ParseGroup() returns (r: Option<Expr>)
      requires Valid()
      modifies this`pos
      ensures Matches(r, S.ParseGroup(old(Rest()), allowNewlineOps))
      decreases |tokens| - pos, 9
    {
      SkipNewlines();
      var inner := ParseExpression(0);
      if inner.None? { return None; }
      var closed := Match(RParen);
      if !closed { return None; }
      r := ParsePostfix(inner.value);
    }

    method ParseUnary(op: UnOp) returns (r: Option<Expr>)
      requires Valid()
      modifies this`pos
      ensures Matches(r, S.ParseUnary(op, old(Rest()), allowNewlineOps))
      decreases |tokens| - pos, 9
    {
      var inner := ParseExpression(7);
      if inner.None? { return None; }
      r := ParsePostfix(Unary(op, inner.value));
    }

    /** One turn of a loop, as the specification takes it from the same place. */
    ghost predicate Turned(r: Option<Expr>, more: bool, base: Expr, was: seq<Token>, spec: Turn) reads this {
      && Valid()
      && match spec
         case Stop => r == Some(base) && !more && Rest() == was
         case Error => r.None?
         case Go(longer, rest) => r == Some(longer) && more && Rest() == rest
    }

    method ParsePostfix(base: Expr) returns (r: Option<Expr>)
      requires Valid()
      modifies this`pos
      ensures Matches(r, S.ParsePostfix(base, old(Rest()), allowNewlineOps))
      decreases |tokens| - pos, 6
    {
      ghost var spec := S.ParsePostfix(base, Rest(), allowNewlineOps);
      r := Some(base);
      var more := true;
      while more
        invariant Valid() && old(pos) <= pos && r.Some?
        invariant if more then S.ParsePostfix(r.value, Rest(), allowNewlineOps) == spec else spec == Got(r.value, Rest())
        decreases |tokens| - pos, more
      {
        var save := pos;
        SkipNewlines();
        if Cur() != DotTok { pos := save; }
        r, more := ParseOnePostfix(r.value);
        if r.None? { return; }
      }
    }

    /** The body of the postfix loop, past any newlines. */
    method ParseOnePostfix(base: Expr) returns (r: Option<Expr>, more: bool)
      requires Valid()
      modifies this`pos
      ensures Turned(r, more, base, old(Rest()), S.ParseOnePostfix(base, old(Rest()), allowNewlineOps))
      decreases |tokens| - pos, 5
    {
      var called := Match(LParen);
      if called {
        var args := ParseArgs();
        return if args.None? then None else Some(Call(base, args.value)), true;
      }
      var dotted := Match(DotTok);
      if !dotted { return Some(base), false; }
      r := ParseMember(base);
      more := true;
    }

    /** After a dot: a field, a numeric index or a computed read. */
    method ParseMember(base: Expr) returns (r: Option<Expr>)
      requires Valid()
      modifies this`pos
      ensures Matches(r, S.ParseMember(base, old(Rest()), allowNewlineOps))
      decreases |tokens| - pos, 4
    {
      match Cur()
      case IntLit(n) =>
        Advance();
        r := Some(Index(base, Int(n)));
      case LBracket =>
        Advance();
        r := ParseIndex(base);
      case Ident(s) =>
        Advance();
        r := if Cur() == LParen then None else Some(Dot(base, s));
      case _ => r := None;
    }

    method ParseIndex(base: Expr) returns (r: Option<Expr>)
      requires Valid()
      modifies this`pos
      ensures Matches(r, S.ParseIndex(base, old(Rest()), allowNewlineOps))
      decreases |tokens| - pos, 9
    {
      var index := ParseExpression(0);
      if index.None? { return None; }
      var closed := Match(RBracket);
      r := if closed then Some(Index(base, index.value)) else None;
    }

    method ParseArgs() returns (r: Option<seq<Expr>>)
      requires Valid()
      modifies this`pos
      ensures Matches(r, S.ParseArgs(old(Rest()), allowNewlineOps))
      decreases |tokens| - pos, 10
    {
      var done := Match(RParen);
      if done { return Some([]); }
      ghost var spec := S.ParseMoreArgs(Rest(), allowNewlineOps);
      assert spec == Prepend([], spec) by { if spec.Got? { assert [] + spec.value == spec.value; } }
      var args: seq<Expr> := [];
      while true
        invariant Valid() && old(pos) <= pos
        invariant spec == Prepend(args, S.ParseMoreArgs(Rest(), allowNewlineOps))
        decreases |tokens| - pos
      {
        var arg := ParseExpression(0);
        if arg.None? { return None; }
        var more := Match(Comma);
        if more { PrependStep(args, arg.value, S.ParseMoreArgs(Rest(), allowNewlineOps)); }
        args := args + [arg.value];
        if !more { break; }
      }
      var closed := Match(RParen);
      r := if closed then Some(args) else None;
    }

    method ParseExpression(min: nat) returns (r: Option<Expr>)
      requires Valid()
      modifies this`pos
      ensures Matches(r, S.ParseExpr(old(Rest()), min, allowNewlineOps))
      decreases |tokens| - pos, 8
    {
      ghost var spec := S.ParseExpr(Rest(), min, allowNewlineOps);
      r := ParsePrefix();
      if r.None? { return; }
      var more := true;
      while more
        invariant Valid() && old(pos) < pos && r.Some?
        invariant if more then S.ParseLoop(r.value, Rest(), min, allowNewlineOps) == spec else spec == Got(r.value, Rest())
        decreases |tokens| - pos, more
      {
        if allowNewlineOps { SkipNewlines(); }
        r, more := ParseOperator(r.value, min);
        if r.None? { return; }
      }
    }

    /** The body of the precedence loop, past any newlines. */
    method ParseOperator(left: Expr, min: nat) returns (r: Option<Expr>, more: bool)
      requires Valid()
      modifies this`pos
      ensures Turned(r, more, left, old(Rest()), S.ParseOperator(left, old(Rest()), min, allowNewlineOps))
      decreases |tokens| - pos, 5
    {
      r, more := Some(left), false;
      match Cur()
      case ElseTok =>
        if min == 0 {
          Advance();
          var right := ParseExpression(1);
          r, more := if right.None? then None else Some(Else(left, right.value)), true;
        }
      case IsTok =>
        if min == 0 {
          Advance();
          r := ParseIsCheck(left);
          more := true;
        }
      case Arrow => r := None;
      case Op(op) =>
        if Precedence(op) >= min {
          Advance();
          var right := ParseExpression(Precedence(op) + 1);
          r, more := if right.None? then None else Some(Binary(op, left, right.value)), true;
        }
      case _ =>
    }

    method ParseIsPiece(subject: Expr) returns (r: Option<Expr>)
      requires Valid()
      modifies this`pos
      ensures Matches(r, S.ParsePiece(subject, old(Rest()), allowNewlineOps))
      decreases |tokens| - pos, 9
    {
      var op := EqEq;
      var tok := Cur();
      if IsCheckOp(tok) {
        op := tok.op;
        Advance();
      }
      var right := ParseExpression(5);
      if right.None? { return None; }
      r := Some(Binary(op, subject, right.value));
    }

    method ParseIsCheck(subject: Expr) returns (r: Option<Expr>)
      requires Valid()
      modifies this`pos
      ensures Matches(r, S.ParseIs(subject, old(Rest()), allowNewlineOps))
      decreases |tokens| - pos, 10
    {
      r := ParseIsPiece(subject);
      if r.None? { return; }
      var pieces;
      r, pieces := ParseMorePieces(subject, r.value);
      if pieces < 2 { r := None; }
    }

    /** The clauses after the first; `pieces` counts all of them. */
    method ParseMorePieces(subject: Expr, first: Expr) returns (r: Option<Expr>, pieces: nat)
      requires Valid()
      modifies this`pos
      ensures Matches(r, S.ParseMorePieces(subject, first, old(Rest()), allowNewlineOps))
      ensures pieces >= 2 <==> S.Head(old(Rest())) == Op(AndAnd) || S.Head(old(Rest())) == Op(OrOr)
      decreases |tokens| - pos, 11
    {
      var expr := first;
      pieces := 1;
      ghost var spec := S.ParseMorePieces(subject, expr, Rest(), allowNewlineOps);
      while Cur() == Op(AndAnd) || Cur() == Op(OrOr)
        invariant Valid() && old(pos) <= pos && pieces >= 1
        invariant S.ParseMorePieces(subject, expr, Rest(), allowNewlineOps) == spec
        invariant if pieces == 1 then pos == old(pos) else S.Head(old(Rest())) == Op(AndAnd) || S.Head(old(Rest())) == Op(OrOr)
        decreases |tokens| - pos
      {
        var tok := Cur();
        Advance();
        pieces := pieces + 1;
        var right := ParseIsPiece(subject);
        if right.None? { return None, pieces; }
        expr := Binary(tok.op, expr, right.value);
      }
      r := Some(expr);
    }
  }

  lemma {:induction false} PrependStep(args: seq<Expr>, arg: Expr, more: Parsed<seq<Expr>>)
    ensures Prepend(args + [arg], more) == Prepend(args, Prepend([arg], more))
  {
    if more.Got? { assert (args + [arg]) + more.value == args + ([arg] + more.value); }
  }

  function Prepend(args: seq<Expr>, more: Parsed<seq<Expr>>): Parsed<seq<Expr>> {
    match more
    case Fail => Fail
    case Got(others, rest) => Got(args + others, rest)
  }
}
