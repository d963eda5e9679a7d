/** Printing with the fewest parentheses, and the proof that parsing gives the tree back. */
module ParserProof {
  import opened ExprSyntax
  import opened ParserSpec

  /** How tightly the outermost construct of e binds. */
  function Level(e: Expr): nat {
    match e
    case Binary(op, _, _) => Precedence(op)
    case Else(_, _) => 0
    case Unary(_, _) => 7
    case _ => 8
  }

  function UnToken(op: UnOp): Token { match op case Negate => Op(Minus) case Bang => BangTok }

  function Paren(ts: seq<Token>): seq<Token> { [LParen] + ts + [RParen] }

  /** e where an operand binding at least as tightly as `min` is expected. */
  function Show(e: Expr, min: nat): seq<Token>
    decreases e, 1
  {
    if Level(e) < min then Paren(Body(e)) else Body(e)
  }

  function Body(e: Expr): seq<Token>
    decreases e, 0
  {
    match e
    case Int(n) => [IntLit(n)]
    case Flt(t) => [FltLit(t)]
    case Constant(w) => [WordLit(w)]
    case Str(s) => [StrLit(s)]
    case Name(s) => [Ident(s)]
    case Unary(op, x) => [UnToken(op)] + Show(x, 7)
    case Binary(op, l, r) => Show(l, Precedence(op)) + ([Op(op)] + Show(r, Precedence(op) + 1))
    case Else(l, r) => Show(l, 0) + ([ElseTok] + Show(r, 1))
    case Call(f, args) => ShowBase(f, true) + ([LParen] + ShowArgs(args))
    case Dot(b, s) => ShowBase(b, false) + [DotTok, Ident(s)]
    case Index(b, i) => ShowBase(b, false) + ([DotTok, LBracket] + (Show(i, 0) + [RBracket]))
  }

  /** Values that postfix operators attach to without parentheses; a field read that is
      called would read as a method call. */
  predicate Bare(b: Expr, called: bool) { b.Name? || b.Str? || b.Call? || b.Index? || (b.Dot? && !called) }

  function ShowBase(b: Expr, called: bool): seq<Token>
    decreases b, 1
  {
    if Bare(b, called) then Body(b) else Paren(Body(b))
  }

  function ShowArgs(args: seq<Expr>): seq<Token>
    decreases args, 0
  {
    if args == [] then [RParen]
    else Show(args[0], 0) + (if |args| == 1 then [RParen] else [Comma] + ShowArgs(args[1..]))
  }

  // ---- what may come after ----

  function At(ts: seq<Token>, nl: bool): seq<Token> { if nl then SkipNewlines(ts) else ts }

  /** `rest` ends an operand of level m: no postfix operator, no tighter operator. */
  predicate Follow(rest: seq<Token>, m: nat, nl: bool) {
    && Head(rest) != LParen && Head(At(rest, nl)) != LParen
    && Head(SkipNewlines(rest)) != DotTok
    && Head(At(rest, nl)) != Arrow
    && TokenPrecedence(Head(At(rest, nl))) <= m
  }

  lemma {:induction false} SkipTwice(ts: seq<Token>)
    ensures SkipNewlines(SkipNewlines(ts)) == SkipNewlines(ts)
    decreases ts
  {
    if ts != [] && ts[0] == Newline { SkipTwice(ts[1..]); }
  }

  lemma {:induction false} LoopSkips(left: Expr, ts: seq<Token>, min: nat, nl: bool)
    ensures ParseLoop(left, At(ts, nl), min, nl) == ParseLoop(left, ts, min, nl)
  {
    SkipTwice(ts);
  }

  /** A finished operand stops the loop. */
  lemma {:induction false} LoopStops(left: Expr, rest: seq<Token>, m: nat, min: nat, nl: bool)
    requires Follow(rest, m, nl) && m < min
    ensures ParseLoop(left, rest, min, nl) == Got(left, At(rest, nl))
  {
  }

  lemma {:induction false} PostfixStops(base: Expr, rest: seq<Token>, m: nat, nl: bool)
    requires Follow(rest, m, nl)
    ensures ParsePostfix(base, rest, nl) == Got(base, rest)
    ensures ParsePostfix(base, At(rest, nl), nl) == Got(base, At(rest, nl))
  {
    SkipTwice(rest);
  }

  lemma {:induction false} StartsPlain(e: Expr, rest: seq<Token>)
    ensures Body(e) != [] && Body(e)[0] != Newline && Body(e)[0] != RParen && !IsCheckOp(Body(e)[0])
    ensures SkipNewlines(Body(e) + rest) == Body(e) + rest
  {
    match e
    case Binary(op, l, _) => StartsPlain(l, []);
    case Else(l, _) => StartsPlain(l, []);
    case Call(f, _) => StartsPlain(f, []);
    case Dot(b, _) => StartsPlain(b, []);
    case Index(b, _) => StartsPlain(b, []);
    case _ =>
  }

  // ---- single steps of the parser ----

  lemma {:induction false} Front(t: Token, rest: seq<Token>)
    ensures Head([t] + rest) == t && ([t] + rest)[1..] == rest
    ensures t != Newline ==> SkipNewlines([t] + rest) == [t] + rest
  {
  }

  /** A closing token or an operator may follow an operand that binds at least as tightly. */
  lemma {:induction false} Follows(t: Token, rest: seq<Token>, m: nat, nl: bool)
    requires t in {RParen, RBracket, Comma} || (t.Op? && Precedence(t.op) <= m)
    ensures Follow([t] + rest, m, nl)
  {
    Front(t, rest);
  }

  lemma {:induction false} OperandStep(ts: seq<Token>, e: Expr, rest: seq<Token>, min: nat, nl: bool)
    requires ParsePrefix(ts, nl) == Got(e, rest)
    ensures ParseExpr(ts, min, nl) == ParseLoop(e, rest, min, nl)
  {
  }

  lemma {:induction false} GroupStep(inner: seq<Token>, e: Expr, rest: seq<Token>, nl: bool)
    requires SkipNewlines(inner) == inner && ParseExpr(inner, 0, nl) == Got(e, [RParen] + rest)
    ensures ParsePrefix([LParen] + inner, nl) == ParsePostfix(e, rest, nl)
  {
    Front(LParen, inner);
    Front(RParen, rest);
    assert ParseGroup(inner, nl) == ParsePostfix(e, rest, nl);
  }

  lemma {:induction false} UnaryStep(op: UnOp, ts: seq<Token>, x: Expr, rest: seq<Token>, nl: bool)
    requires ParseExpr(ts, 7, nl) == Got(x, rest)
    ensures ParsePrefix([UnToken(op)] + ts, nl) == ParsePostfix(Unary(op, x), rest, nl)
  {
    Front(UnToken(op), ts);
    assert ParseUnary(op, ts, nl) == ParsePostfix(Unary(op, x), rest, nl);
  }

  lemma {:induction false} CallStep(f: Expr, values: seq<Expr>, args: seq<Token>, rest: seq<Token>, nl: bool)
    requires ParseArgs(args, nl) == Got(values, rest)
    ensures ParsePostfix(f, [LParen] + args, nl) == ParsePostfix(Call(f, values), rest, nl)
  {
    Front(LParen, args);
    assert ParseOnePostfix(f, [LParen] + args, nl) == Go(Call(f, values), rest);
  }

  lemma {:induction false} MemberStep(b: Expr, ts: seq<Token>, e: Expr, rest: seq<Token>, nl: bool)
    requires ParseMember(b, ts, nl) == Got(e, rest)
    ensures ParsePostfix(b, [DotTok] + ts, nl) == ParsePostfix(e, rest, nl)
  {
    Front(DotTok, ts);
    assert ParseOnePostfix(b, [DotTok] + ts, nl) == Go(e, rest);
  }

  lemma {:induction false} OperatorStep(op: BinOp, l: Expr, right: seq<Token>, r: Expr, rest: seq<Token>, min: nat, nl: bool)
    requires min <= Precedence(op) && ParseExpr(right, Precedence(op) + 1, nl) == Got(r, rest)
    ensures ParseLoop(l, [Op(op)] + right, min, nl) == ParseLoop(Binary(op, l, r), rest, min, nl)
  {
    Front(Op(op), right);
    assert ParseOperator(l, [Op(op)] + right, min, nl) == Go(Binary(op, l, r), rest);
  }

  lemma {:induction false} ElseStep(l: Expr, right: seq<Token>, r: Expr, rest: seq<Token>, nl: bool)
    requires ParseExpr(right, 1, nl) == Got(r, rest)
    ensures ParseLoop(l, [ElseTok] + right, 0, nl) == ParseLoop(Else(l, r), rest, 0, nl)
  {
    Front(ElseTok, right);
    assert ParseOperator(l, [ElseTok] + right, 0, nl) == Go(Else(l, r), rest);
  }

  lemma {:induction false} IsStep(subject: Expr, clauses: seq<Token>, check: Expr, rest: seq<Token>, nl: bool)
    requires ParseIs(subject, clauses, nl) == Got(check, rest)
    ensures ParseLoop(subject, [IsTok] + clauses, 0, nl) == ParseLoop(check, rest, 0, nl)
  {
    Front(IsTok, clauses);
    assert ParseOperator(subject, [IsTok] + clauses, 0, nl) == Go(check, rest);
  }

  /** A closing token ends an expression. */
  lemma {:induction false} CloseStops(e: Expr, t: Token, rest: seq<Token>, min: nat, nl: bool)
    requires t in {RParen, RBracket, Comma}
    ensures ParseLoop(e, [t] + rest, min, nl) == Got(e, [t] + rest)
  {
    Front(t, rest);
    assert ParseOperator(e, [t] + rest, min, nl) == Stop;
  }

  // ---- reading back ----

  /** A value that takes postfix operators, followed by anything. */
  lemma {:induction false} ReadsChain(e: Expr, rest: seq<Token>, nl: bool)
    requires Bare(e, false) && (e.Dot? ==> Head(rest) != LParen)
    ensures ParsePrefix(Body(e) + rest, nl) == ParsePostfix(e, rest, nl)
    decreases e, 1
  {
    match e
    case Name(_) => assert (Body(e) + rest)[1..] == rest;
    case Str(_) => assert (Body(e) + rest)[1..] == rest;
    case Call(_, _) => ReadsCall(e, rest, nl);
    case Dot(_, _) => ReadsDot(e, rest, nl);
    case Index(_, _) => ReadsIndex(e, rest, nl);
  }

  lemma {:induction false} ReadsCall(e: Expr, rest: seq<Token>, nl: bool)
    requires e.Call?
    ensures ParsePrefix(Body(e) + rest, nl) == ParsePostfix(e, rest, nl)
    decreases e, 0
  {
    var args := ShowArgs(e.args) + rest;
    var tail := [LParen] + args;
    assert Body(e) + rest == ShowBase(e.callee, true) + tail;
    ReadsBase(e.callee, true, tail, nl);
    ReadsArgs(e.args, rest, nl);
    CallStep(e.callee, e.args, args, rest, nl);
  }

  lemma {:induction false} ReadsDot(e: Expr, rest: seq<Token>, nl: bool)
    requires e.Dot? && Head(rest) != LParen
    ensures ParsePrefix(Body(e) + rest, nl) == ParsePostfix(e, rest, nl)
    decreases e, 0
  {
    var tail := [DotTok] + ([Ident(e.field)] + rest);
    assert Body(e) + rest == ShowBase(e.base, false) + tail;
    ReadsBase(e.base, false, tail, nl);
    Front(Ident(e.field), rest);
    MemberStep(e.base, [Ident(e.field)] + rest, e, rest, nl);
  }

  lemma {:induction false} ReadsIndex(e: Expr, rest: seq<Token>, nl: bool)
    requires e.Index?
    ensures ParsePrefix(Body(e) + rest, nl) == ParsePostfix(e, rest, nl)
    decreases e, 0
  {
    var close := [RBracket] + rest;
    var inner := Show(e.index, 0) + close;
    var tail := [DotTok] + ([LBracket] + inner);
    assert Body(e) + rest == ShowBase(e.base, false) + tail;
    ReadsBase(e.base, false, tail, nl);
    ReadsClosed(e.index, RBracket, rest, nl);
    Front(LBracket, inner);
    Front(RBracket, rest);
    MemberStep(e.base, [LBracket] + inner, e, rest, nl);
  }

  /** A whole expression in front of a closing token. */
  lemma {:induction false} ReadsClosed(e: Expr, t: Token, rest: seq<Token>, nl: bool)
    requires t in {RParen, RBracket, Comma}
    ensures ParseExpr(Show(e, 0) + ([t] + rest), 0, nl) == Got(e, [t] + rest)
    decreases e, 5
  {
    Front(t, rest);
    Reads(e, 0, 0, [t] + rest, nl);
    CloseStops(e, t, rest, 0, nl);
  }

  lemma {:induction false} ReadsBase(b: Expr, called: bool, rest: seq<Token>, nl: bool)
    requires !called ==> Head(rest) != LParen
    ensures ParsePrefix(ShowBase(b, called) + rest, nl) == ParsePostfix(b, rest, nl)
    decreases b, 4
  {
    if Bare(b, called) { ReadsChain(b, rest, nl); } else { ReadsParen(b, rest, nl); }
  }

  lemma {:induction false} ReadsParen(e: Expr, rest: seq<Token>, nl: bool)
    ensures ParsePrefix(Paren(Body(e)) + rest, nl) == ParsePostfix(e, rest, nl)
    decreases e, 3
  {
    var close := [RParen] + rest;
    assert Paren(Body(e)) + rest == [LParen] + (Body(e) + close);
    StartsPlain(e, close);
    Front(RParen, rest);
    ReadsBody(e, 0, 0, close, nl);
    CloseStops(e, RParen, rest, 0, nl);
    GroupStep(Body(e) + close, e, rest, nl);
  }

  lemma {:induction false} ReadsArgs(args: seq<Expr>, rest: seq<Token>, nl: bool)
    ensures ParseArgs(ShowArgs(args) + rest, nl) == Got(args, rest)
    decreases args, 1
  {
    if args == [] {
      assert ([RParen] + rest)[1..] == rest;
    } else {
      ArgsStart(args, rest);
      ReadsMoreArgs(args, rest, nl);
    }
  }

  lemma {:induction false} ArgsStart(args: seq<Expr>, rest: seq<Token>)
    requires args != []
    ensures ShowArgs(args) != [] && Head(ShowArgs(args) + rest) != RParen
  {
    StartsPlain(args[0], []);
  }

  lemma {:induction false} ReadsMoreArgs(args: seq<Expr>, rest: seq<Token>, nl: bool)
    requires args != []
    ensures ParseMoreArgs(ShowArgs(args) + rest, nl) == Got(args, rest)
    decreases args, 0
  {
    var others := args[1..];
    var mark, tail := if others == [] then RParen else Comma, (if others == [] then [] else ShowArgs(others)) + rest;
    assert ShowArgs(args) + rest == Show(args[0], 0) + ([mark] + tail);
    ReadsClosed(args[0], mark, tail, nl);
    Front(mark, tail);
    if others == [] { assert tail == rest; } else { ReadsMoreArgs(others, rest, nl); }
    MoreArgsStep(args, ShowArgs(args) + rest, [mark] + tail, rest, nl);
  }

  lemma {:induction false} MoreArgsStep(args: seq<Expr>, all: seq<Token>, tail: seq<Token>, rest: seq<Token>, nl: bool)
    requires args != [] && tail != [] && ParseExpr(all, 0, nl) == Got(args[0], tail)
    requires if |args| == 1 then tail == [RParen] + rest
             else tail[0] == Comma && ParseMoreArgs(tail[1..], nl) == Got(args[1..], rest)
    ensures ParseMoreArgs(all, nl) == Got(args, rest)
  {
    if |args| == 1 { assert tail[1..] == rest && [args[0]] == args; }
    assert [args[0]] + args[1..] == args;
  }

  /** An operand of level m + 1, read at that level, up to what follows it. */
  lemma {:induction false} ReadsOperand(e: Expr, m: nat, rest: seq<Token>, nl: bool)
    requires m <= 6 && Follow(rest, m, nl)
    ensures ParseExpr(Show(e, m + 1) + rest, m + 1, nl) == Got(e, At(rest, nl))
    decreases e, 5
  {
    Reads(e, m + 1, m + 1, rest, nl);
    LoopStops(e, rest, m, m + 1, nl);
  }

  lemma {:induction false} ReadsUnary(op: UnOp, x: Expr, rest: seq<Token>, nl: bool)
    requires Follow(rest, 6, nl)
    ensures ParsePrefix(Body(Unary(op, x)) + rest, nl) == Got(Unary(op, x), At(rest, nl))
    decreases Unary(op, x), 0
  {
    assert Body(Unary(op, x)) + rest == [UnToken(op)] + (Show(x, 7) + rest);
    ReadsOperand(x, 6, rest, nl);
    UnaryStep(op, Show(x, 7) + rest, x, At(rest, nl), nl);
    PostfixStops(Unary(op, x), rest, 6, nl);
  }

  lemma {:induction false} ReadsBinary(op: BinOp, l: Expr, r: Expr, m: nat, k: nat, rest: seq<Token>, nl: bool)
    requires k <= m <= Precedence(op) && Follow(rest, m, nl)
    ensures ParseExpr(Body(Binary(op, l, r)) + rest, k, nl) == ParseLoop(Binary(op, l, r), rest, k, nl)
    decreases Binary(op, l, r), 0
  {
    var q := Precedence(op);
    var right := Show(r, q + 1) + rest;
    assert Body(Binary(op, l, r)) + rest == Show(l, q) + ([Op(op)] + right);
    Front(Op(op), right);
    Reads(l, q, k, [Op(op)] + right, nl);
    ReadsOperand(r, q, rest, nl);
    OperatorStep(op, l, right, r, At(rest, nl), k, nl);
    LoopSkips(Binary(op, l, r), rest, k, nl);
  }

  lemma {:induction false} ReadsElse(l: Expr, r: Expr, rest: seq<Token>, nl: bool)
    requires Follow(rest, 0, nl)
    ensures ParseExpr(Body(Else(l, r)) + rest, 0, nl) == ParseLoop(Else(l, r), rest, 0, nl)
    decreases Else(l, r), 0
  {
    var right := Show(r, 1) + rest;
    assert Body(Else(l, r)) + rest == Show(l, 0) + ([ElseTok] + right);
    Front(ElseTok, right);
    Reads(l, 0, 0, [ElseTok] + right, nl);
    ReadsOperand(r, 0, rest, nl);
    ElseStep(l, right, r, At(rest, nl), nl);
    LoopSkips(Else(l, r), rest, 0, nl);
  }

  lemma {:induction false} ReadsBody(e: Expr, m: nat, k: nat, rest: seq<Token>, nl: bool)
    requires k <= m <= Level(e) && Follow(rest, m, nl)
    ensures ParseExpr(Body(e) + rest, k, nl) == ParseLoop(e, rest, k, nl)
    decreases e, 2
  {
    match e
    case Int(_) => assert (Body(e) + rest)[1..] == rest;
    case Flt(_) => assert (Body(e) + rest)[1..] == rest;
    case Constant(_) => assert (Body(e) + rest)[1..] == rest;
    case Unary(op, x) =>
      assert TokenPrecedence(Head(At(rest, nl))) <= 6;
      ReadsUnary(op, x, rest, nl);
      LoopSkips(e, rest, k, nl);
    case Binary(op, l, r) => ReadsBinary(op, l, r, m, k, rest, nl);
    case Else(l, r) => ReadsElse(l, r, rest, nl);
    case _ =>
      ReadsChain(e, rest, nl);
      PostfixStops(e, rest, m, nl);
  }

  /** Reading a printed operand leaves the parser where the operand ends, holding it. */
  lemma {:induction false} Reads(e: Expr, m: nat, k: nat, rest: seq<Token>, nl: bool)
    requires k <= m <= 7 && Follow(rest, m, nl)
    ensures ParseExpr(Show(e, m) + rest, k, nl) == ParseLoop(e, rest, k, nl)
    decreases e, 4
  {
    if Level(e) < m {
      ReadsParen(e, rest, nl);
      PostfixStops(e, rest, m, nl);
    } else {
      ReadsBody(e, if Level(e) < m then Level(e) else m, k, rest, nl);
    }
  }

  /** Precedence climbing is exact: every tree comes back from its minimal text, up to a
      token that no expression continues with. */
  lemma {:induction false} ParseInvertsShow(e: Expr, rest: seq<Token>, nl: bool)
    requires Follow(rest, 0, nl) && Head(At(rest, nl)) != ElseTok && Head(At(rest, nl)) != IsTok
    ensures ParseExpr(Show(e, 0) + rest, 0, nl) == Got(e, At(rest, nl))
  {
    Reads(e, 0, 0, rest, nl);
  }

  /** Different trees never print alike. */
  lemma {:induction false} ShowIsInjective(e: Expr, f: Expr)
    requires Show(e, 0) == Show(f, 0)
    ensures e == f
  {
    ParseInvertsShow(e, [Eof], false);
    ParseInvertsShow(f, [Eof], false);
  }

  // ---- fully parenthesised text ----

  /** The numeric and boolean text of generated expressions: every operator in parentheses. */
  predicate Emitted(e: Expr) {
    match e
    case Int(_) => true
    case Constant(w) => w == True || w == False
    case Name(_) => true
    case Unary(_, x) => Emitted(x)
    case Binary(op, l, r) => op != Pipe && Emitted(l) && Emitted(r)
    case _ => false
  }

  function Full(e: Expr): seq<Token>
    requires Emitted(e)
  {
    match e
    case Int(n) => [IntLit(n)]
    case Constant(w) => [WordLit(w)]
    case Name(s) => [Ident(s)]
    case Unary(op, x) => Paren([UnToken(op)] + Full(x))
    case Binary(op, l, r) => Paren(Full(l) + ([Op(op)] + Full(r)))
  }

  lemma {:induction false} FullStart(e: Expr, rest: seq<Token>)
    requires Emitted(e)
    ensures SkipNewlines(Full(e) + rest) == Full(e) + rest
  {
  }

  lemma {:induction false} FullReads(e: Expr, k: nat, rest: seq<Token>, nl: bool)
    requires Emitted(e) && k <= 7 && Follow(rest, 6, nl)
    ensures ParseExpr(Full(e) + rest, k, nl) == ParseLoop(e, rest, k, nl)
    decreases e, 1
  {
    PostfixStops(e, rest, 6, nl);
    match e
    case Int(_) => assert (Full(e) + rest)[1..] == rest;
    case Constant(_) => assert (Full(e) + rest)[1..] == rest;
    case Name(_) => assert (Full(e) + rest)[1..] == rest;
    case Unary(op, x) => FullReadsUnary(op, x, rest, nl); LoopSkips(e, rest, k, nl);
    case Binary(op, l, r) => FullReadsBinary(op, l, r, rest, nl); LoopSkips(e, rest, k, nl);
  }

  lemma {:induction false} FullReadsUnary(op: UnOp, x: Expr, rest: seq<Token>, nl: bool)
    requires Emitted(x)
    ensures ParsePrefix(Full(Unary(op, x)) + rest, nl) == ParsePostfix(Unary(op, x), rest, nl)
    decreases Unary(op, x), 0
  {
    var close := [RParen] + rest;
    var operand := Full(x) + close;
    var inner := [UnToken(op)] + operand;
    assert Full(Unary(op, x)) + rest == [LParen] + inner;
    Front(RParen, rest);
    Front(UnToken(op), operand);
    FullReads(x, 7, close, nl);
    CloseStops(x, RParen, rest, 7, nl);
    UnaryStep(op, operand, x, close, nl);
    PostfixStops(Unary(op, x), close, 0, nl);
    OperandStep(inner, Unary(op, x), close, 0, nl);
    CloseStops(Unary(op, x), RParen, rest, 0, nl);
    GroupStep(inner, Unary(op, x), rest, nl);
  }

  lemma {:induction false} FullBinary(op: BinOp, l: Expr, r: Expr, rest: seq<Token>)
    requires Emitted(Binary(op, l, r))
    ensures Full(Binary(op, l, r)) + rest == [LParen] + (Full(l) + ([Op(op)] + (Full(r) + ([RParen] + rest))))
  {
  }

  lemma {:induction false} FullReadsBinary(op: BinOp, l: Expr, r: Expr, rest: seq<Token>, nl: bool)
    requires Emitted(Binary(op, l, r))
    ensures ParsePrefix(Full(Binary(op, l, r)) + rest, nl) == ParsePostfix(Binary(op, l, r), rest, nl)
    decreases Binary(op, l, r), 0
  {
    var close := [RParen] + rest;
    var right := Full(r) + close;
    var tail := [Op(op)] + right;
    FullBinary(op, l, r, rest);
    FullStart(l, tail);
    Follows(Op(op), right, 6, nl);
    FullReads(l, 0, tail, nl);
    FullRight(op, l, r, rest, nl);
    CloseStops(Binary(op, l, r), RParen, rest, 0, nl);
    GroupStep(Full(l) + tail, Binary(op, l, r), rest, nl);
  }

  lemma {:induction false} FullRight(op: BinOp, l: Expr, r: Expr, rest: seq<Token>, nl: bool)
    requires Emitted(Binary(op, l, r))
    ensures ParseLoop(l, [Op(op)] + (Full(r) + ([RParen] + rest)), 0, nl) == ParseLoop(Binary(op, l, r), [RParen] + rest, 0, nl)
    decreases r, 2
  {
    var close := [RParen] + rest;
    Follows(RParen, rest, 6, nl);
    FullReads(r, Precedence(op) + 1, close, nl);
    CloseStops(r, RParen, rest, Precedence(op) + 1, nl);
    OperatorStep(op, l, Full(r) + close, r, close, 0, nl);
  }

  /** Fully parenthesised text gives the same tree back. */
  lemma {:induction false} ParseInvertsFull(e: Expr, rest: seq<Token>, nl: bool)
    requires Emitted(e) && Follow(rest, 0, nl) && Head(At(rest, nl)) != ElseTok && Head(At(rest, nl)) != IsTok
    ensures ParseExpr(Full(e) + rest, 0, nl) == Got(e, At(rest, nl))
  {
    FullReads(e, 0, rest, nl);
  }

  // ---- IS checks ----

  /** A clause: a comparison, written or implied to be `==`, and its right side. */
  datatype Piece = Piece(op: BinOp, written: bool, value: Expr)

  predicate Clause(p: Piece) { IsCheckOp(Op(p.op)) && (p.op == EqEq || p.written) }

  function ShowPiece(p: Piece): seq<Token> { if p.written then [Op(p.op)] + Show(p.value, 5) else Show(p.value, 5) }

  /** The clauses after the first, each with the connective before it. */
  function ShowMore(more: seq<(BinOp, Piece)>): seq<Token> {
    if more == [] then [] else [Op(more[0].0)] + (ShowPiece(more[0].1) + ShowMore(more[1..]))
  }

  predicate Connected(more: seq<(BinOp, Piece)>) {
    forall i :: 0 <= i < |more| ==> (more[i].0 == AndAnd || more[i].0 == OrOr) && Clause(more[i].1)
  }

  function Test(subject: Expr, p: Piece): Expr { Binary(p.op, subject, p.value) }

  /** Connectives of an IS check associate to the left, whatever they are. */
  function FoldTests(subject: Expr, sofar: Expr, more: seq<(BinOp, Piece)>): Expr
    decreases more
  {
    if more == [] then sofar
    else FoldTests(subject, Binary(more[0].0, sofar, Test(subject, more[0].1)), more[1..])
  }

  lemma {:induction false} PieceReads(subject: Expr, p: Piece, rest: seq<Token>, nl: bool)
    requires Clause(p) && Follow(rest, 4, nl)
    ensures ParsePiece(subject, ShowPiece(p) + rest, nl) == Got(Test(subject, p), At(rest, nl))
  {
    ReadsOperand(p.value, 4, rest, nl);
    if p.written { WrittenStep(subject, p, rest, nl); } else { ImpliedStep(subject, p, rest, nl); }
  }

  lemma {:induction false} ShowStarts(e: Expr, m: nat, rest: seq<Token>)
    ensures !IsCheckOp(Head(Show(e, m) + rest))
  {
    StartsPlain(e, rest);
  }

  lemma {:induction false} WrittenStep(subject: Expr, p: Piece, rest: seq<Token>, nl: bool)
    requires Clause(p) && p.written && ParseExpr(Show(p.value, 5) + rest, 5, nl) == Got(p.value, At(rest, nl))
    ensures ParsePiece(subject, ShowPiece(p) + rest, nl) == Got(Test(subject, p), At(rest, nl))
  {
    var value := Show(p.value, 5) + rest;
    assert ShowPiece(p) + rest == [Op(p.op)] + value;
    Front(Op(p.op), value);
  }

  lemma {:induction false} ImpliedStep(subject: Expr, p: Piece, rest: seq<Token>, nl: bool)
    requires Clause(p) && !p.written && ParseExpr(Show(p.value, 5) + rest, 5, nl) == Got(p.value, At(rest, nl))
    ensures ParsePiece(subject, ShowPiece(p) + rest, nl) == Got(Test(subject, p), At(rest, nl))
  {
    ShowStarts(p.value, 5, rest);
  }

  lemma {:induction false} MoreEnds(subject: Expr, sofar: Expr, rest: seq<Token>, nl: bool)
    requires Follow(rest, 0, nl)
    ensures ParseMorePieces(subject, sofar, At([] + rest, nl), nl) == Got(sofar, At(rest, nl))
  {
    assert [] + rest == rest;
  }

  lemma {:induction false} MoreText(more: seq<(BinOp, Piece)>, rest: seq<Token>, nl: bool)
    requires more != []
    ensures At(ShowMore(more) + rest, nl) == At([Op(more[0].0)] + (ShowPiece(more[0].1) + (ShowMore(more[1..]) + rest)), nl)
  {
    assert ShowMore(more) + rest == [Op(more[0].0)] + (ShowPiece(more[0].1) + (ShowMore(more[1..]) + rest));
  }

  lemma {:induction false} MoreReads(subject: Expr, sofar: Expr, more: seq<(BinOp, Piece)>, rest: seq<Token>, nl: bool)
    requires Connected(more) && Follow(rest, 0, nl)
    ensures ParseMorePieces(subject, sofar, At(ShowMore(more) + rest, nl), nl)
            == Got(FoldTests(subject, sofar, more), At(rest, nl))
    decreases more
  {
    if more == [] {
      MoreEnds(subject, sofar, rest, nl);
    } else {
      var first, others := more[0], more[1..];
      var tail := ShowMore(others) + rest;
      var next := Binary(first.0, sofar, Test(subject, first.1));
      MoreText(more, rest, nl);
      MoreFollow(others, rest, nl);
      PieceReads(subject, first.1, tail, nl);
      MoreStep(subject, sofar, first, ShowPiece(first.1) + tail, tail, nl);
      assert FoldTests(subject, sofar, more) == FoldTests(subject, next, others);
      MoreReads(subject, next, others, rest, nl);
    }
  }

  lemma {:induction false} MoreStep(subject: Expr, sofar: Expr, first: (BinOp, Piece), piece: seq<Token>, tail: seq<Token>, nl: bool)
    requires first.0 == AndAnd || first.0 == OrOr
    requires ParsePiece(subject, piece, nl) == Got(Test(subject, first.1), At(tail, nl))
    ensures ParseMorePieces(subject, sofar, At([Op(first.0)] + piece, nl), nl)
            == ParseMorePieces(subject, Binary(first.0, sofar, Test(subject, first.1)), At(tail, nl), nl)
  {
    Front(Op(first.0), piece);
  }

  lemma {:induction false} MoreFollow(more: seq<(BinOp, Piece)>, rest: seq<Token>, nl: bool)
    requires Connected(more) && Follow(rest, 0, nl)
    ensures Follow(ShowMore(more) + rest, 4, nl)
  {
    if more == [] { assert ShowMore(more) + rest == rest; }
  }

  /** `subject IS clause && clause ...` reads as comparisons of the one subject, joined from
      the left: inside IS, `&&` does not bind tighter than `||`. */
  lemma {:induction false} IsReads(subject: Expr, first: Piece, more: seq<(BinOp, Piece)>, rest: seq<Token>, nl: bool)
    requires Clause(first) && Connected(more) && more != [] && Follow(rest, 0, nl)
    ensures ParseExpr(Show(subject, 0) + ([IsTok] + (ShowPiece(first) + (ShowMore(more) + rest))), 0, nl)
            == ParseLoop(FoldTests(subject, Test(subject, first), more), rest, 0, nl)
  {
    var tail := ShowMore(more) + rest;
    var clauses := ShowPiece(first) + tail;
    var check := FoldTests(subject, Test(subject, first), more);
    Front(IsTok, clauses);
    Reads(subject, 0, 0, [IsTok] + clauses, nl);
    ClausesRead(subject, first, more, rest, nl);
    IsStep(subject, clauses, check, At(rest, nl), nl);
    LoopSkips(check, rest, 0, nl);
  }

  lemma {:induction false} ClausesRead(subject: Expr, first: Piece, more: seq<(BinOp, Piece)>, rest: seq<Token>, nl: bool)
    requires Clause(first) && Connected(more) && more != [] && Follow(rest, 0, nl)
    ensures ParseIs(subject, ShowPiece(first) + (ShowMore(more) + rest), nl)
            == Got(FoldTests(subject, Test(subject, first), more), At(rest, nl))
  {
    var tail := ShowMore(more) + rest;
    MoreFollow(more, rest, nl);
    PieceReads(subject, first, tail, nl);
    assert SkipNewlines(tail) == tail && Head(tail) == Op(more[0].0);
    MoreReads(subject, Test(subject, first), more, rest, nl);
  }
}
