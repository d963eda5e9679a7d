/** What binds what, listed group by group: every chain of operands and operators reads as the
    one tree that keeps to the list, and a line may break where the parser says. */
module ParserGroups {
  import opened ExprSyntax
  import opened ParserSpec
  import opened ParserProof

  /** Binary operators from the loosest group to the tightest; `|` stands with `+` and `-`. */
  const GROUPS: seq<set<BinOp>> :=
    [{OrOr}, {AndAnd}, {EqEq, Neq}, {Lt, Lte, Gt, Gte}, {Pipe, Plus, Minus}, {Star, Slash, Percent}]

  predicate AsTight(p: BinOp, q: BinOp) {
    exists i, j :: 0 <= j <= i < |GROUPS| && p in GROUPS[i] && q in GROUPS[j]
  }

  /** A value to the parser: no operator stands at its root. */
  predicate Operand(e: Expr) { !e.Unary? && !e.Binary? && !e.Else? }

  /** Left operands bind at least as tightly as their operator and right ones more tightly, an
      operator's sign or `!` binds tighter than any of them, and `else` looser. */
  predicate Grouped(e: Expr) {
    match e
    case Unary(_, x) => (Operand(x) || x.Unary?) && Grouped(x)
    case Binary(op, l, r) =>
      && !l.Else? && (l.Binary? ==> AsTight(l.op, op))
      && !r.Else? && (r.Binary? ==> !AsTight(op, r.op))
      && Grouped(l) && Grouped(r)
    case Else(l, r) => !r.Else? && Grouped(l) && Grouped(r)
    case _ => true
  }

  /** The tokens in order, with no parentheses around operators. */
  function Flat(e: Expr): seq<Token> {
    match e
    case Unary(Negate, x) => [Op(Minus)] + Flat(x)
    case Unary(Bang, x) => [BangTok] + Flat(x)
    case Binary(op, l, r) => Flat(l) + ([Op(op)] + Flat(r))
    case Else(l, r) => Flat(l) + ([ElseTok] + Flat(r))
    case _ => Body(e)
  }

  /** What may come after a whole expression. */
  predicate Ends(rest: seq<Token>, nl: bool) {
    Follow(rest, 0, nl) && Head(At(rest, nl)) != ElseTok && Head(At(rest, nl)) != IsTok
  }

  lemma {:induction false} GroupOf(op: BinOp)
    ensures op in GROUPS[Precedence(op) - 1]
    ensures forall i :: 0 <= i < |GROUPS| && op in GROUPS[i] ==> i == Precedence(op) - 1
  {
    match op
    case OrOr =>
    case AndAnd =>
    case EqEq => case Neq =>
    case Lt => case Lte => case Gt => case Gte =>
    case Pipe => case Plus => case Minus =>
    case Star => case Slash => case Percent =>
  }

  lemma {:induction false} PrecedenceIsTheList(p: BinOp, q: BinOp)
    ensures AsTight(p, q) <==> Precedence(p) >= Precedence(q)
  {
    GroupOf(p);
    GroupOf(q);
  }

  lemma {:induction false} GroupedIsShown(e: Expr)
    requires Grouped(e)
    ensures Body(e) == Flat(e)
  {
    match e
    case Unary(_, x) => GroupedIsShown(x);
    case Binary(op, l, r) =>
      GroupedIsShown(l);
      GroupedIsShown(r);
      if l.Binary? { PrecedenceIsTheList(l.op, op); }
      if r.Binary? { PrecedenceIsTheList(op, r.op); }
    case Else(l, r) =>
      GroupedIsShown(l);
      GroupedIsShown(r);
    case _ =>
  }

  lemma {:induction false} GroupedReads(e: Expr, rest: seq<Token>, nl: bool)
    requires Grouped(e) && Ends(rest, nl)
    ensures ParseExpr(Flat(e) + rest, 0, nl) == Got(e, At(rest, nl))
  {
    GroupedIsShown(e);
    ParseInvertsShow(e, rest, nl);
  }

  lemma {:induction false} Joined<T>(a: seq<T>, p: T, b: seq<T>, q: T, c: seq<T>, rest: seq<T>)
    ensures a + ([p] + b) + ([q] + c) + rest == a + [p] + b + [q] + c + rest
    ensures a + ([p] + (b + ([q] + c))) + rest == a + [p] + b + [q] + c + rest
  {
  }

  lemma {:induction false} ThreeInARow(a: Expr, p: BinOp, b: Expr, q: BinOp, c: Expr)
    requires Operand(a) && Operand(b) && Operand(c)
    ensures Flat(Binary(q, Binary(p, a, b), c)) == Body(a) + ([Op(p)] + Body(b)) + ([Op(q)] + Body(c))
    ensures Flat(Binary(p, a, Binary(q, b, c))) == Body(a) + ([Op(p)] + (Body(b) + ([Op(q)] + Body(c))))
  {
    assert Flat(Binary(p, a, b)) == Body(a) + ([Op(p)] + Body(b));
    assert Flat(Binary(q, b, c)) == Body(b) + ([Op(q)] + Body(c));
  }

  /** `a p b q c` is `(a p b) q c` when p binds at least as tightly as q, and `a p (b q c)`
      when it does not. */
  lemma {:induction false} ThreeOperands(a: Expr, p: BinOp, b: Expr, q: BinOp, c: Expr, rest: seq<Token>, nl: bool)
    requires Operand(a) && Operand(b) && Operand(c) && Ends(rest, nl)
    ensures ParseExpr(Body(a) + [Op(p)] + Body(b) + [Op(q)] + Body(c) + rest, 0, nl)
            == Got(if AsTight(p, q) then Binary(q, Binary(p, a, b), c) else Binary(p, a, Binary(q, b, c)), At(rest, nl))
  {
    ThreeInARow(a, p, b, q, c);
    Joined(Body(a), Op(p), Body(b), Op(q), Body(c), rest);
    GroupedReads(if AsTight(p, q) then Binary(q, Binary(p, a, b), c) else Binary(p, a, Binary(q, b, c)), rest, nl);
  }

  // ---- chains of any length ----

  /** An operator and the operand after it. */
  datatype Link = Link(op: BinOp, operand: Expr)

  predicate Operands(links: seq<Link>) { forall i :: 0 <= i < |links| ==> Operand(links[i].operand) }

  function Chain(links: seq<Link>): seq<Token> {
    if links == [] then [] else [Op(links[0].op)] + (Body(links[0].operand) + Chain(links[1..]))
  }

  /** e with one more operator and operand at its right end. */
  function Append(e: Expr, link: Link): (r: Expr) {
    if e.Binary? && !AsTight(e.op, link.op) then Binary(e.op, e.left, Append(e.right, link))
    else Binary(link.op, e, link.operand)
  }

  /** No `else` at the root, so operators may follow. */
  predicate Open(e: Expr) { Grouped(e) && !e.Else? }

  lemma {:induction false} AppendGroups(e: Expr, link: Link)
    requires Open(e) && Operand(link.operand)
    ensures Open(Append(e, link)) && Append(e, link).Binary?
    ensures Append(e, link).op == link.op || (e.Binary? && Append(e, link).op == e.op)
    ensures Flat(Append(e, link)) == Flat(e) + ([Op(link.op)] + Body(link.operand))
  {
    if e.Binary? && !AsTight(e.op, link.op) {
      AppendGroups(e.right, link);
      PrecedenceIsTheList(e.op, link.op);
      Rejoined(Flat(e.left), [Op(e.op)], Flat(e.right), [Op(link.op)] + Body(link.operand));
    }
  }

  function Build(e: Expr, links: seq<Link>): Expr
    decreases links
  {
    if links == [] then e else Build(Append(e, links[0]), links[1..])
  }

  lemma {:induction false} Rejoined<T>(a: seq<T>, b: seq<T>, c: seq<T>, d: seq<T>)
    ensures a + (b + c) + d == a + (b + (c + d))
  {
  }

  lemma {:induction false} BuildGroups(e: Expr, links: seq<Link>)
    requires Open(e) && Operands(links)
    ensures Open(Build(e, links)) && Flat(Build(e, links)) == Flat(e) + Chain(links)
    decreases links
  {
    if links == [] {
      assert Flat(e) + [] == Flat(e);
    } else {
      AppendGroups(e, links[0]);
      BuildGroups(Append(e, links[0]), links[1..]);
      Rejoined(Flat(e), [Op(links[0].op)], Body(links[0].operand), Chain(links[1..]));
    }
  }

  /** Every chain of operands and operators is read to its end, as a tree with exactly those
      tokens that keeps to the groups; no other tree does. */
  lemma {:induction false} EveryChainReads(first: Expr, links: seq<Link>, rest: seq<Token>, nl: bool)
    requires Operand(first) && Operands(links) && Ends(rest, nl)
    ensures var r := ParseExpr(Body(first) + Chain(links) + rest, 0, nl);
            && r.Got? && r.rest == At(rest, nl) && Grouped(r.value) && Flat(r.value) == Body(first) + Chain(links)
            && forall e :: Grouped(e) && Flat(e) == Body(first) + Chain(links) ==> e == r.value
  {
    var built := Build(first, links);
    BuildGroups(first, links);
    GroupedReads(built, rest, nl);
    forall e | Grouped(e) && Flat(e) == Flat(built) ensures e == built {
      GroupedReads(e, rest, nl);
    }
  }

  // ---- line breaks ----

  /** Before an operator or `else`, exactly where operators may stand on later lines. */
  lemma {:induction false} BreakBeforeOperator(left: Expr, ts: seq<Token>, min: nat)
    ensures ParseLoop(left, [Newline] + ts, min, true) == ParseLoop(left, ts, min, true)
    ensures ParseLoop(left, [Newline] + ts, min, false) == Got(left, [Newline] + ts)
  {
    assert ([Newline] + ts)[1..] == ts;
    assert SkipNewlines([Newline] + ts) == SkipNewlines(ts);
    LoopSkips(left, ts, min, true);
    LoopSkips(left, [Newline] + ts, min, true);
  }

  /** Before a dot always, and before no other postfix operator. */
  lemma {:induction false} BreakBeforePostfix(base: Expr, ts: seq<Token>, nl: bool)
    ensures ParsePostfix(base, [Newline] + ts, nl)
            == if Head(SkipNewlines(ts)) == DotTok then ParsePostfix(base, ts, nl) else Got(base, [Newline] + ts)
  {
    assert ([Newline] + ts)[1..] == ts;
    assert SkipNewlines([Newline] + ts) == SkipNewlines(ts);
    SkipTwice(ts);
  }

  /** After an opening parenthesis, and in front of no other operand. */
  lemma {:induction false} BreakBeforeOperand(ts: seq<Token>, min: nat, nl: bool)
    ensures ParsePrefix([LParen, Newline] + ts, nl) == ParsePrefix([LParen] + ts, nl)
    ensures ParseExpr([Newline] + ts, min, nl) == Fail
  {
    assert ([LParen, Newline] + ts)[1..] == [Newline] + ts;
    assert ([LParen] + ts)[1..] == ts;
    assert ([Newline] + ts)[1..] == ts;
    assert SkipNewlines([Newline] + ts) == SkipNewlines(ts);
  }
}
