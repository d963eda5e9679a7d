/** The analyzer's ownership states against the emitter's cleanup list, over the top-level
    statements of a function that both passes walk in the same order. */
module Ownership {
  import opened Wrappers
  import opened CasterAst
  import opened Emit
  import L = LoweringSource

  datatype State = Unknown | Borrowed | Owned | Freed

  datatype Symbol = Symbol(ty: Ty, state: State, isParam: bool)

  type Table = map<string, Symbol>

  /** Whether a value brings its own storage. */
  predicate Independent(t: Table, e: Expr) {
    match e
    case StrLit(_) => false
    case IntLit(_) => false
    case BolLit(_) => false
    case Ref(x, _) => x.text in t && t[x.text].state != Freed
    case Cond(_, _, _, _) => false
    case _ => true
  }

  /** Reading a freed name is an error. */
  predicate ReadsFreed(t: Table, e: Expr) {
    match e
    case Ref(x, _) => x.text !in t || t[x.text].state == Freed
    case Binary(_, l, r) => ReadsFreed(t, l) || ReadsFreed(t, r)
    case CharAt(l, r) => ReadsFreed(t, l) || ReadsFreed(t, r)
    case And(l, r) => ReadsFreed(t, l) || ReadsFreed(t, r)
    case Or(l, r) => ReadsFreed(t, l) || ReadsFreed(t, r)
    case Len(a) => ReadsFreed(t, a)
    case Not(a) => ReadsFreed(t, a)
    case Cond(_, c, y, n) => ReadsFreed(t, c) || ReadsFreed(t, y) || ReadsFreed(t, n)
    case Call(_, args) => ArgsReadFreed(t, args)
    case _ => false
  }

  predicate ArgsReadFreed(t: Table, args: Args) {
    args.Arg? && (ReadsFreed(t, args.head) || ArgsReadFreed(t, args.tail))
  }

  function Assigned(t: Table, ty: Ty, e: Expr): State {
    if ty != STR then Unknown else if Independent(t, e) then Owned else Borrowed
  }

  /** One top-level statement; None when the analyzer rejects it. */
  function Analyze(t: Table, s: Stmt): Option<Table> {
    match s
    case Declare(ty, x, e) =>
      if x in t || ReadsFreed(t, e) then None else Some(t[x := Symbol(ty, Assigned(t, ty, e), false)])
    case Assign(Plain(x), ty, e) =>
      if x !in t || t[x].ty != ty || ReadsFreed(t, e) then None
      else Some(t[x := t[x].(state := Assigned(t, ty, e))])
    case AddAssign(Plain(x), ty, e) =>
      if x !in t || t[x].ty != ty || ReadsFreed(t, e) then None
      else Some(t[x := t[x].(state := if ty == STR then Owned else t[x].state)])
    case Free(Plain(x)) =>
      if x !in t || t[x].isParam || t[x].ty != STR || t[x].state != Owned then None
      else Some(t[x := t[x].(state := Freed)])
    case Discard(e) => if ReadsFreed(t, e) then None else Some(t)
    case Pass => Some(t)
    case _ => None
  }

  function AnalyzePrefix(t: Table, b: Block): Option<Table>
    decreases b
  {
    match b
    case End => Some(t)
    case Then(s, rest) =>
      var u := Analyze(t, s);
      if u.None? then None else AnalyzePrefix(u.value, rest)
  }

  /** Locals are listed exactly while they are STR and not freed; of the parameters, at
      least every one the function came to own. */
  ghost predicate Agree(t: Table, owned: seq<string>) {
    && L.NoDup(owned)
    && (forall x :: x in owned ==> x in t && t[x].ty == STR && t[x].state != Freed)
    && (forall x :: x in t && t[x].state == Owned ==> x in owned)
    && (forall x :: x in t && !t[x].isParam && t[x].ty == STR && t[x].state != Freed ==> x in owned)
    && (forall x :: x in t && t[x].ty != STR ==> t[x].state != Owned && t[x].state != Freed)
  }

  ghost predicate AtEntry(t: Table) { forall x :: x in t ==> t[x].isParam && t[x].state == Borrowed }

  lemma {:induction false} AddNoDup(owned: seq<string>, x: string, ty: Ty)
    requires L.NoDup(owned)
    ensures L.NoDup(OwnedAdd(owned, x, ty))
    ensures forall y :: y in OwnedAdd(owned, x, ty) <==> y in owned || (y == x && ty == STR)
  {
  }

  lemma {:induction false} StepAgrees(t: Table, s: Stmt, owned: seq<string>)
    requires Agree(t, owned) && Analyze(t, s).Some?
    ensures Agree(Analyze(t, s).value, ListAfter(s, 1, owned))
  {
    match s
    case Declare(ty, x, _) => AddNoDup(owned, x, ty);
    case Assign(x, ty, _) => AddNoDup(owned, x.text, ty);
    case AddAssign(x, ty, _) => AddNoDup(owned, x.text, ty);
    case Free(x) => L.RemoveWithin(owned, x.text);
    case _ =>
  }

  /** The two passes agree after every top-level prefix: what the analyzer calls OWNED the
      emitter drops, what it calls FREED the emitter does not. */
  lemma {:induction false} PassesAgree(t: Table, b: Block, owned: seq<string>)
    requires Agree(t, owned) && AnalyzePrefix(t, b).Some?
    ensures Agree(AnalyzePrefix(t, b).value, ListAfterBlock(b, 1, owned))
    decreases b
  {
    if b.Then? {
      StepAgrees(t, b.head, owned);
      PassesAgree(Analyze(t, b.head).value, b.tail, ListAfter(b.head, 1, owned));
    }
  }

  lemma {:induction false} PrefixAgrees(t: Table, b: Block)
    requires AtEntry(t) && AnalyzePrefix(t, b).Some?
    ensures var u := AnalyzePrefix(t, b).value;
            var owned := ListAfterBlock(b, 1, []);
            && (forall x :: x in u && u[x].state == Owned ==> x in owned)
            && (forall x :: x in u && u[x].state == Freed ==> x !in owned)
            && (forall x :: x in u && !u[x].isParam ==> (x in owned <==> u[x].ty == STR && u[x].state != Freed))
  {
    PassesAgree(t, b, []);
  }

  /** Inside a nested block the agreement can end: a freed local assigned a new block there
      is OWNED to the analyzer, and on the emitter's list exactly when the statement stands
      at the top level. */
  lemma {:induction false} ReassignListedAtTopOnly(t: Table, x: string, e: Expr, depth: nat, owned: seq<string>)
    requires Agree(t, owned) && x in t && t[x] == Symbol(STR, Freed, false)
    requires !ReadsFreed(t, e) && Independent(t, e)
    ensures Analyze(t, Assign(Plain(x), STR, e)).Some?
    ensures Analyze(t, Assign(Plain(x), STR, e)).value[x].state == Owned
    ensures x in ListAfter(Assign(Plain(x), STR, e), depth, owned) <==> depth == 1
  {
    assert ListAfter(Assign(Plain(x), STR, e), depth, owned) == ListAdd(depth, owned, x, STR);
  }

  // ---- what the analyzer lets a program free and read ----

  /** A declared local may be freed right after exactly when it is a text and its value is
      neither a literal nor conditional; once freed it may not be freed again. */
  lemma {:induction false} FreeAcceptedExactly(t: Table, x: string, ty: Ty, e: Expr)
    requires Analyze(t, Declare(ty, x, e)).Some?
    ensures var u := Analyze(t, Declare(ty, x, e)).value;
      && (Analyze(u, Free(Plain(x))).Some?
          <==> ty == STR && !e.StrLit? && !e.IntLit? && !e.BolLit? && !e.Cond?)
      && (Analyze(u, Free(Plain(x))).Some? ==> Analyze(Analyze(u, Free(Plain(x))).value, Free(Plain(x))).None?)
  {
  }

  predicate Mentions(e: Expr, x: string) {
    match e
    case Ref(y, _) => y.text == x
    case Binary(_, l, r) => Mentions(l, x) || Mentions(r, x)
    case CharAt(l, r) => Mentions(l, x) || Mentions(r, x)
    case And(l, r) => Mentions(l, x) || Mentions(r, x)
    case Or(l, r) => Mentions(l, x) || Mentions(r, x)
    case Len(a) => Mentions(a, x)
    case Not(a) => Mentions(a, x)
    case Cond(_, c, y, n) => Mentions(c, x) || Mentions(y, x) || Mentions(n, x)
    case Call(_, args) => ArgsMention(args, x)
    case _ => false
  }

  predicate ArgsMention(args: Args, x: string) { args.Arg? && (Mentions(args.head, x) || ArgsMention(args.tail, x)) }

  lemma {:induction false} FreedIsRead(t: Table, e: Expr, x: string)
    requires x in t && t[x].state == Freed && Mentions(e, x)
    ensures ReadsFreed(t, e)
  {
    match e
    case Binary(_, l, r) => if Mentions(l, x) { FreedIsRead(t, l, x); } else { FreedIsRead(t, r, x); }
    case CharAt(l, r) => if Mentions(l, x) { FreedIsRead(t, l, x); } else { FreedIsRead(t, r, x); }
    case And(l, r) => if Mentions(l, x) { FreedIsRead(t, l, x); } else { FreedIsRead(t, r, x); }
    case Or(l, r) => if Mentions(l, x) { FreedIsRead(t, l, x); } else { FreedIsRead(t, r, x); }
    case Len(a) => FreedIsRead(t, a, x);
    case Not(a) => FreedIsRead(t, a, x);
    case Cond(_, c, y, n) =>
      if Mentions(c, x) { FreedIsRead(t, c, x); } else if Mentions(y, x) { FreedIsRead(t, y, x); } else { FreedIsRead(t, n, x); }
    case Call(_, args) => FreedIsPassed(t, args, x);
    case _ =>
  }

  lemma {:induction false} FreedIsPassed(t: Table, args: Args, x: string)
    requires x in t && t[x].state == Freed && ArgsMention(args, x)
    ensures ArgsReadFreed(t, args)
  {
    if Mentions(args.head, x) { FreedIsRead(t, args.head, x); } else { FreedIsPassed(t, args.tail, x); }
  }

  /** The expression a statement evaluates. */
  predicate Evaluates(s: Stmt, e: Expr) {
    match s
    case Declare(_, _, v) => v == e
    case Assign(_, _, v) => v == e
    case AddAssign(_, _, v) => v == e
    case Discard(v) => v == e
    case _ => false
  }

  /** No statement that reads a freed name is accepted before the name is assigned again. */
  lemma {:induction false} FreedIsNotRead(t: Table, b: Block, x: string)
    requires x in t && t[x].state == Freed && b.Then? && AnalyzePrefix(t, b).Some?
    ensures forall e :: Evaluates(b.head, e) ==> !Mentions(e, x)
    ensures !(b.head.Assign? || b.head.AddAssign?) || b.head.target.text != x ==>
              x in Analyze(t, b.head).value && Analyze(t, b.head).value[x].state == Freed
  {
    forall e | Evaluates(b.head, e) ensures !Mentions(e, x) { if Mentions(e, x) { FreedIsRead(t, e, x); } }
  }
}
