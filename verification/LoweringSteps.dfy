/** Single steps of the two interpreters, and what emitted operators, copies and drops do to
    related values. */
module LoweringSteps {
  import opened Wrappers
  import opened CasterAst
  import S = ByValue
  import C = Machine
  import opened Emit
  import opened LoweringSource
  import opened LoweringHeap
  import opened LoweringGuard

  type CExprOut = Out<(C.CVal, C.Heap)>

  // ---- outcomes of expressions ----

  ghost predicate SameFailure<T, U>(s: Out<T>, t: Out<U>) {
    (s.Abort? ==> t.Abort?) && (s.OutOfFuel? ==> t.OutOfFuel?) && (s.FellOff? ==> t.FellOff?)
  }

  /** The emitted expression ends as the source one, with the same value in a heap that only grew. */
  ghost predicate EvalOk(s: Out<S.Val>, t: CExprOut, h: C.Heap) {
    && SameFailure(s, t)
    && (s.Done? ==> t.Done? && HeapOk(t.value.1) && Keep(h, t.value.1, {}) && Rep(s.value, t.value.0, t.value.1))
  }

  /** The value is static text or a block allocated since h. */
  ghost predicate FreshOut(t: CExprOut, h: C.Heap) { t.Done? ==> Since(t.value.0, h.next) }

  /** The value is the one some variable of xs holds. */
  ghost predicate LentOut(t: CExprOut, te: Env<C.CVal>, xs: set<Var>) {
    t.Done? ==> exists x :: x in xs && Lookup(te, x) == Some(t.value.0)
  }

  /** The value is independent of every variable unless e may pick a bare name. */
  ghost predicate ValueOk(s: Out<S.Val>, t: CExprOut, te: Env<C.CVal>, h: C.Heap, e: Expr) {
    EvalOk(s, t, h) && (s.Done? ==> FreshOut(t, h) || LentOut(t, te, Leaves(e)))
  }

  ghost predicate ArgsOk(s: Out<seq<S.Val>>, t: Out<(seq<C.CVal>, C.Heap)>, h: C.Heap) {
    && SameFailure(s, t)
    && (s.Done? ==> t.Done? && HeapOk(t.value.1) && Keep(h, t.value.1, {}) && AllRep(s.value, t.value.0, t.value.1))
  }

  /** Operators on related operands give related results in a grown heap. */
  lemma {:induction false} ApplyOk(op: BinOp, a: S.Val, b: S.Val, ca: C.CVal, cb: C.CVal, h: C.Heap, k: C.Heap)
    requires HeapOk(k) && Keep(h, k, {}) && Rep(a, ca, k) && Rep(b, cb, k)
    ensures EvalOk(S.Apply(op, a, b), C.Apply(k, op, ca, cb), h)
    ensures EvalOk(S.ApplyAt(a, b), C.ApplyAt(k, ca, cb), h)
    ensures S.Apply(op, a, b).Done? ==> FreshOut(C.Apply(k, op, ca, cb), h)
    ensures S.ApplyAt(a, b).Done? ==> FreshOut(C.ApplyAt(k, ca, cb), h)
  {
  }

  // ---- one step of each interpreter ----

  lemma {:induction false} StepS(p: Program, fuel: nat, se: Env<S.Val>, l: Expr, r: Expr, a: Out<S.Val>, b: Out<S.Val>, op: BinOp)
    requires a == S.Eval(p, fuel, se, l) && b == S.Eval(p, fuel, se, r)
    ensures S.Eval(p, fuel, se, Binary(op, l, r)) ==
              if !a.Done? then a else if !b.Done? then b else S.Apply(op, a.value, b.value)
    ensures S.Eval(p, fuel, se, CharAt(l, r)) ==
              if !a.Done? then a else if !b.Done? then b else S.ApplyAt(a.value, b.value)
  {
  }

  lemma {:induction false} StepLogicS(p: Program, fuel: nat, se: Env<S.Val>, l: Expr, r: Expr, a: Out<S.Val>, b: Out<S.Val>)
    requires a == S.Eval(p, fuel, se, l) && b == S.Eval(p, fuel, se, r)
    ensures S.Eval(p, fuel, se, And(l, r)) == LogicS(a, b, false)
    ensures S.Eval(p, fuel, se, Or(l, r)) == LogicS(a, b, true)
  {
  }

  ghost function LogicS(a: Out<S.Val>, b: Out<S.Val>, stop: bool): Out<S.Val> {
    if !a.Done? then a else if !a.value.VBol? then Wrong
    else if a.value.b == stop then a
    else if b.Done? && !b.value.VBol? then Wrong else b
  }

  /** The same for generated expressions; b is the second operand's outcome after the first. */
  lemma {:induction false} StepC(p: C.Code, fuel: nat, te: Env<C.CVal>, h: C.Heap, l: CExpr, r: CExpr,
                                 a: CExprOut, b: CExprOut, op: BinOp)
    requires a == C.Eval(p, fuel, te, h, l)
    requires a.Done? ==> b == C.Eval(p, fuel, te, a.value.1, r)
    ensures C.Eval(p, fuel, te, h, CBinary(op, l, r)) ==
              if !a.Done? then a else if !b.Done? then b else C.Apply(b.value.1, op, a.value.0, b.value.0)
    ensures C.Eval(p, fuel, te, h, CCharAt(l, r)) ==
              if !a.Done? then a else if !b.Done? then b else C.ApplyAt(b.value.1, a.value.0, b.value.0)
  {
  }

  lemma {:induction false} StepLogicC(p: C.Code, fuel: nat, te: Env<C.CVal>, h: C.Heap, l: CExpr, r: CExpr,
                                      a: CExprOut, b: CExprOut)
    requires a == C.Eval(p, fuel, te, h, l)
    requires a.Done? ==> b == C.Eval(p, fuel, te, a.value.1, r)
    ensures C.Eval(p, fuel, te, h, CAnd(l, r)) == LogicC(a, b, false)
    ensures C.Eval(p, fuel, te, h, COr(l, r)) == LogicC(a, b, true)
  {
  }

  ghost function LogicC(a: CExprOut, b: CExprOut, stop: bool): CExprOut {
    if !a.Done? then a else if !a.value.0.BoolVal? then Wrong
    else if a.value.0.b == stop then a
    else if b.Done? && !b.value.0.BoolVal? then Wrong else b
  }

  lemma {:induction false} StepUnaryS(p: Program, fuel: nat, se: Env<S.Val>, e: Expr, a: Out<S.Val>)
    requires a == S.Eval(p, fuel, se, e)
    ensures S.Eval(p, fuel, se, Len(e)) ==
              if !a.Done? then a else if a.value.VStr? then Done(S.VInt(|a.value.s|)) else Wrong
    ensures S.Eval(p, fuel, se, Not(e)) ==
              if !a.Done? then a else if a.value.VBol? then Done(S.VBol(!a.value.b)) else Wrong
  {
  }

  lemma {:induction false} StepUnaryC(p: C.Code, fuel: nat, te: Env<C.CVal>, h: C.Heap, e: CExpr, a: CExprOut)
    requires a == C.Eval(p, fuel, te, h, e)
    ensures C.Eval(p, fuel, te, h, CNot(e)) ==
              if !a.Done? then a else if a.value.0.BoolVal? then Done((C.BoolVal(!a.value.0.b), a.value.1)) else Wrong
    ensures C.Eval(p, fuel, te, h, CLen(e)) ==
              if !a.Done? then a else
              var s := C.Read(a.value.1, a.value.0);
              if s.Done? then Done((C.IntVal(|s.value|), a.value.1)) else s.PropagateFailure()
    ensures C.Eval(p, fuel, te, h, CCopy(e)) ==
              if !a.Done? then a else
              var s := C.Read(a.value.1, a.value.0);
              if s.Done? then Done(C.Alloc(a.value.1, s.value)) else s.PropagateFailure()
  {
  }

  lemma {:induction false} CondStops(p: Program, fuel: nat, se: Env<S.Val>, te: Env<C.CVal>, h: C.Heap, e: Expr, a: Out<S.Val>, ca: CExprOut)
    requires e.Cond? && a == S.Eval(p, fuel, se, e.test) && ca == C.Eval(EmitProgram(p), fuel, te, h, EmitExpr(e.test))
    requires a.Done? ==> !a.value.VBol?
    ensures S.Eval(p, fuel, se, e) == if a.Done? then Wrong else a
    ensures !ca.Done? ==> C.Eval(EmitProgram(p), fuel, te, h, EmitExpr(e)) == ca
  {
    assert EmitExpr(e) == CCond(EmitExpr(e.test), EmitExpr(e.yes), EmitExpr(e.no));
  }

  lemma {:induction false} StepCondS(p: Program, fuel: nat, se: Env<S.Val>, e: Expr)
    requires e.Cond?
    ensures var a := S.Eval(p, fuel, se, e.test);
            S.Eval(p, fuel, se, e) ==
              if !a.Done? then a else if !a.value.VBol? then Wrong else
              var v := S.Eval(p, fuel, se, if a.value.b then e.yes else e.no);
              if v.Done? && S.TypeOf(v.value) != e.ty then Wrong else v
  {
  }

  lemma {:induction false} StepCond(p: Program, fuel: nat, se: Env<S.Val>, te: Env<C.CVal>, h: C.Heap, e: Expr, pick: Expr)
    requires e.Cond? && S.Eval(p, fuel, se, e.test).Done? && S.Eval(p, fuel, se, e.test).value.VBol?
    requires pick == if S.Eval(p, fuel, se, e.test).value.b then e.yes else e.no
    ensures var v := S.Eval(p, fuel, se, pick);
            S.Eval(p, fuel, se, e) == if v.Done? && S.TypeOf(v.value) != e.ty then Wrong else v
    ensures var c := C.Eval(EmitProgram(p), fuel, te, h, EmitExpr(e.test));
            c.Done? && c.value.0 == C.BoolVal(S.Eval(p, fuel, se, e.test).value.b) ==>
              C.Eval(EmitProgram(p), fuel, te, h, EmitExpr(e)) ==
              C.Eval(EmitProgram(p), fuel, te, c.value.1, EmitExpr(pick))
  {
  }

  // ---- operands together ----

  lemma {:induction false} PairOk(a: Out<S.Val>, ca: CExprOut, b: Out<S.Val>, cb: CExprOut, h: C.Heap, op: BinOp)
    requires EvalOk(a, ca, h)
    requires a.Done? ==> EvalOk(b, cb, ca.value.1)
    ensures var s := if !a.Done? then a else if !b.Done? then b else S.Apply(op, a.value, b.value);
            var t := if !ca.Done? then ca else if !cb.Done? then cb else C.Apply(cb.value.1, op, ca.value.0, cb.value.0);
            EvalOk(s, t, h) && (s.Done? ==> FreshOut(t, h))
    ensures var s := if !a.Done? then a else if !b.Done? then b else S.ApplyAt(a.value, b.value);
            var t := if !ca.Done? then ca else if !cb.Done? then cb else C.ApplyAt(cb.value.1, ca.value.0, cb.value.0);
            EvalOk(s, t, h) && (s.Done? ==> FreshOut(t, h))
  {
    if a.Done? && b.Done? { ApplyOk(op, a.value, b.value, ca.value.0, cb.value.0, h, cb.value.1); }
  }

  lemma {:induction false} LogicOk(a: Out<S.Val>, ca: CExprOut, b: Out<S.Val>, cb: CExprOut, h: C.Heap, stop: bool)
    requires EvalOk(a, ca, h)
    requires a.Done? ==> EvalOk(b, cb, ca.value.1)
    ensures EvalOk(LogicS(a, b, stop), LogicC(ca, cb, stop), h)
    ensures LogicS(a, b, stop).Done? ==> FreshOut(LogicC(ca, cb, stop), h)
  {
  }

  lemma {:induction false} FinishOne(p: Program, fuel: nat, se: Env<S.Val>, te: Env<C.CVal>, h: C.Heap, a: Expr, e: Expr, s: Out<S.Val>, t: CExprOut)
    requires e == Len(a) || e == Not(a)
    requires s == S.Eval(p, fuel, se, a) && t == C.Eval(EmitProgram(p), fuel, te, h, EmitExpr(a)) && EvalOk(s, t, h)
    ensures ValueOk(S.Eval(p, fuel, se, e), C.Eval(EmitProgram(p), fuel, te, h, EmitExpr(e)), te, h, e)
  {
    StepUnaryS(p, fuel, se, a, s);
    StepUnaryC(EmitProgram(p), fuel, te, h, EmitExpr(a), t);
  }

  lemma {:induction false} FinishTwo(p: Program, fuel: nat, se: Env<S.Val>, te: Env<C.CVal>, h: C.Heap, l: Expr, r: Expr, e: Expr,
                                     a: Out<S.Val>, ca: CExprOut, b: Out<S.Val>, cb: CExprOut)
    requires e == And(l, r) || e == Or(l, r) || e == CharAt(l, r) || (e.Binary? && e == Binary(e.op, l, r))
    requires a == S.Eval(p, fuel, se, l) && b == S.Eval(p, fuel, se, r)
    requires ca == C.Eval(EmitProgram(p), fuel, te, h, EmitExpr(l)) && EvalOk(a, ca, h)
    requires ca.Done? ==> cb == C.Eval(EmitProgram(p), fuel, te, ca.value.1, EmitExpr(r))
    requires a.Done? ==> EvalOk(b, cb, ca.value.1)
    ensures ValueOk(S.Eval(p, fuel, se, e), C.Eval(EmitProgram(p), fuel, te, h, EmitExpr(e)), te, h, e)
  {
    if e.And? || e.Or? {
      StepLogicS(p, fuel, se, l, r, a, b);
      StepLogicC(EmitProgram(p), fuel, te, h, EmitExpr(l), EmitExpr(r), ca, cb);
      LogicOk(a, ca, b, cb, h, e.Or?);
    } else {
      var op := if e.Binary? then e.op else Join;
      StepS(p, fuel, se, l, r, a, b, op);
      StepC(EmitProgram(p), fuel, te, h, EmitExpr(l), EmitExpr(r), ca, cb, op);
      PairOk(a, ca, b, cb, h, op);
    }
  }

  lemma {:induction false} FinishCond(p: Program, fuel: nat, se: Env<S.Val>, te: Env<C.CVal>, h: C.Heap, e: Expr, a: Out<S.Val>, ca: CExprOut)
    requires e.Cond? && a == S.Eval(p, fuel, se, e.test)
    requires ca == C.Eval(EmitProgram(p), fuel, te, h, EmitExpr(e.test)) && EvalOk(a, ca, h)
    requires a.Done? && a.value.VBol? ==>
               var pick := if a.value.b then e.yes else e.no;
               ValueOk(S.Eval(p, fuel, se, pick), C.Eval(EmitProgram(p), fuel, te, ca.value.1, EmitExpr(pick)), te, ca.value.1, pick)
    ensures ValueOk(S.Eval(p, fuel, se, e), C.Eval(EmitProgram(p), fuel, te, h, EmitExpr(e)), te, h, e)
  {
    if a.Done? && a.value.VBol? {
      var pick := if a.value.b then e.yes else e.no;
      StepCond(p, fuel, se, te, h, e, pick);
      PickOk(S.Eval(p, fuel, se, pick), C.Eval(EmitProgram(p), fuel, te, ca.value.1, EmitExpr(pick)), te, ca.value.1, h, e, pick);
    } else {
      CondStops(p, fuel, se, te, h, e, a, ca);
    }
  }

  lemma {:induction false} PickOk(v: Out<S.Val>, t: CExprOut, te: Env<C.CVal>, k: C.Heap, h: C.Heap, e: Expr, pick: Expr)
    requires e.Cond? && (pick == e.yes || pick == e.no) && Keep(h, k, {}) && ValueOk(v, t, te, k, pick)
    ensures ValueOk(if v.Done? && S.TypeOf(v.value) != e.ty then Wrong else v, t, te, h, e)
  {
    assert Leaves(pick) <= Leaves(e);
  }

  // ---- copies ----

  /** A stored value is copied when it is a bare name or an indexed read; then it is new. */
  lemma {:induction false} CopyFresh(p: Program, fuel: nat, s: Out<S.Val>, te: Env<C.CVal>, h: C.Heap, e: Expr, ty: Ty)
    requires ValueOk(s, C.Eval(EmitProgram(p), fuel, te, h, EmitExpr(e)), te, h, e)
    requires s.Done? ==> S.TypeOf(s.value) == ty
    ensures var t := C.Eval(EmitProgram(p), fuel, te, h, EmitAssigned(ty, e));
            && EvalOk(s, t, h) && (s.Done? ==> FreshOut(t, h) || LentOut(t, te, CondLeaves(e)))
            && (s.Done? && ty != STR ==> FreshOut(t, h))
    ensures s.Done? && ty == STR ==>
              EvalOk(s, C.Eval(EmitProgram(p), fuel, te, h, CCopy(EmitExpr(e))), h)
              && FreshOut(C.Eval(EmitProgram(p), fuel, te, h, CCopy(EmitExpr(e))), h)
  {
    StepUnaryC(EmitProgram(p), fuel, te, h, EmitExpr(e), C.Eval(EmitProgram(p), fuel, te, h, EmitExpr(e)));
  }

  lemma {:induction false} CopyFails(p: Program, fuel: nat, s: Out<S.Val>, te: Env<C.CVal>, h: C.Heap, e: Expr, ty: Ty)
    requires ValueOk(s, C.Eval(EmitProgram(p), fuel, te, h, EmitExpr(e)), te, h, e) && !s.Done?
    ensures EvalOk(s, C.Eval(EmitProgram(p), fuel, te, h, EmitAssigned(ty, e)), h)
  {
    StepUnaryC(EmitProgram(p), fuel, te, h, EmitExpr(e), C.Eval(EmitProgram(p), fuel, te, h, EmitExpr(e)));
  }

  lemma {:induction false} ArgOk(p: Program, fuel: nat, se: Env<S.Val>, te: Env<C.CVal>, h: C.Heap, e: Expr)
    requires ValueOk(S.Eval(p, fuel, se, e), C.Eval(EmitProgram(p), fuel, te, h, EmitExpr(e)), te, h, e)
    ensures EvalOk(S.Eval(p, fuel, se, e), C.Eval(EmitProgram(p), fuel, te, h, EmitArg(e)), h)
  {
    var s := S.Eval(p, fuel, se, e);
    var ty := if ShouldCopy(e) then CheckedType(e) else NUL;
    assert EmitArg(e) == EmitAssigned(ty, e);
    if s.Done? { CopyFresh(p, fuel, s, te, h, e, S.TypeOf(s.value)); } else { CopyFails(p, fuel, s, te, h, e, ty); }
  }

  lemma {:induction false} ConsArgs(v: S.Val, c: C.CVal, vs: seq<S.Val>, cs: seq<C.CVal>, k: C.Heap, l: C.Heap)
    requires Rep(v, c, k) && Keep(k, l, {}) && AllRep(vs, cs, l)
    ensures AllRep([v] + vs, [c] + cs, l)
  {
  }

  lemma {:induction false} ReadTypes(p: Program, fuel: nat, se: Env<S.Val>, e: Expr)
    ensures S.Eval(p, fuel, se, e).Done? && e.Ref? ==> S.TypeOf(S.Eval(p, fuel, se, e).value) == e.ty
    ensures S.Eval(p, fuel, se, e).Done? && e.CharAt? ==> S.Eval(p, fuel, se, e).value.VStr?
  {
  }

  // ---- blocks of statements ----

  lemma {:induction false} ExecAppend(p: C.Code, fuel: nat, te: Env<C.CVal>, h: C.Heap, b: CBlock, more: CBlock)
    ensures C.Exec(p, fuel, te, h, Append(b, more)) ==
              var t := C.Exec(p, fuel, te, h, b);
              if t.Done? && t.value.Next? then C.Exec(p, fuel, t.value.env, t.value.heap, more) else t
    decreases b
  {
    if b.CThen? {
      var t := C.ExecStmt(p, fuel, te, h, b.head);
      if t.Done? && t.value.Next? { ExecAppend(p, fuel, t.value.env, t.value.heap, b.tail, more); }
    }
  }

  lemma {:induction false} ExecDrops(code: C.Code, fuel: nat, te: Env<C.CVal>, h: C.Heap, names: seq<string>)
    ensures C.Exec(code, fuel, te, h, DropBlock(names)) ==
              var d := C.DropNames(te, h, names);
              if d.Done? then Done(C.Next(te, d.value)) else d.PropagateFailure()
    decreases names
  {
    if names != [] {
      var v := Lookup(te, User(names[0]));
      if v.Some? {
        var d := C.DropValue(h, v.value);
        if d.Done? { ExecDrops(code, fuel, te, d.value, names[1..]); }
      }
    }
  }

  lemma {:induction false} DropsListed(owned: seq<string>, skip: Option<string>)
    requires NoDup(owned)
    ensures NoDup(Drops(owned, skip))
    ensures forall x :: x in Drops(owned, skip) <==> x in owned && skip != Some(x)
  {
    if owned != [] {
      var last, front := owned[|owned| - 1], owned[..|owned| - 1];
      DropsListed(front, skip);
      var rest := Drops(front, skip);
      assert owned == front + [last];
      assert last !in front;
      forall j | 0 <= j < |rest| ensures rest[j] != last { assert rest[j] in rest; }
    }
  }

  // ---- tests of loops ----

  /** Opening an empty scope changes no value. */
  lemma {:induction false} EmptyScope(p: Program, fuel: nat, se: Env<S.Val>, e: Expr)
    ensures S.Eval(p, fuel, Inner(map[], se), e) == S.Eval(p, fuel, se, e)
    decreases e, 1
  {
    match e
    case Binary(_, l, r) => EmptyScopeTwo(p, fuel, se, e, l, r);
    case CharAt(l, r) => EmptyScopeTwo(p, fuel, se, e, l, r);
    case And(l, r) => EmptyScopeTwo(p, fuel, se, e, l, r);
    case Or(l, r) => EmptyScopeTwo(p, fuel, se, e, l, r);
    case Len(a) => EmptyScope(p, fuel, se, a);
    case Not(a) => EmptyScope(p, fuel, se, a);
    case Cond(_, t, y, n) => EmptyScopeCond(p, fuel, se, e);
    case Call(_, args) => EmptyScopeArgs(p, fuel, se, args);
    case _ =>
  }

  lemma {:induction false} EmptyScopeTwo(p: Program, fuel: nat, se: Env<S.Val>, e: Expr, l: Expr, r: Expr)
    requires l < e && r < e
    requires e == And(l, r) || e == Or(l, r) || e == CharAt(l, r) || (e.Binary? && e == Binary(e.op, l, r))
    ensures S.Eval(p, fuel, Inner(map[], se), e) == S.Eval(p, fuel, se, e)
    decreases e, 0
  {
    var inner := Inner(map[], se);
    EmptyScope(p, fuel, se, l);
    EmptyScope(p, fuel, se, r);
    if e.And? || e.Or? {
      StepLogicS(p, fuel, inner, l, r, S.Eval(p, fuel, inner, l), S.Eval(p, fuel, inner, r));
      StepLogicS(p, fuel, se, l, r, S.Eval(p, fuel, se, l), S.Eval(p, fuel, se, r));
    } else {
      var op := if e.Binary? then e.op else Join;
      StepS(p, fuel, inner, l, r, S.Eval(p, fuel, inner, l), S.Eval(p, fuel, inner, r), op);
      StepS(p, fuel, se, l, r, S.Eval(p, fuel, se, l), S.Eval(p, fuel, se, r), op);
    }
  }

  lemma {:induction false} EmptyScopeCond(p: Program, fuel: nat, se: Env<S.Val>, e: Expr)
    requires e.Cond?
    ensures S.Eval(p, fuel, Inner(map[], se), e) == S.Eval(p, fuel, se, e)
    decreases e, 0
  {
    EmptyScope(p, fuel, se, e.test);
    EmptyScope(p, fuel, se, e.yes);
    EmptyScope(p, fuel, se, e.no);
    StepCondS(p, fuel, Inner(map[], se), e);
    StepCondS(p, fuel, se, e);
  }

  lemma {:induction false} EmptyScopeArgs(p: Program, fuel: nat, se: Env<S.Val>, args: Args)
    ensures S.EvalArgs(p, fuel, Inner(map[], se), args) == S.EvalArgs(p, fuel, se, args)
    decreases args, 0
  {
    if args.Arg? { EmptyScope(p, fuel, se, args.head); EmptyScopeArgs(p, fuel, se, args.tail); }
  }

  /** A loop's start, test, step and a text loop's character as expressions of the source language. */
  ghost function IndexRef(id: nat): Expr { Ref(Counter("i", id), INT) }

  ghost function StartExpr(kind: LoopKind): Expr { if kind.Range? then kind.from else IntLit(0) }

  ghost function StepExpr(kind: LoopKind): Expr { if kind.Range? then kind.step else IntLit(1) }

  ghost function TestExpr(id: nat, kind: LoopKind): Expr {
    match kind
    case Count(n) => Binary(Less, IndexRef(id), n)
    case Range(_, to, step) =>
      Cond(BOL, Not(Binary(Less, step, IntLit(0))), Binary(Less, IndexRef(id), to), Binary(Less, to, IndexRef(id)))
    case While(t) => t
    case Text(t) => Binary(Less, IndexRef(id), Len(t))
  }

  ghost predicate EnterAgrees(s: Out<Option<map<Var, S.Val>>>, t: Out<S.Val>, kind: LoopKind) {
    && (s.OutOfFuel? ==> t.OutOfFuel?)
    && (s.FellOff? ==> t.FellOff?)
    && (s.Done? ==> t == Done(S.VBol(s.value.Some?)))
    && (s.Done? && s.value.Some? && !kind.Text? ==> s.value.value == map[])
    && (s.Abort? && !kind.Text? ==> t.Abort?)
  }

  lemma {:induction false} LoopExprs(p: Program, fuel: nat, se: Env<S.Val>, id: nat, kind: LoopKind)
    ensures EmitExpr(TestExpr(id, kind)) == LoopTest(id, kind)
    ensures EmitExpr(StartExpr(kind)) == LoopStart(kind) && EmitExpr(StepExpr(kind)) == LoopStep(kind)
    ensures S.Eval(p, fuel, se, StartExpr(kind)) == S.Start(p, fuel, se, kind)
    ensures S.Eval(p, fuel, se, StepExpr(kind)) == S.Stride(p, fuel, se, kind)
  {
    match kind
    case Range(_, to, step) =>
      var down := Binary(Less, step, IntLit(0));
      assert EmitExpr(IndexRef(id)) == CVar(LoopIndex(id)) && EmitExpr(IntLit(0)) == CInt(0);
      assert EmitExpr(Not(down)) == CNot(CBinary(Less, EmitExpr(step), CInt(0)));
    case _ =>
  }

  lemma {:induction false} EnterTest(p: Program, fuel: nat, se: Env<S.Val>, id: nat, kind: LoopKind)
    ensures EnterAgrees(S.Enter(p, fuel, se, id, kind), S.Eval(p, fuel, se, TestExpr(id, kind)), kind)
  {
    match kind
    case Count(n) => EnterLess(p, fuel, se, id, kind, n, S.Eval(p, fuel, se, n));
    case Range(_, to, step) => EnterRange(p, fuel, se, id, kind, S.Eval(p, fuel, se, to), S.Eval(p, fuel, se, step));
    case While(t) =>
    case Text(t) =>
      StepUnaryS(p, fuel, se, t, S.Eval(p, fuel, se, t));
      EnterLess(p, fuel, se, id, kind, Len(t), S.Eval(p, fuel, se, Len(t)));
  }

  lemma {:induction false} EnterRange(p: Program, fuel: nat, se: Env<S.Val>, id: nat, kind: LoopKind, bound: Out<S.Val>, d: Out<S.Val>)
    requires kind.Range? && bound == S.Eval(p, fuel, se, kind.to) && d == S.Eval(p, fuel, se, kind.step)
    ensures EnterAgrees(S.Enter(p, fuel, se, id, kind), S.Eval(p, fuel, se, TestExpr(id, kind)), kind)
  {
    var i := S.Eval(p, fuel, se, IndexRef(id));
    IndexReads(p, fuel, se, id);
    RangeTest(p, fuel, se, id, kind, i, bound, d);
    RangeEnter(p, fuel, se, id, kind, i, bound, d);
    RangeAgrees(S.Enter(p, fuel, se, id, kind), S.Eval(p, fuel, se, TestExpr(id, kind)), kind, i, bound, d);
  }

  lemma {:induction false} RangeEnter(p: Program, fuel: nat, se: Env<S.Val>, id: nat, kind: LoopKind, i: Out<S.Val>, bound: Out<S.Val>, d: Out<S.Val>)
    requires kind.Range? && bound == S.Eval(p, fuel, se, kind.to) && d == S.Eval(p, fuel, se, kind.step)
    requires var v := Lookup(se, LoopIndex(id)); i == if v.Some? && v.value.VInt? then Done(v.value) else Wrong
    ensures S.Enter(p, fuel, se, id, kind) ==
              if i.Wrong? then Wrong else if !d.Done? then d.PropagateFailure() else if !d.value.VInt? then Wrong
              else if !bound.Done? then bound.PropagateFailure() else if !bound.value.VInt? then Wrong
              else Done(if (if d.value.n >= 0 then i.value.n < bound.value.n else bound.value.n < i.value.n) then Some(map[]) else None)
  {
  }

  lemma {:induction false} RangeTest(p: Program, fuel: nat, se: Env<S.Val>, id: nat, kind: LoopKind, i: Out<S.Val>, bound: Out<S.Val>, d: Out<S.Val>)
    requires kind.Range? && i == S.Eval(p, fuel, se, IndexRef(id))
    requires bound == S.Eval(p, fuel, se, kind.to) && d == S.Eval(p, fuel, se, kind.step)
    ensures S.Eval(p, fuel, se, TestExpr(id, kind)) ==
              if !d.Done? then d else if !d.value.VInt? then Wrong
              else BoolOnly(LessThan(if d.value.n >= 0 then i else bound, if d.value.n >= 0 then bound else i))
  {
    var down := Binary(Less, kind.step, IntLit(0));
    UpTest(p, fuel, se, kind.step, d);
    StepS(p, fuel, se, IndexRef(id), kind.to, i, bound, Less);
    StepS(p, fuel, se, kind.to, IndexRef(id), bound, i, Less);
    StepCondS(p, fuel, se, TestExpr(id, kind));
  }

  lemma {:induction false} UpTest(p: Program, fuel: nat, se: Env<S.Val>, step: Expr, d: Out<S.Val>)
    requires d == S.Eval(p, fuel, se, step)
    ensures S.Eval(p, fuel, se, Not(Binary(Less, step, IntLit(0)))) ==
              if !d.Done? then d else if !d.value.VInt? then Wrong else Done(S.VBol(d.value.n >= 0))
  {
    var down := Binary(Less, step, IntLit(0));
    StepS(p, fuel, se, step, IntLit(0), d, Done(S.VInt(0)), Less);
    StepUnaryS(p, fuel, se, down, S.Eval(p, fuel, se, down));
  }

  ghost function BoolOnly(v: Out<S.Val>): Out<S.Val> { if v.Done? && !v.value.VBol? then Wrong else v }

  lemma {:induction false} IndexReads(p: Program, fuel: nat, se: Env<S.Val>, id: nat)
    ensures S.Eval(p, fuel, se, IndexRef(id)) ==
              var i := Lookup(se, LoopIndex(id)); if i.Some? && i.value.VInt? then Done(i.value) else Wrong
  {
  }

  /** Both sides of a range's test, from what the counter, the bound and the step are. */
  lemma {:induction false} RangeAgrees(s: Out<Option<map<Var, S.Val>>>, t: Out<S.Val>, kind: LoopKind, i: Out<S.Val>, bound: Out<S.Val>, d: Out<S.Val>)
    requires kind.Range? && (i.Wrong? || (i.Done? && i.value.VInt?))
    requires s == if i.Wrong? then Wrong else if !d.Done? then d.PropagateFailure() else if !d.value.VInt? then Wrong
                  else if !bound.Done? then bound.PropagateFailure() else if !bound.value.VInt? then Wrong
                  else Done(if (if d.value.n >= 0 then i.value.n < bound.value.n else bound.value.n < i.value.n) then Some(map[]) else None)
    requires t == if !d.Done? then d else if !d.value.VInt? then Wrong
                  else BoolOnly(LessThan(if d.value.n >= 0 then i else bound, if d.value.n >= 0 then bound else i))
    ensures EnterAgrees(s, t, kind)
  {
  }

  ghost function LessThan(a: Out<S.Val>, b: Out<S.Val>): Out<S.Val> {
    if !a.Done? then a else if !b.Done? then b else S.Apply(Less, a.value, b.value)
  }

  lemma {:induction false} EnterLess(p: Program, fuel: nat, se: Env<S.Val>, id: nat, kind: LoopKind, n: Expr, bound: Out<S.Val>)
    requires (kind.Count? && n == kind.n) || (kind.Text? && n == Len(kind.text))
    requires bound == S.Eval(p, fuel, se, n)
    requires kind.Text? ==> var t := S.Eval(p, fuel, se, kind.text);
               bound == if !t.Done? then t else if t.value.VStr? then Done(S.VInt(|t.value.s|)) else Wrong
    ensures EnterAgrees(S.Enter(p, fuel, se, id, kind), S.Eval(p, fuel, se, Binary(Less, IndexRef(id), n)), kind)
  {
    StepS(p, fuel, se, IndexRef(id), n, S.Eval(p, fuel, se, IndexRef(id)), bound, Less);
  }

  lemma {:induction false} EnterText(p: Program, fuel: nat, se: Env<S.Val>, id: nat, t: Expr)
    ensures var s := S.Enter(p, fuel, se, id, Text(t));
            var c := S.Eval(p, fuel, Inner(map[], se), CharAt(t, IndexRef(id)));
            && (s.Abort? ==> S.Eval(p, fuel, se, TestExpr(id, Text(t))).Abort? ||
                             (S.Eval(p, fuel, se, TestExpr(id, Text(t))) == Done(S.VBol(true)) && c.Abort?))
            && (s.Done? && s.value.Some? ==>
                  c.Done? && c.value.VStr? && s.value.value == map[LoopChar(id) := c.value])
  {
    EmptyScope(p, fuel, se, CharAt(t, IndexRef(id)));
    StepUnaryS(p, fuel, se, t, S.Eval(p, fuel, se, t));
    StepS(p, fuel, se, IndexRef(id), Len(t), S.Eval(p, fuel, se, IndexRef(id)), S.Eval(p, fuel, se, Len(t)), Less);
    StepS(p, fuel, se, t, IndexRef(id), S.Eval(p, fuel, se, t), S.Eval(p, fuel, se, IndexRef(id)), Less);
  }

  // ---- one round of an emitted loop ----

  ghost function CLeave(t: Out<C.CFlow>): Out<C.CFlow> { if t.Done? then Done(C.Leave(t.value)) else t }

  /** What follows a finished round of the emitted loop. */
  ghost function CNext(code: C.Code, k: nat, tf: Out<C.CFlow>, i: Var, test: CExpr, step: CExpr, body: CBlock): Out<C.CFlow> {
    if !tf.Done? || tf.value.Returned? then tf else
    var d := C.Eval(code, k, tf.value.env, tf.value.heap, step);
    if !d.Done? then d.PropagateFailure() else
    var n := Lookup(tf.value.env, i);
    if n.None? || !n.value.IntVal? || !d.value.0.IntVal? then Wrong else
    C.Iterate(code, k, Store(tf.value.env, i, C.IntVal(n.value.n + d.value.0.n)), d.value.1, i, test, step, body)
  }

  lemma {:induction false} IterateC(code: C.Code, k: nat, te: Env<C.CVal>, h: C.Heap, i: Var, test: CExpr, step: CExpr, body: CBlock)
    ensures C.Iterate(code, k + 1, te, h, i, test, step, body) ==
              var t := C.Eval(code, k, te, h, test);
              if !t.Done? then t.PropagateFailure()
              else if !t.value.0.BoolVal? then Wrong
              else if !t.value.0.b then Done(C.Next(te, t.value.1))
              else CNext(code, k, CLeave(C.Exec(code, k, Inner(map[], te), t.value.1, body)), i, test, step, body)
  {
  }

  /** A text loop whose counter went negative stops inside its first round statement. */
  lemma {:induction false} CharStops(code: C.Code, k: nat, te: Env<C.CVal>, h: C.Heap, id: nat, text: Expr, tb: CBlock)
    requires C.Eval(code, k, Inner(map[], te), h, EmitExpr(CharAt(text, IndexRef(id)))).Abort?
    ensures C.Exec(code, k, Inner(map[], te), h, LoopBody(id, Text(text), tb)).Abort?
  {
    var drop := CThen(CDrop(LoopChar(id)), CEnd);
    var decl := CDeclare(LoopChar(id), STR, CCharAt(EmitExpr(text), CVar(LoopIndex(id))));
    assert LoopBody(id, Text(text), tb) == CThen(decl, Append(tb, drop));
    assert C.ExecStmt(code, k, Inner(map[], te), h, decl).Abort?;
  }

  /** One round of the emitted text loop: declare the character, run, drop it. */
  lemma {:induction false} TextBody(code: C.Code, fuel: nat, te: Env<C.CVal>, h: C.Heap, id: nat, text: Expr, tb: CBlock,
                                    t: CExprOut, te1: Env<C.CVal>, t2: Out<C.CFlow>)
    requires t == C.Eval(code, fuel, Inner(map[], te), h, EmitExpr(CharAt(text, IndexRef(id)))) && t.Done?
    requires te1 == Inner(map[LoopChar(id) := t.value.0], te)
    requires t2 == C.Exec(code, fuel, te1, t.value.1, tb)
    ensures var all := C.Exec(code, fuel, Inner(map[], te), h, LoopBody(id, Text(text), tb));
            if !t2.Done? || t2.value.Returned? then all == t2
            else
              var v := Lookup(t2.value.env, LoopChar(id));
              v.Some? && C.DropValue(t2.value.heap, v.value).Done? ==>
                all == Done(C.Next(t2.value.env, C.DropValue(t2.value.heap, v.value).value))
  {
    var drop := CThen(CDrop(LoopChar(id)), CEnd);
    ExecAppend(code, fuel, te1, t.value.1, tb, drop);
    var decl := CDeclare(LoopChar(id), STR, CCharAt(EmitExpr(text), CVar(LoopIndex(id))));
    assert LoopBody(id, Text(text), tb) == CThen(decl, Append(tb, drop));
    assert Put(Inner(map[], te), LoopChar(id), t.value.0) == te1;
    assert C.ExecStmt(code, fuel, Inner(map[], te), h, decl) == Done(C.Next(te1, t.value.1));
    if t2.Done? && t2.value.Next? {
      DropLast(code, fuel, t2.value.env, t2.value.heap, LoopChar(id));
    }
  }

  lemma {:induction false} DropLast(code: C.Code, fuel: nat, te: Env<C.CVal>, h: C.Heap, x: Var)
    ensures var v := Lookup(te, x);
            v.Some? && C.DropValue(h, v.value).Done? ==>
              C.Exec(code, fuel, te, h, CThen(CDrop(x), CEnd)) == Done(C.Next(te, C.DropValue(h, v.value).value))
  {
  }

  lemma {:induction false} EndsReturning(p: Program, fuel: nat, se: Env<S.Val>, b: Block)
    requires EndsWithReturn(b) && S.Exec(p, fuel, se, b).Done?
    ensures S.Exec(p, fuel, se, b).value.Returned?
    decreases b
  {
    var flow := S.ExecStmt(p, fuel, se, b.head);
    if b.tail != End && flow.Done? && flow.value.Next? { EndsReturning(p, fuel, flow.value.env, b.tail); }
  }
}
