/** The tally is right: along every run of guarded programs the emitted code has exactly as
    many more live blocks as the tally says, and its values are blocks when the tally says. */
module BlockTallyProof {
  import opened Wrappers
  import opened CasterAst
  import S = ByValue
  import C = Machine
  import opened Emit
  import opened LoweringSource
  import opened LoweringHeap
  import opened LoweringGuard
  import opened LoweringSteps
  import opened Lowering
  import opened BlockTally

  ghost predicate BitsOf(te: Env<C.CVal>, be: Env<bool>) {
    && te.vars.Keys == be.vars.Keys && (forall x :: x in te.vars ==> be.vars[x] == te.vars[x].Owned?)
    && (te.Root? <==> be.Root?) && (te.Inner? ==> BitsOf(te.outer, be.outer))
  }

  ghost predicate CostOk(s: Out<S.Val>, t: CExprOut, h: C.Heap, c: Cost) {
    s.Done? ==> t.Done? && |t.value.1.live| == |h.live| + c.made && t.value.0.Owned? == c.block
  }

  ghost predicate FlowCost(s: Out<S.Flow>, t: Out<C.CFlow>, h: C.Heap, c: Tally) {
    s.Done? ==>
      && t.Done? && |t.value.heap.live| == |h.live| + c.made
      && (s.value.Next? ==> t.value.Next? && BitsOf(t.value.env, c.bits))
      && (s.value.Returned? ==> t.value.Returned? && t.value.v.Owned? == c.block)
  }

  lemma {:induction false} BitsLookup(te: Env<C.CVal>, be: Env<bool>, x: Var)
    requires BitsOf(te, be)
    ensures Lookup(te, x).Some? <==> Lookup(be, x).Some?
    ensures Lookup(te, x).Some? ==> Lookup(be, x).value == Lookup(te, x).value.Owned?
  {
    if x !in te.vars && te.Inner? { BitsLookup(te.outer, be.outer, x); }
  }

  lemma {:induction false} BitsStore(te: Env<C.CVal>, be: Env<bool>, x: Var, c: C.CVal, b: bool)
    requires BitsOf(te, be) && Lookup(te, x).Some? && b == c.Owned?
    ensures Lookup(be, x).Some? && BitsOf(Store(te, x, c), Store(be, x, b))
  {
    BitsLookup(te, be, x);
    if x !in te.vars { BitsStore(te.outer, be.outer, x, c, b); }
  }

  // ---- heaps ----

  lemma {:induction false} AllocCounts(h: C.Heap, s: string)
    requires HeapOk(h)
    ensures |C.Alloc(h, s).1.live| == |h.live| + 1
  {
    assert h.next !in h.live;
  }

  lemma {:induction false} DropCounts(h: C.Heap, c: C.CVal)
    requires C.DropValue(h, c).Done?
    ensures |C.DropValue(h, c).value.live| == |h.live| - One(c.Owned?)
  {
    if c.Owned? {
      var k := h.live - {c.addr};
      assert k.Keys == h.live.Keys - {c.addr} && |k| == |k.Keys| && |h.live| == |h.live.Keys|;
    }
  }

  lemma {:induction false} DropNamesCounts(te: Env<C.CVal>, be: Env<bool>, h: C.Heap, names: seq<string>)
    requires BitsOf(te, be) && C.DropNames(te, h, names).Done?
    ensures |C.DropNames(te, h, names).value.live| == |h.live| - Held(be, names)
    decreases names
  {
    if names != [] {
      BitsLookup(te, be, User(names[0]));
      var v := Lookup(te, User(names[0])).value;
      DropCounts(h, v);
      DropNamesCounts(te, be, C.DropValue(h, v).value, names[1..]);
    }
  }

  lemma {:induction false} ApplyCounts(op: BinOp, a: S.Val, b: S.Val, ca: C.CVal, cb: C.CVal, k: C.Heap)
    requires HeapOk(k) && Rep(a, ca, k) && Rep(b, cb, k)
    ensures CostOk(S.Apply(op, a, b), C.Apply(k, op, ca, cb), k, Cost(One(op == Join), op == Join))
    ensures CostOk(S.ApplyAt(a, b), C.ApplyAt(k, ca, cb), k, Cost(1, true))
  {
    if a.VStr? {
      var s := C.Read(k, ca).value;
      AllocCounts(k, s + if b.VStr? then C.Read(k, cb).value else "");
      if b.VInt? && 0 <= b.n < |s| { AllocCounts(k, [s[b.n]]); }
    }
  }

  // ---- expressions ----

  lemma {:induction false} CountEval(p: Program, fuel: nat, se: Env<S.Val>, te: Env<C.CVal>, be: Env<bool>, h: C.Heap, e: Expr)
    requires Match(se, te, h) && HeapOk(h) && GuardedProgram(p) && BitsOf(te, be)
    ensures CostOk(S.Eval(p, fuel, se, e), C.Eval(EmitProgram(p), fuel, te, h, EmitExpr(e)), h, EvalTally(p, fuel, se, be, e))
    decreases fuel, 0, e, 2
  {
    match e
    case Ref(x, _) => LookupMatch(se, te, h, x.Target()); BitsLookup(te, be, x.Target());
    case Binary(_, l, r) => CountTwo(p, fuel, se, te, be, h, l, r, e);
    case CharAt(l, r) => CountTwo(p, fuel, se, te, be, h, l, r, e);
    case And(l, r) => CountTwo(p, fuel, se, te, be, h, l, r, e);
    case Or(l, r) => CountTwo(p, fuel, se, te, be, h, l, r, e);
    case Len(a) => CountOne(p, fuel, se, te, be, h, a, e);
    case Not(a) => CountOne(p, fuel, se, te, be, h, a, e);
    case Cond(_, _, _, _) => CountCond(p, fuel, se, te, be, h, e);
    case Call(_, _) => CountCall(p, fuel, se, te, be, h, e);
    case _ =>
  }

  lemma {:induction false} CountOne(p: Program, fuel: nat, se: Env<S.Val>, te: Env<C.CVal>, be: Env<bool>, h: C.Heap, a: Expr, e: Expr)
    requires a < e && (e == Len(a) || e == Not(a))
    requires Match(se, te, h) && HeapOk(h) && GuardedProgram(p) && BitsOf(te, be)
    ensures CostOk(S.Eval(p, fuel, se, e), C.Eval(EmitProgram(p), fuel, te, h, EmitExpr(e)), h, EvalTally(p, fuel, se, be, e))
    decreases fuel, 0, e, 1
  {
    SimEval(p, fuel, se, te, h, a);
    CountEval(p, fuel, se, te, be, h, a);
    OneGlue(p, fuel, se, te, be, h, a, e, S.Eval(p, fuel, se, a), C.Eval(EmitProgram(p), fuel, te, h, EmitExpr(a)));
  }

  lemma {:induction false} OneGlue(p: Program, fuel: nat, se: Env<S.Val>, te: Env<C.CVal>, be: Env<bool>, h: C.Heap, a: Expr, e: Expr,
                                   s: Out<S.Val>, t: CExprOut)
    requires e == Len(a) || e == Not(a)
    requires s == S.Eval(p, fuel, se, a) && t == C.Eval(EmitProgram(p), fuel, te, h, EmitExpr(a))
    requires EvalOk(s, t, h) && CostOk(s, t, h, EvalTally(p, fuel, se, be, a))
    ensures CostOk(S.Eval(p, fuel, se, e), C.Eval(EmitProgram(p), fuel, te, h, EmitExpr(e)), h, EvalTally(p, fuel, se, be, e))
  {
    StepUnaryS(p, fuel, se, a, s);
    StepUnaryC(EmitProgram(p), fuel, te, h, EmitExpr(a), t);
  }

  lemma {:induction false} CountTwo(p: Program, fuel: nat, se: Env<S.Val>, te: Env<C.CVal>, be: Env<bool>, h: C.Heap, l: Expr, r: Expr, e: Expr)
    requires l < e && r < e
    requires e == And(l, r) || e == Or(l, r) || e == CharAt(l, r) || (e.Binary? && e == Binary(e.op, l, r))
    requires Match(se, te, h) && HeapOk(h) && GuardedProgram(p) && BitsOf(te, be)
    ensures CostOk(S.Eval(p, fuel, se, e), C.Eval(EmitProgram(p), fuel, te, h, EmitExpr(e)), h, EvalTally(p, fuel, se, be, e))
    decreases fuel, 0, e, 1
  {
    var code := EmitProgram(p);
    var a, b := S.Eval(p, fuel, se, l), S.Eval(p, fuel, se, r);
    var ca := C.Eval(code, fuel, te, h, EmitExpr(l));
    var cb := if ca.Done? then C.Eval(code, fuel, te, ca.value.1, EmitExpr(r)) else ca;
    SimEval(p, fuel, se, te, h, l);
    CountEval(p, fuel, se, te, be, h, l);
    if a.Done? {
      MatchGrow(se, te, h, ca.value.1);
      SimEval(p, fuel, se, te, ca.value.1, r);
      CountEval(p, fuel, se, te, be, ca.value.1, r);
    }
    if e.And? || e.Or? {
      LogicGlue(p, fuel, se, te, be, h, l, r, e, a, ca, b, cb);
    } else {
      OperatorGlue(p, fuel, se, te, be, h, l, r, e, a, ca, b, cb);
    }
  }

  lemma {:induction false} LogicGlue(p: Program, fuel: nat, se: Env<S.Val>, te: Env<C.CVal>, be: Env<bool>, h: C.Heap, l: Expr, r: Expr, e: Expr,
                                     a: Out<S.Val>, ca: CExprOut, b: Out<S.Val>, cb: CExprOut)
    requires e == And(l, r) || e == Or(l, r)
    requires a == S.Eval(p, fuel, se, l) && b == S.Eval(p, fuel, se, r) && ca == C.Eval(EmitProgram(p), fuel, te, h, EmitExpr(l))
    requires ca.Done? ==> cb == C.Eval(EmitProgram(p), fuel, te, ca.value.1, EmitExpr(r))
    requires EvalOk(a, ca, h) && CostOk(a, ca, h, EvalTally(p, fuel, se, be, l))
    requires a.Done? ==> EvalOk(b, cb, ca.value.1) && CostOk(b, cb, ca.value.1, EvalTally(p, fuel, se, be, r))
    ensures CostOk(S.Eval(p, fuel, se, e), C.Eval(EmitProgram(p), fuel, te, h, EmitExpr(e)), h, EvalTally(p, fuel, se, be, e))
  {
    StepLogicS(p, fuel, se, l, r, a, b);
    StepLogicC(EmitProgram(p), fuel, te, h, EmitExpr(l), EmitExpr(r), ca, cb);
  }

  lemma {:induction false} OperatorGlue(p: Program, fuel: nat, se: Env<S.Val>, te: Env<C.CVal>, be: Env<bool>, h: C.Heap, l: Expr, r: Expr, e: Expr,
                                        a: Out<S.Val>, ca: CExprOut, b: Out<S.Val>, cb: CExprOut)
    requires e == CharAt(l, r) || (e.Binary? && e == Binary(e.op, l, r))
    requires a == S.Eval(p, fuel, se, l) && b == S.Eval(p, fuel, se, r) && ca == C.Eval(EmitProgram(p), fuel, te, h, EmitExpr(l))
    requires ca.Done? ==> cb == C.Eval(EmitProgram(p), fuel, te, ca.value.1, EmitExpr(r))
    requires EvalOk(a, ca, h) && CostOk(a, ca, h, EvalTally(p, fuel, se, be, l))
    requires a.Done? ==> EvalOk(b, cb, ca.value.1) && CostOk(b, cb, ca.value.1, EvalTally(p, fuel, se, be, r))
    ensures CostOk(S.Eval(p, fuel, se, e), C.Eval(EmitProgram(p), fuel, te, h, EmitExpr(e)), h, EvalTally(p, fuel, se, be, e))
  {
    var op := if e.Binary? then e.op else Join;
    StepS(p, fuel, se, l, r, a, b, op);
    StepC(EmitProgram(p), fuel, te, h, EmitExpr(l), EmitExpr(r), ca, cb, op);
    if a.Done? && b.Done? { ApplyCounts(op, a.value, b.value, ca.value.0, cb.value.0, cb.value.1); }
  }

  lemma {:induction false} PickGlue(p: Program, fuel: nat, se: Env<S.Val>, te: Env<C.CVal>, be: Env<bool>, h: C.Heap, e: Expr, pick: Expr,
                                    a: Out<S.Val>, ca: CExprOut, v: Out<S.Val>, cv: CExprOut)
    requires e.Cond? && a == S.Eval(p, fuel, se, e.test) && ca == C.Eval(EmitProgram(p), fuel, te, h, EmitExpr(e.test))
    requires a.Done? && a.value.VBol? && pick == (if a.value.b then e.yes else e.no)
    requires EvalOk(a, ca, h) && |ca.value.1.live| == |h.live| + EvalTally(p, fuel, se, be, e.test).made
    requires v == S.Eval(p, fuel, se, pick) && cv == C.Eval(EmitProgram(p), fuel, te, ca.value.1, EmitExpr(pick))
    requires EvalOk(v, cv, ca.value.1) && CostOk(v, cv, ca.value.1, EvalTally(p, fuel, se, be, pick))
    ensures CostOk(S.Eval(p, fuel, se, e), C.Eval(EmitProgram(p), fuel, te, h, EmitExpr(e)), h, EvalTally(p, fuel, se, be, e))
  {
    StepCond(p, fuel, se, te, h, e, pick);
    PickTally(p, fuel, se, be, e, pick);
  }

  lemma {:induction false} PickTally(p: Program, fuel: nat, se: Env<S.Val>, be: Env<bool>, e: Expr, pick: Expr)
    requires e.Cond? && pick == if IsTrue(S.Eval(p, fuel, se, e.test)) then e.yes else e.no
    ensures var c := EvalTally(p, fuel, se, be, pick);
            EvalTally(p, fuel, se, be, e) == Cost(EvalTally(p, fuel, se, be, e.test).made + c.made, e.ty == STR && c.block)
  {
  }

  lemma {:induction false} CountCond(p: Program, fuel: nat, se: Env<S.Val>, te: Env<C.CVal>, be: Env<bool>, h: C.Heap, e: Expr)
    requires e.Cond? && Match(se, te, h) && HeapOk(h) && GuardedProgram(p) && BitsOf(te, be)
    ensures CostOk(S.Eval(p, fuel, se, e), C.Eval(EmitProgram(p), fuel, te, h, EmitExpr(e)), h, EvalTally(p, fuel, se, be, e))
    decreases fuel, 0, e, 1
  {
    SimEval(p, fuel, se, te, h, e.test);
    CountEval(p, fuel, se, te, be, h, e.test);
    var a := S.Eval(p, fuel, se, e.test);
    var ca := C.Eval(EmitProgram(p), fuel, te, h, EmitExpr(e.test));
    if a.Done? && a.value.VBol? {
      var pick := if a.value.b then e.yes else e.no;
      MatchGrow(se, te, h, ca.value.1);
      SimEval(p, fuel, se, te, ca.value.1, pick);
      CountEval(p, fuel, se, te, be, ca.value.1, pick);
      PickGlue(p, fuel, se, te, be, h, e, pick, a, ca, S.Eval(p, fuel, se, pick), C.Eval(EmitProgram(p), fuel, te, ca.value.1, EmitExpr(pick)));
    } else {
      CondStops(p, fuel, se, te, h, e, a, ca);
    }
  }

  // ---- copies and calls ----

  lemma {:induction false} CopyCounts(p: Program, fuel: nat, s: Out<S.Val>, te: Env<C.CVal>, h: C.Heap, e: Expr, ty: Ty, c: Cost)
    requires var t := C.Eval(EmitProgram(p), fuel, te, h, EmitExpr(e)); EvalOk(s, t, h) && CostOk(s, t, h, c)
    requires s.Done? && ShouldCopy(e) && ty == STR ==> s.value.VStr?
    ensures CostOk(s, C.Eval(EmitProgram(p), fuel, te, h, EmitAssigned(ty, e)), h, Copied(c, e, ty))
  {
    var t := C.Eval(EmitProgram(p), fuel, te, h, EmitExpr(e));
    StepUnaryC(EmitProgram(p), fuel, te, h, EmitExpr(e), t);
    if s.Done? && ShouldCopy(e) && ty == STR { AllocCounts(t.value.1, s.value.s); }
  }

  ghost predicate BitsAre(cs: seq<C.CVal>, bits: seq<bool>) { |cs| == |bits| && forall i :: 0 <= i < |cs| ==> bits[i] == cs[i].Owned? }

  ghost predicate ArgsCost(s: Out<seq<S.Val>>, t: Out<(seq<C.CVal>, C.Heap)>, h: C.Heap, made: int, bits: seq<bool>) {
    s.Done? ==> t.Done? && |t.value.1.live| == |h.live| + made && BitsAre(t.value.0, bits)
  }

  lemma {:induction false} CountArg(p: Program, fuel: nat, se: Env<S.Val>, te: Env<C.CVal>, be: Env<bool>, h: C.Heap, e: Expr)
    requires Match(se, te, h) && HeapOk(h) && GuardedProgram(p) && BitsOf(te, be)
    ensures EvalOk(S.Eval(p, fuel, se, e), C.Eval(EmitProgram(p), fuel, te, h, EmitArg(e)), h)
    ensures CostOk(S.Eval(p, fuel, se, e), C.Eval(EmitProgram(p), fuel, te, h, EmitArg(e)), h,
                   Copied(EvalTally(p, fuel, se, be, e), e, ArgType(e)))
    decreases fuel, 0, e, 3
  {
    SimEval(p, fuel, se, te, h, e);
    CountEval(p, fuel, se, te, be, h, e);
    ReadTypes(p, fuel, se, e);
    ArgOk(p, fuel, se, te, h, e);
    assert EmitArg(e) == EmitAssigned(ArgType(e), e);
    CopyCounts(p, fuel, S.Eval(p, fuel, se, e), te, h, e, ArgType(e), EvalTally(p, fuel, se, be, e));
  }

  lemma {:induction false} CountArgs(p: Program, fuel: nat, se: Env<S.Val>, te: Env<C.CVal>, be: Env<bool>, h: C.Heap, args: Args)
    requires Match(se, te, h) && HeapOk(h) && GuardedProgram(p) && BitsOf(te, be)
    ensures ArgsCost(S.EvalArgs(p, fuel, se, args), C.EvalArgs(EmitProgram(p), fuel, te, h, EmitArgs(args)), h,
                     ArgsTally(p, fuel, se, be, args), ArgBits(p, fuel, se, be, args))
    decreases fuel, 0, args, 0
  {
    if args.Arg? {
      var s, t := S.Eval(p, fuel, se, args.head), C.Eval(EmitProgram(p), fuel, te, h, EmitArg(args.head));
      CountArg(p, fuel, se, te, be, h, args.head);
      if s.Done? {
        MatchGrow(se, te, h, t.value.1);
        CountArgs(p, fuel, se, te, be, t.value.1, args.tail);
      }
      ConsCost(p, fuel, se, te, be, h, args.head, args.tail, EmitArg(args.head), EmitArgs(args.tail), s, t);
    }
  }

  lemma {:induction false} ConsCost(p: Program, fuel: nat, se: Env<S.Val>, te: Env<C.CVal>, be: Env<bool>, h: C.Heap, e: Expr, rest: Args,
                                    c: CExpr, cs: CArgs, s: Out<S.Val>, t: CExprOut)
    requires s == S.Eval(p, fuel, se, e) && t == C.Eval(EmitProgram(p), fuel, te, h, c)
    requires CostOk(s, t, h, Copied(EvalTally(p, fuel, se, be, e), e, ArgType(e)))
    requires s.Done? ==> ArgsCost(S.EvalArgs(p, fuel, se, rest), C.EvalArgs(EmitProgram(p), fuel, te, t.value.1, cs), t.value.1,
                                  ArgsTally(p, fuel, se, be, rest), ArgBits(p, fuel, se, be, rest))
    ensures ArgsCost(S.EvalArgs(p, fuel, se, Arg(e, rest)), C.EvalArgs(EmitProgram(p), fuel, te, h, CArg(c, cs)), h,
                     ArgsTally(p, fuel, se, be, Arg(e, rest)), ArgBits(p, fuel, se, be, Arg(e, rest)))
  {
  }

  lemma {:induction false} CountCall(p: Program, fuel: nat, se: Env<S.Val>, te: Env<C.CVal>, be: Env<bool>, h: C.Heap, e: Expr)
    requires e.Call? && Match(se, te, h) && HeapOk(h) && GuardedProgram(p) && BitsOf(te, be)
    ensures CostOk(S.Eval(p, fuel, se, e), C.Eval(EmitProgram(p), fuel, te, h, EmitExpr(e)), h, EvalTally(p, fuel, se, be, e))
    decreases fuel, 0, e, 1
  {
    SimArgs(p, fuel, se, te, h, e.args);
    CountArgs(p, fuel, se, te, be, h, e.args);
    var vs := S.EvalArgs(p, fuel, se, e.args);
    var cs := C.EvalArgs(EmitProgram(p), fuel, te, h, EmitArgs(e.args));
    if vs.Done? && fuel > 0 {
      CountRun(p, fuel - 1, cs.value.1, e.fn, vs.value, cs.value.0, ArgBits(p, fuel, se, be, e.args));
    }
  }

  // ---- statements ----

  ghost predicate Ready(p: Program, se: Env<S.Val>, te: Env<C.CVal>, be: Env<bool>, h: C.Heap, base: nat, owned: seq<string>, params: set<string>) {
    State(se, te, h, base) && GuardedProgram(p) && Owners(owned, params, se, te, base) && BitsOf(te, be)
  }

  lemma {:induction false} DeclareCost(p: Program, fuel: nat, se: Env<S.Val>, te: Env<C.CVal>, be: Env<bool>, h: C.Heap, s: Stmt, depth: nat,
                                       owned: seq<string>, v: Out<S.Val>, value: CExpr, t: CExprOut, c: Cost)
    requires s.Declare? && v == S.Eval(p, fuel, se, s.init) && t == C.Eval(EmitProgram(p), fuel, te, h, value)
    requires Match(se, te, h) && BitsOf(te, be) && CostOk(v, t, h, c) && c == Copied(EvalTally(p, fuel, se, be, s.init), s.init, s.ty)
    ensures FlowCost(S.ExecStmt(p, fuel, se, s), C.ExecStmt(EmitProgram(p), fuel, te, h, CDeclare(User(s.name), s.ty, value)), h,
                     StmtTally(p, fuel, se, be, s, depth, owned))
  {
  }

  lemma {:induction false} AssignCost(p: Program, fuel: nat, se: Env<S.Val>, te: Env<C.CVal>, be: Env<bool>, h: C.Heap, s: Stmt, depth: nat,
                                      owned: seq<string>, v: Out<S.Val>, value: CExpr, t: CExprOut, c: Cost)
    requires s.Assign? && v == S.Eval(p, fuel, se, s.value) && t == C.Eval(EmitProgram(p), fuel, te, h, value)
    requires Match(se, te, h) && BitsOf(te, be) && CostOk(v, t, h, c) && c == Copied(EvalTally(p, fuel, se, be, s.value), s.value, s.ty)
    ensures FlowCost(S.ExecStmt(p, fuel, se, s), C.ExecStmt(EmitProgram(p), fuel, te, h, CAssign(s.target.Target(), value)), h,
                     StmtTally(p, fuel, se, be, s, depth, owned))
  {
    LookupMatch(se, te, h, s.target.Target());
    if v.Done? && Lookup(te, s.target.Target()).Some? { BitsStore(te, be, s.target.Target(), t.value.0, c.block); }
  }

  lemma {:induction false} CountStore(p: Program, fuel: nat, se: Env<S.Val>, te: Env<C.CVal>, be: Env<bool>, h: C.Heap, s: Stmt, depth: nat,
                                      owned: seq<string>)
    requires s.Declare? || s.Assign?
    requires Match(se, te, h) && HeapOk(h) && GuardedProgram(p) && BitsOf(te, be)
    ensures FlowCost(S.ExecStmt(p, fuel, se, s), C.ExecStmt(EmitProgram(p), fuel, te, h, EmitStmt(s, depth, owned)), h,
                     StmtTally(p, fuel, se, be, s, depth, owned))
    decreases fuel, 0, s, 0
  {
    var e := if s.Declare? then s.init else s.value;
    var v, t := S.Eval(p, fuel, se, e), C.Eval(EmitProgram(p), fuel, te, h, EmitAssigned(s.ty, e));
    var c := Copied(EvalTally(p, fuel, se, be, e), e, s.ty);
    if v.Done? && S.TypeOf(v.value) == s.ty {
      SimEval(p, fuel, se, te, h, e);
      CountEval(p, fuel, se, te, be, h, e);
      CopyCounts(p, fuel, v, te, h, e, s.ty, EvalTally(p, fuel, se, be, e));
      if s.Declare? {
        DeclareCost(p, fuel, se, te, be, h, s, depth, owned, v, EmitAssigned(s.ty, e), t, c);
      } else {
        AssignCost(p, fuel, se, te, be, h, s, depth, owned, v, EmitAssigned(s.ty, e), t, c);
      }
    }
  }

  lemma {:induction false} CountAddAssign(p: Program, fuel: nat, se: Env<S.Val>, te: Env<C.CVal>, be: Env<bool>, h: C.Heap, x: NameRef, ty: Ty,
                                          e: Expr, depth: nat, owned: seq<string>)
    requires Match(se, te, h) && HeapOk(h) && GuardedProgram(p) && BitsOf(te, be)
    ensures FlowCost(S.ExecStmt(p, fuel, se, AddAssign(x, ty, e)), C.ExecStmt(EmitProgram(p), fuel, te, h, EmitStmt(AddAssign(x, ty, e), depth, owned)), h,
                     StmtTally(p, fuel, se, be, AddAssign(x, ty, e), depth, owned))
    decreases fuel, 0, AddAssign(x, ty, e), 0
  {
    SimEval(p, fuel, se, te, h, e);
    CountEval(p, fuel, se, te, be, h, e);
    AddGlue(p, fuel, se, te, be, h, x, ty, e, depth, owned, S.Eval(p, fuel, se, e), C.Eval(EmitProgram(p), fuel, te, h, EmitExpr(e)),
            EvalTally(p, fuel, se, be, e).made);
  }

  lemma {:induction false} AddCost(te: Env<C.CVal>, be: Env<bool>, h: C.Heap, op: BinOp, x: Var, v: S.Val, w: S.Val, cv: C.CVal, cw: C.CVal, k: C.Heap)
    requires BitsOf(te, be) && Lookup(te, x) == Some(cv) && HeapOk(h) && HeapOk(k) && Keep(h, k, {}) && Rep(v, cv, h) && Rep(w, cw, k)
    ensures S.Apply(op, v, w).Done? ==>
              var t := C.Apply(k, op, cv, cw);
              t.Done? && |t.value.1.live| == |k.live| + One(op == Join) && BitsOf(Store(te, x, t.value.0), SetBit(be, x, op == Join))
  {
    ApplyCounts(op, v, w, cv, cw, k);
    if S.Apply(op, v, w).Done? { BitsStore(te, be, x, C.Apply(k, op, cv, cw).value.0, op == Join); }
  }

  lemma {:induction false} AddGlue(p: Program, fuel: nat, se: Env<S.Val>, te: Env<C.CVal>, be: Env<bool>, h: C.Heap, x: NameRef, ty: Ty, e: Expr,
                                   depth: nat, owned: seq<string>, s: Out<S.Val>, c: CExprOut, made: int)
    requires s == S.Eval(p, fuel, se, e) && c == C.Eval(EmitProgram(p), fuel, te, h, EmitExpr(e)) && EvalOk(s, c, h)
    requires made == EvalTally(p, fuel, se, be, e).made && (s.Done? ==> |c.value.1.live| == |h.live| + made)
    requires BitsOf(te, be) && Match(se, te, h) && HeapOk(h)
    ensures FlowCost(S.ExecStmt(p, fuel, se, AddAssign(x, ty, e)), C.ExecStmt(EmitProgram(p), fuel, te, h, EmitAddAssign(x, ty, e)), h,
                     StmtTally(p, fuel, se, be, AddAssign(x, ty, e), depth, owned))
  {
    var v, cv := Lookup(se, x.Target()), Lookup(te, x.Target());
    if v.Some? && S.TypeOf(v.value) == ty && s.Done? {
      LookupMatch(se, te, h, x.Target());
      AddJoined(p, fuel, se, te, be, h, x, ty, e, depth, owned, v.value, cv.value, s.value, c.value.0, c.value.1, made);
    } else {
      AddStepS(p, fuel, se, x, ty, e, s, if ty == STR then Join else Plus);
    }
  }

  lemma {:induction false} AddJoined(p: Program, fuel: nat, se: Env<S.Val>, te: Env<C.CVal>, be: Env<bool>, h: C.Heap, x: NameRef, ty: Ty, e: Expr,
                                     depth: nat, owned: seq<string>, v: S.Val, cv: C.CVal, w: S.Val, cw: C.CVal, k: C.Heap, made: int)
    requires S.Eval(p, fuel, se, e) == Done(w) && C.Eval(EmitProgram(p), fuel, te, h, EmitExpr(e)) == Done((cw, k))
    requires made == EvalTally(p, fuel, se, be, e).made && |k.live| == |h.live| + made
    requires BitsOf(te, be) && HeapOk(h) && HeapOk(k) && Keep(h, k, {}) && Rep(v, cv, h) && Rep(w, cw, k)
    requires Lookup(se, x.Target()) == Some(v) && Lookup(te, x.Target()) == Some(cv) && S.TypeOf(v) == ty
    ensures FlowCost(S.ExecStmt(p, fuel, se, AddAssign(x, ty, e)), C.ExecStmt(EmitProgram(p), fuel, te, h, EmitAddAssign(x, ty, e)), h,
                     StmtTally(p, fuel, se, be, AddAssign(x, ty, e), depth, owned))
  {
    var op := if ty == STR then Join else Plus;
    AddStepS(p, fuel, se, x, ty, e, Done(w), op);
    AddStepC(p, fuel, te, h, x, ty, e, op, cv, Done((cw, k)));
    AddCost(te, be, h, op, x.Target(), v, w, cv, cw, k);
    AddTally(p, fuel, se, be, x, ty, e, depth, owned);
  }

  lemma {:induction false} AddTally(p: Program, fuel: nat, se: Env<S.Val>, be: Env<bool>, x: NameRef, ty: Ty, e: Expr, depth: nat, owned: seq<string>)
    ensures StmtTally(p, fuel, se, be, AddAssign(x, ty, e), depth, owned)
              == Tally(SetBit(be, x.Target(), ty == STR), EvalTally(p, fuel, se, be, e).made + One(ty == STR), false)
  {
  }

  lemma {:induction false} CountFree(p: Program, fuel: nat, se: Env<S.Val>, te: Env<C.CVal>, be: Env<bool>, h: C.Heap, x: NameRef, depth: nat,
                                     owned: seq<string>)
    requires BitsOf(te, be)
    requires var d := C.ExecStmt(EmitProgram(p), fuel, te, h, CDrop(x.Target())); d.Done? && d.value.Next? && d.value.env == te
    ensures var k := C.ExecStmt(EmitProgram(p), fuel, te, h, CDrop(x.Target())).value.heap;
            FlowCost(Done(S.Next(se)), C.ExecStmt(EmitProgram(p), fuel, te, k, CAssign(x.Target(), CLit(""))), h,
                     StmtTally(p, fuel, se, be, Free(x), depth, owned))
  {
    BitsLookup(te, be, x.Target());
    DropCounts(h, Lookup(te, x.Target()).value);
    BitsStore(te, be, x.Target(), C.Static(""), false);
  }

  ghost function ReturnedCost(c: Cost, e: Expr, owned: seq<string>): Cost {
    if ReturnIsBorrowed(e, owned) then Copied(c, e, ArgType(e)) else c
  }

  lemma {:induction false} CountReturned(p: Program, fuel: nat, se: Env<S.Val>, te: Env<C.CVal>, be: Env<bool>, h: C.Heap, e: Expr,
                                         owned: seq<string>)
    requires Match(se, te, h) && HeapOk(h) && GuardedProgram(p) && BitsOf(te, be)
    ensures CostOk(S.Eval(p, fuel, se, e), C.Eval(EmitProgram(p), fuel, te, h, EmitReturned(e, owned)), h,
                   ReturnedCost(EvalTally(p, fuel, se, be, e), e, owned))
    decreases fuel, 0, e, 3
  {
    SimEval(p, fuel, se, te, h, e);
    CountEval(p, fuel, se, te, be, h, e);
    ReadTypes(p, fuel, se, e);
    CopyCounts(p, fuel, S.Eval(p, fuel, se, e), te, h, e, ArgType(e), EvalTally(p, fuel, se, be, e));
  }

  lemma {:induction false} ReturnTally(p: Program, fuel: nat, se: Env<S.Val>, be: Env<bool>, e: Expr, depth: nat, owned: seq<string>)
    ensures var c := ReturnedCost(EvalTally(p, fuel, se, be, e), e, owned);
            StmtTally(p, fuel, se, be, Ret(Some(e)), depth, owned) == Tally(be, c.made - Held(be, ReturnDrops(e, owned)), c.block)
  {
  }

  lemma {:induction false} ReturnRuns(code: C.Code, fuel: nat, te: Env<C.CVal>, be: Env<bool>, h: C.Heap, value: CExpr, names: seq<string>, t: CExprOut)
    requires BitsOf(te, be) && t == C.Eval(code, fuel, te, h, value) && t.Done? && C.ExecStmt(code, fuel, te, h, CReturn(value, names)).Done?
    ensures var r := C.ExecStmt(code, fuel, te, h, CReturn(value, names)).value;
            r.Returned? && r.v == t.value.0 && |r.heap.live| == |t.value.1.live| - Held(be, names)
  {
    DropNamesCounts(te, be, t.value.1, names);
  }

  lemma {:induction false} ReturnGlue(p: Program, fuel: nat, se: Env<S.Val>, te: Env<C.CVal>, be: Env<bool>, h: C.Heap, e: Expr, depth: nat,
                                      owned: seq<string>, value: CExpr, names: seq<string>, s: Out<S.Val>, t: CExprOut, c: Cost)
    requires BitsOf(te, be) && s == S.Eval(p, fuel, se, e) && t == C.Eval(EmitProgram(p), fuel, te, h, value) && CostOk(s, t, h, c)
    requires names == ReturnDrops(e, owned) && c == ReturnedCost(EvalTally(p, fuel, se, be, e), e, owned)
    requires s.Done? ==> C.ExecStmt(EmitProgram(p), fuel, te, h, CReturn(value, names)).Done?
    ensures FlowCost(S.ExecStmt(p, fuel, se, Ret(Some(e))), C.ExecStmt(EmitProgram(p), fuel, te, h, CReturn(value, names)), h,
                     StmtTally(p, fuel, se, be, Ret(Some(e)), depth, owned))
  {
    if s.Done? {
      ReturnRuns(EmitProgram(p), fuel, te, be, h, value, names, t);
      ReturnTally(p, fuel, se, be, e, depth, owned);
    }
  }

  lemma {:induction false} CountReturn(p: Program, fuel: nat, se: Env<S.Val>, te: Env<C.CVal>, be: Env<bool>, h: C.Heap, base: nat, e: Expr,
                                       depth: nat, owned: seq<string>, params: set<string>)
    requires Ready(p, se, te, be, h, base, owned, params) && GuardedStmt(Ret(Some(e)), depth, owned, params) && depth >= 1
    ensures FlowCost(S.ExecStmt(p, fuel, se, Ret(Some(e))), C.ExecStmt(EmitProgram(p), fuel, te, h, EmitStmt(Ret(Some(e)), depth, owned)), h,
                     StmtTally(p, fuel, se, be, Ret(Some(e)), depth, owned))
    decreases fuel, 0, Ret(Some(e)), 0
  {
    SimEval(p, fuel, se, te, h, e);
    SimReturn(p, fuel, se, te, h, base, e, owned, params);
    CountReturned(p, fuel, se, te, be, h, e, owned);
    ReturnGlue(p, fuel, se, te, be, h, e, depth, owned, EmitReturned(e, owned), ReturnDrops(e, owned), S.Eval(p, fuel, se, e),
               C.Eval(EmitProgram(p), fuel, te, h, EmitReturned(e, owned)), ReturnedCost(EvalTally(p, fuel, se, be, e), e, owned));
  }

  lemma {:induction false} CountReturnVoid(p: Program, fuel: nat, se: Env<S.Val>, te: Env<C.CVal>, be: Env<bool>, h: C.Heap, base: nat,
                                           depth: nat, owned: seq<string>, params: set<string>)
    requires Ready(p, se, te, be, h, base, owned, params)
    ensures FlowCost(S.ExecStmt(p, fuel, se, Ret(None)), C.ExecStmt(EmitProgram(p), fuel, te, h, EmitStmt(Ret(None), depth, owned)), h,
                     StmtTally(p, fuel, se, be, Ret(None), depth, owned))
  {
    SimReturnVoid(p, fuel, se, te, h, base, owned, params);
    VoidGlue(EmitProgram(p), fuel, te, be, h, Drops(owned, None));
  }

  lemma {:induction false} VoidGlue(code: C.Code, fuel: nat, te: Env<C.CVal>, be: Env<bool>, h: C.Heap, names: seq<string>)
    requires BitsOf(te, be) && C.ExecStmt(code, fuel, te, h, CReturnVoid(names)).Done?
    ensures var t := C.ExecStmt(code, fuel, te, h, CReturnVoid(names));
            t.value.Returned? && t.value.v == C.Void && |t.value.heap.live| == |h.live| - Held(be, names)
  {
    DropNamesCounts(te, be, h, names);
  }

  lemma {:induction false} CountDiscard(p: Program, fuel: nat, se: Env<S.Val>, te: Env<C.CVal>, be: Env<bool>, h: C.Heap, e: Expr,
                                        depth: nat, owned: seq<string>)
    requires Match(se, te, h) && HeapOk(h) && GuardedProgram(p) && BitsOf(te, be)
    ensures FlowCost(S.ExecStmt(p, fuel, se, Discard(e)), C.ExecStmt(EmitProgram(p), fuel, te, h, EmitStmt(Discard(e), depth, owned)), h,
                     StmtTally(p, fuel, se, be, Discard(e), depth, owned))
    decreases fuel, 0, Discard(e), 0
  {
    CountEval(p, fuel, se, te, be, h, e);
  }

  lemma {:induction false} CountStmt(p: Program, fuel: nat, se: Env<S.Val>, te: Env<C.CVal>, be: Env<bool>, h: C.Heap, base: nat, s: Stmt,
                                     depth: nat, owned: seq<string>, params: set<string>)
    requires !s.Free? && Ready(p, se, te, be, h, base, owned, params) && GuardedStmt(s, depth, owned, params) && depth >= 1
    ensures FlowCost(S.ExecStmt(p, fuel, se, s), C.ExecStmt(EmitProgram(p), fuel, te, h, EmitStmt(s, depth, owned)), h,
                     StmtTally(p, fuel, se, be, s, depth, owned))
    decreases fuel, 0, s, 3
  {
    if s.Loop? {
      CountLoop(p, fuel, se, te, be, h, base, s.id, s.kind, s.body, depth, owned, params);
    } else if s.If? {
      CountBranches(p, fuel, se, te, be, h, base, s.branches, depth, owned, params);
    } else if s.Ret? {
      if s.result.Some? {
        CountReturn(p, fuel, se, te, be, h, base, s.result.value, depth, owned, params);
      } else {
        CountReturnVoid(p, fuel, se, te, be, h, base, depth, owned, params);
      }
    } else {
      CountStep(p, fuel, se, te, be, h, s, depth, owned);
    }
  }

  lemma {:induction false} CountStep(p: Program, fuel: nat, se: Env<S.Val>, te: Env<C.CVal>, be: Env<bool>, h: C.Heap, s: Stmt, depth: nat,
                                     owned: seq<string>)
    requires s.Declare? || s.Assign? || s.AddAssign? || s.Discard? || s.Pass?
    requires Match(se, te, h) && HeapOk(h) && GuardedProgram(p) && BitsOf(te, be)
    ensures FlowCost(S.ExecStmt(p, fuel, se, s), C.ExecStmt(EmitProgram(p), fuel, te, h, EmitStmt(s, depth, owned)), h,
                     StmtTally(p, fuel, se, be, s, depth, owned))
    decreases fuel, 0, s, 1
  {
    if s.Declare? || s.Assign? {
      CountStore(p, fuel, se, te, be, h, s, depth, owned);
    } else if s.AddAssign? {
      CountAddAssign(p, fuel, se, te, be, h, s.target, s.ty, s.value, depth, owned);
    } else if s.Discard? {
      CountDiscard(p, fuel, se, te, be, h, s.e, depth, owned);
    }
  }

  // ---- blocks ----

  lemma {:induction false} CountBlock(p: Program, fuel: nat, se: Env<S.Val>, te: Env<C.CVal>, be: Env<bool>, h: C.Heap, base: nat, b: Block,
                                      depth: nat, owned: seq<string>, params: set<string>)
    requires Ready(p, se, te, be, h, base, owned, params) && GuardedBlock(b, depth, owned, params)
    requires depth >= 1 && (depth == 1 ==> AtTop(se))
    ensures FlowCost(S.Exec(p, fuel, se, b), C.Exec(EmitProgram(p), fuel, te, h, EmitBlock(b, depth, owned)), h,
                     ExecTally(p, fuel, se, be, b, depth, owned))
    decreases fuel, 0, b, 1
  {
    if b.Then? {
      if b.head.Free? {
        CountFreed(p, fuel, se, te, be, h, base, b, depth, owned, params);
      } else {
        CountHead(p, fuel, se, te, be, h, base, b, depth, owned, params);
      }
    }
  }

  lemma {:induction false} HeadFlows(p: Program, fuel: nat, se: Env<S.Val>, te: Env<C.CVal>, be: Env<bool>, h: C.Heap, base: nat, b: Block,
                                     depth: nat, owned: seq<string>, params: set<string>)
    requires b.Then? && !b.head.Free? && Ready(p, se, te, be, h, base, owned, params) && GuardedBlock(b, depth, owned, params) && depth >= 1
    ensures var flow, t := S.ExecStmt(p, fuel, se, b.head), C.ExecStmt(EmitProgram(p), fuel, te, h, EmitStmt(b.head, depth, owned));
            && FlowOk(flow, t, te, h, base) && Settled(flow, t, te, b.head, base)
            && FlowCost(flow, t, h, StmtTally(p, fuel, se, be, b.head, depth, owned))
    decreases fuel, 0, b, 0, 0
  {
    SimStmt(p, fuel, se, te, h, base, b.head, depth, owned, params);
    CountStmt(p, fuel, se, te, be, h, base, b.head, depth, owned, params);
  }

  lemma {:induction false} CountHead(p: Program, fuel: nat, se: Env<S.Val>, te: Env<C.CVal>, be: Env<bool>, h: C.Heap, base: nat, b: Block,
                                     depth: nat, owned: seq<string>, params: set<string>)
    requires b.Then? && !b.head.Free? && Ready(p, se, te, be, h, base, owned, params) && GuardedBlock(b, depth, owned, params)
    requires depth >= 1 && (depth == 1 ==> AtTop(se))
    ensures FlowCost(S.Exec(p, fuel, se, b),
                     C.Exec(EmitProgram(p), fuel, te, h,
                            CThen(EmitStmt(b.head, depth, owned), EmitBlock(b.tail, depth, ListAfter(b.head, depth, owned)))), h,
                     ExecTally(p, fuel, se, be, b, depth, owned))
    decreases fuel, 0, b, 0, 1
  {
    HeadFlows(p, fuel, se, te, be, h, base, b, depth, owned, params);
    CountRest(p, fuel, se, te, be, h, base, b, depth, owned, params, S.ExecStmt(p, fuel, se, b.head),
              C.ExecStmt(EmitProgram(p), fuel, te, h, EmitStmt(b.head, depth, owned)));
  }

  lemma {:induction false} CountFreed(p: Program, fuel: nat, se: Env<S.Val>, te: Env<C.CVal>, be: Env<bool>, h: C.Heap, base: nat, b: Block,
                                      depth: nat, owned: seq<string>, params: set<string>)
    requires b.Then? && b.head.Free? && Ready(p, se, te, be, h, base, owned, params) && GuardedBlock(b, depth, owned, params)
    requires depth >= 1 && (depth == 1 ==> AtTop(se))
    ensures FlowCost(S.Exec(p, fuel, se, b), C.Exec(EmitProgram(p), fuel, te, h, EmitBlock(b, depth, owned)), h,
                     ExecTally(p, fuel, se, be, b, depth, owned))
    decreases fuel, 0, b, 0, 1
  {
    var x, flow := b.head.target, S.ExecStmt(p, fuel, se, b.head);
    SimFree(p, fuel, se, te, h, base, x);
    if flow.Done? {
      var d := C.ExecStmt(EmitProgram(p), fuel, te, h, CDrop(x.Target()));
      var t := C.ExecStmt(EmitProgram(p), fuel, te, d.value.heap, CAssign(x.Target(), CLit("")));
      CountFree(p, fuel, flow.value.env, te, be, h, x, depth, owned);
      CountRest(p, fuel, se, te, be, h, base, b, depth, owned, params, flow, t);
      FreeGlue(EmitProgram(p), fuel, te, h, b, depth, owned, d, t);
    }
  }

  lemma {:induction false} FreeGlue(code: C.Code, fuel: nat, te: Env<C.CVal>, h: C.Heap, b: Block, depth: nat, owned: seq<string>,
                                    d: Out<C.CFlow>, t: Out<C.CFlow>)
    requires b.Then? && b.head.Free? && d == C.ExecStmt(code, fuel, te, h, CDrop(b.head.target.Target()))
    requires d.Done? && d.value.Next? && d.value.env == te
    requires t == C.ExecStmt(code, fuel, te, d.value.heap, CAssign(b.head.target.Target(), CLit("")))
    ensures C.Exec(code, fuel, te, h, EmitBlock(b, depth, owned)) ==
              CThenRun(code, fuel, t, EmitBlock(b.tail, depth, ListAfter(b.head, depth, owned)))
  {
    var rest := EmitBlock(b.tail, depth, ListAfter(b.head, depth, owned));
    var second := CThen(CAssign(b.head.target.Target(), CLit("")), rest);
    assert EmitBlock(b, depth, owned) == CThen(CDrop(b.head.target.Target()), second);
    assert C.Exec(code, fuel, te, d.value.heap, second) == CThenRun(code, fuel, t, rest);
  }

  lemma {:induction false} CountRest(p: Program, fuel: nat, se: Env<S.Val>, te: Env<C.CVal>, be: Env<bool>, h: C.Heap, base: nat, b: Block,
                                     depth: nat, owned: seq<string>, params: set<string>, flow: Out<S.Flow>, t: Out<C.CFlow>)
    requires b.Then? && Ready(p, se, te, be, h, base, owned, params) && GuardedBlock(b, depth, owned, params)
    requires depth >= 1 && (depth == 1 ==> AtTop(se))
    requires flow == S.ExecStmt(p, fuel, se, b.head) && FlowOk(flow, t, te, h, base) && Settled(flow, t, te, b.head, base)
    requires FlowCost(flow, t, h, StmtTally(p, fuel, se, be, b.head, depth, owned))
    ensures FlowCost(SThen(p, fuel, flow, b.tail),
                     CThenRun(EmitProgram(p), fuel, t, EmitBlock(b.tail, depth, ListAfter(b.head, depth, owned))), h,
                     ExecTally(p, fuel, se, be, b, depth, owned))
    decreases fuel, 0, b, 0, 0
  {
    if flow.Done? && flow.value.Next? {
      var bits := StmtTally(p, fuel, se, be, b.head, depth, owned).bits;
      OwnersAfter(p, fuel, se, te, b.head, depth, owned, params, base, t.value.env);
      if depth == 1 { StaysTop(p, fuel, se, b.head); }
      CountBlock(p, fuel, flow.value.env, t.value.env, bits, t.value.heap, base, b.tail, depth, ListAfter(b.head, depth, owned), params);
    }
  }

  lemma {:induction false} InnerReady(p: Program, fuel: nat, se: Env<S.Val>, te: Env<C.CVal>, be: Env<bool>, h: C.Heap, base: nat, b: Block,
                                      depth: nat, owned: seq<string>, params: set<string>)
    requires Ready(p, se, te, be, h, base, owned, params) && GuardedBlock(b, depth + 1, owned, params) && depth >= 1
    ensures Ready(p, Inner(map[], se), Inner(map[], te), Inner(map[], be), h, base, owned, params)
    ensures var s := S.Exec(p, fuel, Inner(map[], se), b);
            var t := C.Exec(EmitProgram(p), fuel, Inner(map[], te), h, EmitBlock(b, depth + 1, owned));
            s.Done? && s.value.Next? ==> s.value.env.Inner? && t.Done? && t.value.Next? && t.value.env.Inner?
  {
    ExecGrows(p, fuel, Inner(map[], se), b);
    OwnersInner(owned, params, se, te, base, map[], map[]);
    SimBlock(p, fuel, Inner(map[], se), Inner(map[], te), h, base, b, depth + 1, owned, params);
  }

  lemma {:induction false} PopCost(s: Out<S.Flow>, t: Out<C.CFlow>, h: C.Heap, c: Tally)
    requires FlowCost(s, t, h, c)
    requires s.Done? && s.value.Next? ==> s.value.env.Inner? && t.value.env.Inner?
    ensures FlowCost(SLeave(s), CLeave(t), h, c.(bits := Outer(c.bits)))
  {
  }

  /** A nested block that opens with an empty scope. */
  lemma {:induction false} CountInner(p: Program, fuel: nat, se: Env<S.Val>, te: Env<C.CVal>, be: Env<bool>, h: C.Heap, base: nat, b: Block,
                                      depth: nat, owned: seq<string>, params: set<string>)
    requires Ready(p, se, te, be, h, base, owned, params) && GuardedBlock(b, depth + 1, owned, params) && depth >= 1
    ensures FlowCost(SLeave(S.Exec(p, fuel, Inner(map[], se), b)),
                     CLeave(C.Exec(EmitProgram(p), fuel, Inner(map[], te), h, EmitBlock(b, depth + 1, owned))), h,
                     ScopeTally(p, fuel, se, be, map[], map[], b, depth, owned))
    decreases fuel, 0, b, 2
  {
    InnerReady(p, fuel, se, te, be, h, base, b, depth, owned, params);
    CountBlock(p, fuel, Inner(map[], se), Inner(map[], te), Inner(map[], be), h, base, b, depth + 1, owned, params);
    PopCost(S.Exec(p, fuel, Inner(map[], se), b), C.Exec(EmitProgram(p), fuel, Inner(map[], te), h, EmitBlock(b, depth + 1, owned)), h,
            ExecTally(p, fuel, Inner(map[], se), Inner(map[], be), b, depth + 1, owned));
  }

  lemma {:induction false} CountBranches(p: Program, fuel: nat, se: Env<S.Val>, te: Env<C.CVal>, be: Env<bool>, h: C.Heap, base: nat,
                                         branches: Branches, depth: nat, owned: seq<string>, params: set<string>)
    requires Ready(p, se, te, be, h, base, owned, params) && GuardedBranches(branches, depth, owned, params) && depth >= 1
    ensures FlowCost(S.ExecBranches(p, fuel, se, branches),
                     C.ExecBranches(EmitProgram(p), fuel, te, h, EmitBranches(branches, depth, owned)), h,
                     BranchTally(p, fuel, se, be, branches, depth, owned))
    decreases fuel, 0, branches, 1
  {
    match branches
    case NoElse =>
    case Else(b) =>
      CountInner(p, fuel, se, te, be, h, base, b, depth, owned, params);
      assert EmitBranches(branches, depth, owned) == CElse(EmitBlock(b, depth + 1, owned));
    case Arm(test, body, rest) => CountArm(p, fuel, se, te, be, h, base, test, body, rest, depth, owned, params);
  }

  /** An arm's test, and what holds after it. */
  lemma {:induction false} CountTested(p: Program, fuel: nat, se: Env<S.Val>, te: Env<C.CVal>, be: Env<bool>, h: C.Heap, base: nat, test: Expr,
                                       owned: seq<string>, params: set<string>, body: Block, depth: nat)
    requires Ready(p, se, te, be, h, base, owned, params) && depth >= 1
    ensures var s, t := S.Eval(p, fuel, se, test), C.Eval(EmitProgram(p), fuel, te, h, EmitExpr(test));
            && EvalOk(s, t, h)
            && (s.Done? ==>
                  && |t.value.1.live| == |h.live| + EvalTally(p, fuel, se, be, test).made
                  && Ready(p, se, te, be, t.value.1, base, owned, params)
                  && Ready(p, se, te, be, t.value.1, base, ListAfterBlock(body, depth + 1, owned), params))
    decreases fuel, 0, test, 3
  {
    var s, t := S.Eval(p, fuel, se, test), C.Eval(EmitProgram(p), fuel, te, h, EmitExpr(test));
    SimEval(p, fuel, se, te, h, test);
    CountEval(p, fuel, se, te, be, h, test);
    if s.Done? { ArmReady(p, se, te, be, h, base, owned, params, body, depth, t.value.1); }
  }

  lemma {:induction false} CountArm(p: Program, fuel: nat, se: Env<S.Val>, te: Env<C.CVal>, be: Env<bool>, h: C.Heap, base: nat, test: Expr,
                                    body: Block, rest: Branches, depth: nat, owned: seq<string>, params: set<string>)
    requires Ready(p, se, te, be, h, base, owned, params) && depth >= 1
    requires GuardedBlock(body, depth + 1, owned, params) && GuardedBranches(rest, depth, ListAfterBlock(body, depth + 1, owned), params)
    ensures FlowCost(S.ExecBranches(p, fuel, se, Arm(test, body, rest)),
                     C.ExecBranches(EmitProgram(p), fuel, te, h,
                                    CArm(EmitExpr(test), EmitBlock(body, depth + 1, owned), EmitBranches(rest, depth, ListAfterBlock(body, depth + 1, owned)))), h,
                     BranchTally(p, fuel, se, be, Arm(test, body, rest), depth, owned))
    decreases fuel, 0, Arm(test, body, rest), 0
  {
    var s, t := S.Eval(p, fuel, se, test), C.Eval(EmitProgram(p), fuel, te, h, EmitExpr(test));
    var later := ListAfterBlock(body, depth + 1, owned);
    CountTested(p, fuel, se, te, be, h, base, test, owned, params, body, depth);
    if s.Done? && s.value.VBol? {
      if s.value.b {
        CountInner(p, fuel, se, te, be, t.value.1, base, body, depth, owned, params);
      } else {
        CountBranches(p, fuel, se, te, be, t.value.1, base, rest, depth, later, params);
      }
    }
    ArmCost(p, fuel, se, te, be, h, test, body, rest, depth, owned, EmitBlock(body, depth + 1, owned), EmitBranches(rest, depth, later), s, t,
            EvalTally(p, fuel, se, be, test).made);
  }

  /** After an arm's test. */
  lemma {:induction false} ArmReady(p: Program, se: Env<S.Val>, te: Env<C.CVal>, be: Env<bool>, h: C.Heap, base: nat, owned: seq<string>,
                                    params: set<string>, body: Block, depth: nat, k: C.Heap)
    requires Ready(p, se, te, be, h, base, owned, params) && HeapOk(k) && Keep(h, k, {}) && depth >= 1
    ensures Ready(p, se, te, be, k, base, owned, params) && Ready(p, se, te, be, k, base, ListAfterBlock(body, depth + 1, owned), params)
  {
    MatchGrow(se, te, h, k);
    BlockShrinks(body, depth + 1, owned);
    SameRefl(se);
    OwnersStay(owned, params, se, te, base, ListAfterBlock(body, depth + 1, owned), se, te);
  }

  lemma {:induction false} ArmCost(p: Program, fuel: nat, se: Env<S.Val>, te: Env<C.CVal>, be: Env<bool>, h: C.Heap, test: Expr, body: Block,
                                   rest: Branches, depth: nat, owned: seq<string>, tb: CBlock, tr: CBranches, s: Out<S.Val>, t: CExprOut, made: int)
    requires s == S.Eval(p, fuel, se, test) && t == C.Eval(EmitProgram(p), fuel, te, h, EmitExpr(test)) && EvalOk(s, t, h)
    requires made == EvalTally(p, fuel, se, be, test).made && (s.Done? ==> |t.value.1.live| == |h.live| + made)
    requires s.Done? && s.value.VBol? ==>
               if s.value.b then
                 FlowCost(SLeave(S.Exec(p, fuel, Inner(map[], se), body)), CLeave(C.Exec(EmitProgram(p), fuel, Inner(map[], te), t.value.1, tb)),
                          t.value.1, ScopeTally(p, fuel, se, be, map[], map[], body, depth, owned))
               else
                 FlowCost(S.ExecBranches(p, fuel, se, rest), C.ExecBranches(EmitProgram(p), fuel, te, t.value.1, tr), t.value.1,
                          BranchTally(p, fuel, se, be, rest, depth, ListAfterBlock(body, depth + 1, owned)))
    ensures FlowCost(S.ExecBranches(p, fuel, se, Arm(test, body, rest)),
                     C.ExecBranches(EmitProgram(p), fuel, te, h, CArm(EmitExpr(test), tb, tr)), h,
                     BranchTally(p, fuel, se, be, Arm(test, body, rest), depth, owned))
  {
  }

  // ---- loops ----

  /** Comparing and negating make no block. */
  lemma {:induction false} PlainCost(p: Program, fuel: nat, se: Env<S.Val>, be: Env<bool>, op: BinOp, l: Expr, r: Expr)
    requires op != Join
    ensures EvalTally(p, fuel, se, be, Binary(op, l, r)).made == EvalTally(p, fuel, se, be, l).made + EvalTally(p, fuel, se, be, r).made
    ensures EvalTally(p, fuel, se, be, Not(l)).made == EvalTally(p, fuel, se, be, l).made
    ensures EvalTally(p, fuel, se, be, Len(l)).made == EvalTally(p, fuel, se, be, l).made
    ensures EvalTally(p, fuel, se, be, CharAt(l, r)) == Cost(EvalTally(p, fuel, se, be, l).made + EvalTally(p, fuel, se, be, r).made + 1, true)
  {
  }

  lemma {:induction false} TestCost(p: Program, fuel: nat, se: Env<S.Val>, be: Env<bool>, id: nat, kind: LoopKind)
    ensures EvalTally(p, fuel, se, be, TestExpr(id, kind)).made == TestTally(p, fuel, se, be, kind)
  {
    var i := IndexRef(id);
    assert EvalTally(p, fuel, se, be, i).made == 0;
    match kind
    case Count(n) => PlainCost(p, fuel, se, be, Less, i, n);
    case Range(_, to, step) => RangeCost(p, fuel, se, be, id, kind);
    case While(_) =>
    case Text(t) => PlainCost(p, fuel, se, be, Less, i, Len(t)); PlainCost(p, fuel, se, be, Less, t, i);
  }

  lemma {:induction false} RangeCost(p: Program, fuel: nat, se: Env<S.Val>, be: Env<bool>, id: nat, kind: LoopKind)
    requires kind.Range?
    ensures EvalTally(p, fuel, se, be, TestExpr(id, kind)).made == TestTally(p, fuel, se, be, kind)
  {
    var i, zero := IndexRef(id), IntLit(0);
    var down, up, back := Binary(Less, kind.step, zero), Binary(Less, i, kind.to), Binary(Less, kind.to, i);
    PlainCost(p, fuel, se, be, Less, kind.step, zero);
    PlainCost(p, fuel, se, be, Less, down, zero);
    PlainCost(p, fuel, se, be, Less, i, kind.to);
    PlainCost(p, fuel, se, be, Less, kind.to, i);
    CondCost(p, fuel, se, be, BOL, Not(down), up, back);
  }

  lemma {:induction false} CondCost(p: Program, fuel: nat, se: Env<S.Val>, be: Env<bool>, ty: Ty, t: Expr, y: Expr, n: Expr)
    ensures var picked := if IsTrue(S.Eval(p, fuel, se, t)) then y else n;
            EvalTally(p, fuel, se, be, Cond(ty, t, y, n)).made == EvalTally(p, fuel, se, be, t).made + EvalTally(p, fuel, se, be, picked).made
  {
  }

  lemma {:induction false} CountRound(p: Program, k: nat, se: Env<S.Val>, te: Env<C.CVal>, be: Env<bool>, h: C.Heap, base: nat, id: nat,
                                      kind: LoopKind, m: map<Var, S.Val>, body: Block, depth: nat, owned: seq<string>, params: set<string>)
    requires Ready(p, se, te, be, h, base, owned, params) && GuardedBlock(body, depth + 1, owned, params) && depth >= 1
    requires !kind.Text? ==> m == map[]
    requires kind.Text? ==> CharOk(p, k, se, te, h, id, kind.text, m) && CharCost(p, k, se, te, be, h, id, kind.text)
    ensures FlowCost(SLeave(S.Exec(p, k, Inner(m, se), body)),
                     CLeave(C.Exec(EmitProgram(p), k, Inner(map[], te), h, LoopBody(id, kind, EmitBlock(body, depth + 1, owned)))), h,
                     RoundCost(p, k, se, be, id, kind, m, body, depth, owned))
    decreases k, 0, body, 5
  {
    if kind.Text? {
      CountTextRound(p, k, se, te, be, h, base, id, kind.text, m, body, depth, owned, params);
    } else {
      CountInner(p, k, se, te, be, h, base, body, depth, owned, params);
    }
  }

  ghost predicate CharCost(p: Program, k: nat, se: Env<S.Val>, te: Env<C.CVal>, be: Env<bool>, h: C.Heap, id: nat, text: Expr) {
    var ch := CharAt(text, IndexRef(id));
    CostOk(S.Eval(p, k, Inner(map[], se), ch), C.Eval(EmitProgram(p), k, Inner(map[], te), h, EmitExpr(ch)), h,
           Cost(CharTally(p, k, se, be, Text(text)), true))
  }

  lemma {:induction false} CountTextRound(p: Program, k: nat, se: Env<S.Val>, te: Env<C.CVal>, be: Env<bool>, h: C.Heap, base: nat, id: nat,
                                          text: Expr, m: map<Var, S.Val>, body: Block, depth: nat, owned: seq<string>, params: set<string>)
    requires Ready(p, se, te, be, h, base, owned, params) && GuardedBlock(body, depth + 1, owned, params) && depth >= 1
    requires CharOk(p, k, se, te, h, id, text, m) && CharCost(p, k, se, te, be, h, id, text)
    ensures FlowCost(SLeave(S.Exec(p, k, Inner(m, se), body)),
                     CLeave(C.Exec(EmitProgram(p), k, Inner(map[], te), h, LoopBody(id, Text(text), EmitBlock(body, depth + 1, owned)))), h,
                     RoundCost(p, k, se, be, id, Text(text), m, body, depth, owned))
    decreases k, 0, body, 4
  {
    var tb := EmitBlock(body, depth + 1, owned);
    var t := C.Eval(EmitProgram(p), k, Inner(map[], te), h, EmitExpr(CharAt(text, IndexRef(id))));
    var te1, be1 := Inner(map[LoopChar(id) := t.value.0], te), Inner(map[LoopChar(id) := true], be);
    var s2, t2 := S.Exec(p, k, Inner(m, se), body), C.Exec(EmitProgram(p), k, te1, t.value.1, tb);
    TextReady(p, k, se, te, be, h, base, id, text, m, owned, params, t, te1, be1);
    TextRuns(p, k, Inner(m, se), te1, be1, t.value.1, base, LoopChar(id), body, depth, owned, params);
    TextCost(p, k, se, te, be, h, id, text, m, body, depth, owned, tb, t, te1, be1, s2, t2);
  }

  /** The body of a text loop's round; x is its character. */
  lemma {:induction false} TextRuns(p: Program, k: nat, se1: Env<S.Val>, te1: Env<C.CVal>, be1: Env<bool>, h1: C.Heap, base: nat, x: Var,
                                    body: Block, depth: nat, owned: seq<string>, params: set<string>)
    requires Ready(p, se1, te1, be1, h1, base, owned, params) && GuardedBlock(body, depth + 1, owned, params) && depth >= 1
    requires se1.Inner? && x in se1.vars && se1.vars[x].VStr?
    ensures var s2 := S.Exec(p, k, se1, body);
            var t2 := C.Exec(EmitProgram(p), k, te1, h1, EmitBlock(body, depth + 1, owned));
            && FlowCost(s2, t2, h1, ExecTally(p, k, se1, be1, body, depth + 1, owned))
            && (s2.Done? && s2.value.Next? ==>
                  && s2.value.env.Inner? && t2.value.env.Inner? && x in t2.value.env.vars
                  && C.DropValue(t2.value.heap, t2.value.env.vars[x]).Done?)
    decreases k, 0, body, 3
  {
    TextCloses(p, k, se1, te1, h1, base, x, body, depth, owned, params);
    CountBlock(p, k, se1, te1, be1, h1, base, body, depth + 1, owned, params);
  }

  lemma {:induction false} CharMarked(se: Env<S.Val>, te: Env<C.CVal>, be: Env<bool>, x: Var, m: map<Var, S.Val>, t: CExprOut, te1: Env<C.CVal>,
                                      be1: Env<bool>, owned: seq<string>, params: set<string>, base: nat)
    requires BitsOf(te, be) && Owners(owned, params, se, te, base) && t.Done? && t.value.0.Owned? && m.Keys == {x} && !x.User?
    requires te1 == Inner(map[x := t.value.0], te) && be1 == Inner(map[x := true], be)
    ensures BitsOf(te1, be1) && Owners(owned, params, Inner(m, se), te1, base)
  {
    OwnersInner(owned, params, se, te, base, m, te1.vars);
  }

  lemma {:induction false} TextReady(p: Program, k: nat, se: Env<S.Val>, te: Env<C.CVal>, be: Env<bool>, h: C.Heap, base: nat, id: nat,
                                     text: Expr, m: map<Var, S.Val>, owned: seq<string>, params: set<string>, t: CExprOut,
                                     te1: Env<C.CVal>, be1: Env<bool>)
    requires Ready(p, se, te, be, h, base, owned, params)
    requires CharOk(p, k, se, te, h, id, text, m) && CharCost(p, k, se, te, be, h, id, text)
    requires t == C.Eval(EmitProgram(p), k, Inner(map[], te), h, EmitExpr(CharAt(text, IndexRef(id)))) && t.Done?
    requires te1 == Inner(map[LoopChar(id) := t.value.0], te) && be1 == Inner(map[LoopChar(id) := true], be)
    ensures Ready(p, Inner(m, se), te1, be1, t.value.1, base, owned, params)
    ensures LoopChar(id) in m && m[LoopChar(id)].VStr?
  {
    CharDeclared(p, k, se, te, h, base, id, text, m);
    CharMarked(se, te, be, LoopChar(id), m, t, te1, be1, owned, params, base);
  }

  lemma {:induction false} TextCloses(p: Program, k: nat, se1: Env<S.Val>, te1: Env<C.CVal>, h1: C.Heap, base: nat, x: Var, body: Block,
                                      depth: nat, owned: seq<string>, params: set<string>)
    requires State(se1, te1, h1, base) && GuardedProgram(p) && Owners(owned, params, se1, te1, base)
    requires GuardedBlock(body, depth + 1, owned, params) && depth >= 1
    requires se1.Inner? && x in se1.vars && se1.vars[x].VStr?
    ensures var s2 := S.Exec(p, k, se1, body);
            var t2 := C.Exec(EmitProgram(p), k, te1, h1, EmitBlock(body, depth + 1, owned));
            s2.Done? && s2.value.Next? ==>
              && s2.value.env.Inner? && t2.Done? && t2.value.Next? && t2.value.env.Inner? && x in t2.value.env.vars
              && C.DropValue(t2.value.heap, t2.value.env.vars[x]).Done?
    decreases k, 0, body, 2
  {
    SimBlock(p, k, se1, te1, h1, base, body, depth + 1, owned, params);
    ExecGrows(p, k, se1, body);
    TextEnds(S.Exec(p, k, se1, body), C.Exec(EmitProgram(p), k, te1, h1, EmitBlock(body, depth + 1, owned)), se1, te1, h1, base, x);
  }

  lemma {:induction false} TextEnds(s2: Out<S.Flow>, t2: Out<C.CFlow>, se1: Env<S.Val>, te1: Env<C.CVal>, h1: C.Heap, base: nat, x: Var)
    requires FlowOk(s2, t2, te1, h1, base) && se1.Inner? && x in se1.vars && se1.vars[x].VStr?
    requires s2.Done? && s2.value.Next? ==> Grown(se1, s2.value.env)
    ensures s2.Done? && s2.value.Next? ==>
              && s2.value.env.Inner? && t2.value.env.Inner? && x in t2.value.env.vars
              && C.DropValue(t2.value.heap, t2.value.env.vars[x]).Done?
  {
    if s2.Done? && s2.value.Next? {
      assert S.TypeOf(s2.value.env.vars[x]) == STR;
      assert Rep(s2.value.env.vars[x], t2.value.env.vars[x], t2.value.heap);
    }
  }

  lemma {:induction false} TextCost(p: Program, k: nat, se: Env<S.Val>, te: Env<C.CVal>, be: Env<bool>, h: C.Heap, id: nat, text: Expr,
                                    m: map<Var, S.Val>, body: Block, depth: nat, owned: seq<string>, tb: CBlock, t: CExprOut,
                                    te1: Env<C.CVal>, be1: Env<bool>, s2: Out<S.Flow>, t2: Out<C.CFlow>)
    requires t == C.Eval(EmitProgram(p), k, Inner(map[], te), h, EmitExpr(CharAt(text, IndexRef(id)))) && t.Done?
    requires |t.value.1.live| == |h.live| + CharTally(p, k, se, be, Text(text))
    requires te1 == Inner(map[LoopChar(id) := t.value.0], te) && be1 == Inner(map[LoopChar(id) := true], be)
    requires s2 == S.Exec(p, k, Inner(m, se), body) && t2 == C.Exec(EmitProgram(p), k, te1, t.value.1, tb)
    requires FlowCost(s2, t2, t.value.1, ExecTally(p, k, Inner(m, se), be1, body, depth + 1, owned))
    requires s2.Done? && s2.value.Next? ==>
               && s2.value.env.Inner? && t2.value.env.Inner? && LoopChar(id) in t2.value.env.vars
               && C.DropValue(t2.value.heap, t2.value.env.vars[LoopChar(id)]).Done?
    ensures FlowCost(SLeave(s2), CLeave(C.Exec(EmitProgram(p), k, Inner(map[], te), h, LoopBody(id, Text(text), tb))), h,
                     RoundCost(p, k, se, be, id, Text(text), m, body, depth, owned))
  {
    TextBody(EmitProgram(p), k, te, h, id, text, tb, t, te1, t2);
    if s2.Done? && s2.value.Next? { DropCounts(t2.value.heap, t2.value.env.vars[LoopChar(id)]); }
  }

  lemma {:induction false} FlowShift(s: Out<S.Flow>, t: Out<C.CFlow>, h: C.Heap, h1: C.Heap, c: Tally, made: int)
    requires FlowCost(s, t, h1, c) && |h1.live| == |h.live| + made
    ensures FlowCost(s, t, h, c.(made := made + c.made))
  {
  }

  lemma {:induction false} CountIterate(p: Program, fuel: nat, se: Env<S.Val>, te: Env<C.CVal>, be: Env<bool>, h: C.Heap, base: nat, id: nat,
                                        kind: LoopKind, body: Block, depth: nat, owned: seq<string>, params: set<string>)
    requires Ready(p, se, te, be, h, base, owned, params) && GuardedBlock(body, depth + 1, owned, params) && se.Inner? && depth >= 1
    ensures FlowCost(S.Iterate(p, fuel, se, id, kind, body),
                     C.Iterate(EmitProgram(p), fuel, te, h, LoopIndex(id), LoopTest(id, kind), LoopStep(kind),
                               LoopBody(id, kind, EmitBlock(body, depth + 1, owned))), h,
                     IterateTally(p, fuel, se, be, id, kind, body, depth, owned))
    decreases fuel, 0, Loop(id, kind, body), 0
  {
    if fuel > 0 {
      var k, tb := fuel - 1, LoopBody(id, kind, EmitBlock(body, depth + 1, owned));
      var round, t := S.Enter(p, k, se, id, kind), C.Eval(EmitProgram(p), k, te, h, LoopTest(id, kind));
      CountTest(p, k, se, te, be, h, base, id, kind);
      if round.Done? && round.value.Some? {
        CharCounts(p, k, se, te, be, t.value.1, id, kind);
        CountTurn(p, k, se, te, be, h, t.value.1, base, id, kind, round.value.value, body, depth, owned, params);
        IterateGoes(p, k, se, te, h, t.value.1, id, kind, round.value.value, body, tb);
        if S.Exec(p, k, Inner(round.value.value, se), body).Done? {
          IterateUnfolds(p, k, se, be, id, kind, round.value.value, body, depth, owned);
        }
      } else {
        IterateStops(p, k, se, te, be, h, id, kind, body, depth, owned, tb, round, t);
      }
    }
  }

  lemma {:induction false} IterateGoes(p: Program, k: nat, se: Env<S.Val>, te: Env<C.CVal>, h: C.Heap, h1: C.Heap, id: nat, kind: LoopKind,
                                       m: map<Var, S.Val>, body: Block, tb: CBlock)
    requires S.Enter(p, k, se, id, kind) == Done(Some(m)) && C.Eval(EmitProgram(p), k, te, h, LoopTest(id, kind)) == Done((C.BoolVal(true), h1))
    ensures S.Iterate(p, k + 1, se, id, kind, body) == SNext(p, k, SLeave(S.Exec(p, k, Inner(m, se), body)), id, kind, body)
    ensures C.Iterate(EmitProgram(p), k + 1, te, h, LoopIndex(id), LoopTest(id, kind), LoopStep(kind), tb)
              == CNext(EmitProgram(p), k, CLeave(C.Exec(EmitProgram(p), k, Inner(map[], te), h1, tb)), LoopIndex(id), LoopTest(id, kind),
                       LoopStep(kind), tb)
  {
    IterateS(p, k, se, id, kind, body);
    IterateC(EmitProgram(p), k, te, h, LoopIndex(id), LoopTest(id, kind), LoopStep(kind), tb);
  }

  lemma {:induction false} IterateStops(p: Program, k: nat, se: Env<S.Val>, te: Env<C.CVal>, be: Env<bool>, h: C.Heap, id: nat, kind: LoopKind,
                                        body: Block, depth: nat, owned: seq<string>, tb: CBlock, round: Out<Option<map<Var, S.Val>>>, t: CExprOut)
    requires round == S.Enter(p, k, se, id, kind) && t == C.Eval(EmitProgram(p), k, te, h, LoopTest(id, kind)) && BitsOf(te, be)
    requires round.Done? ==> round.value.None? && t.Done? && t.value.0 == C.BoolVal(false)
    requires round.Done? ==> |t.value.1.live| == |h.live| + TestTally(p, k, se, be, kind)
    ensures FlowCost(S.Iterate(p, k + 1, se, id, kind, body),
                     C.Iterate(EmitProgram(p), k + 1, te, h, LoopIndex(id), LoopTest(id, kind), LoopStep(kind), tb), h,
                     IterateTally(p, k + 1, se, be, id, kind, body, depth, owned))
  {
    IterateS(p, k, se, id, kind, body);
    IterateC(EmitProgram(p), k, te, h, LoopIndex(id), LoopTest(id, kind), LoopStep(kind), tb);
  }

  lemma {:induction false} StateGrows(se: Env<S.Val>, te: Env<C.CVal>, h: C.Heap, base: nat, k: C.Heap)
    requires State(se, te, h, base) && HeapOk(k) && Keep(h, k, {})
    ensures State(se, te, k, base)
  {
    MatchGrow(se, te, h, k);
  }

  lemma {:induction false} TestCounts(p: Program, k: nat, se: Env<S.Val>, te: Env<C.CVal>, be: Env<bool>, h: C.Heap, id: nat, kind: LoopKind)
    requires Match(se, te, h) && HeapOk(h) && GuardedProgram(p) && BitsOf(te, be)
    ensures var s, t := S.Eval(p, k, se, TestExpr(id, kind)), C.Eval(EmitProgram(p), k, te, h, LoopTest(id, kind));
            EvalOk(s, t, h) && (s.Done? ==> |t.value.1.live| == |h.live| + TestTally(p, k, se, be, kind))
    decreases k, 1
  {
    LoopExprs(p, k, se, id, kind);
    SimEval(p, k, se, te, h, TestExpr(id, kind));
    CountEval(p, k, se, te, be, h, TestExpr(id, kind));
    TestCost(p, k, se, be, id, kind);
  }

  /** The emitted test of a round. */
  lemma {:induction false} CountTest(p: Program, k: nat, se: Env<S.Val>, te: Env<C.CVal>, be: Env<bool>, h: C.Heap, base: nat, id: nat, kind: LoopKind)
    requires State(se, te, h, base) && GuardedProgram(p) && BitsOf(te, be)
    ensures var round, t := S.Enter(p, k, se, id, kind), C.Eval(EmitProgram(p), k, te, h, LoopTest(id, kind));
            round.Done? ==>
              && t.Done? && t.value.0 == C.BoolVal(round.value.Some?) && State(se, te, t.value.1, base)
              && |t.value.1.live| == |h.live| + TestTally(p, k, se, be, kind)
              && (round.value.Some? && !kind.Text? ==> round.value.value == map[])
    decreases k, 2
  {
    TestCounts(p, k, se, te, be, h, id, kind);
    EnterTest(p, k, se, id, kind);
    if S.Enter(p, k, se, id, kind).Done? { StateGrows(se, te, h, base, C.Eval(EmitProgram(p), k, te, h, LoopTest(id, kind)).value.1); }
  }

  lemma {:induction false} CharCounts(p: Program, k: nat, se: Env<S.Val>, te: Env<C.CVal>, be: Env<bool>, h: C.Heap, id: nat, kind: LoopKind)
    requires Match(se, te, h) && HeapOk(h) && GuardedProgram(p) && BitsOf(te, be)
    requires S.Enter(p, k, se, id, kind).Done? && S.Enter(p, k, se, id, kind).value.Some?
    ensures kind.Text? ==> CharOk(p, k, se, te, h, id, kind.text, S.Enter(p, k, se, id, kind).value.value)
    ensures kind.Text? ==> CharCost(p, k, se, te, be, h, id, kind.text)
    decreases k, 1
  {
    if kind.Text? {
      EnterText(p, k, se, id, kind.text);
      SimChar(p, k, se, te, h, id, kind.text);
      PlainCost(p, k, Inner(map[], se), Inner(map[], be), Less, kind.text, IndexRef(id));
      CountEval(p, k, Inner(map[], se), Inner(map[], te), Inner(map[], be), h, CharAt(kind.text, IndexRef(id)));
    }
  }

  /** A round that runs, and the rest of the loop; h0 is the heap before the round's test. */
  lemma {:induction false} CountTurn(p: Program, k: nat, se: Env<S.Val>, te: Env<C.CVal>, be: Env<bool>, h0: C.Heap, h: C.Heap, base: nat, id: nat,
                                     kind: LoopKind, m: map<Var, S.Val>, body: Block, depth: nat, owned: seq<string>, params: set<string>)
    requires Ready(p, se, te, be, h, base, owned, params) && GuardedBlock(body, depth + 1, owned, params) && se.Inner? && depth >= 1
    requires S.Enter(p, k, se, id, kind) == Done(Some(m)) && (!kind.Text? ==> m == map[])
    requires kind.Text? ==> CharOk(p, k, se, te, h, id, kind.text, m) && CharCost(p, k, se, te, be, h, id, kind.text)
    requires |h.live| == |h0.live| + TestTally(p, k, se, be, kind)
    ensures var tb := LoopBody(id, kind, EmitBlock(body, depth + 1, owned));
            FlowCost(SNext(p, k, SLeave(S.Exec(p, k, Inner(m, se), body)), id, kind, body),
                     CNext(EmitProgram(p), k, CLeave(C.Exec(EmitProgram(p), k, Inner(map[], te), h, tb)), LoopIndex(id), LoopTest(id, kind),
                           LoopStep(kind), tb), h0,
                     AfterRound(p, k, SLeave(S.Exec(p, k, Inner(m, se), body)), TurnCost(p, k, se, be, id, kind, m, body, depth, owned),
                                id, kind, body, depth, owned))
    decreases k, 4
  {
    var tb := LoopBody(id, kind, EmitBlock(body, depth + 1, owned));
    var sf, tf := SLeave(S.Exec(p, k, Inner(m, se), body)), CLeave(C.Exec(EmitProgram(p), k, Inner(map[], te), h, tb));
    var c := TurnCost(p, k, se, be, id, kind, m, body, depth, owned);
    TurnFlows(p, k, se, te, be, h0, h, base, id, kind, m, body, depth, owned, params, sf, tf, tb, c);
    CountNext(p, k, se, te, h0, h, base, sf, tf, c, id, kind, body, depth, owned, params);
  }

  /** The round itself. */
  lemma {:induction false} TurnFlows(p: Program, k: nat, se: Env<S.Val>, te: Env<C.CVal>, be: Env<bool>, h0: C.Heap, h: C.Heap, base: nat, id: nat,
                                     kind: LoopKind, m: map<Var, S.Val>, body: Block, depth: nat, owned: seq<string>, params: set<string>,
                                     sf: Out<S.Flow>, tf: Out<C.CFlow>, tb: CBlock, c: Tally)
    requires Ready(p, se, te, be, h, base, owned, params) && GuardedBlock(body, depth + 1, owned, params) && se.Inner? && depth >= 1
    requires !kind.Text? ==> m == map[]
    requires kind.Text? ==> CharOk(p, k, se, te, h, id, kind.text, m) && CharCost(p, k, se, te, be, h, id, kind.text)
    requires |h.live| == |h0.live| + TestTally(p, k, se, be, kind)
    requires tb == LoopBody(id, kind, EmitBlock(body, depth + 1, owned)) && c == TurnCost(p, k, se, be, id, kind, m, body, depth, owned)
    requires sf == SLeave(S.Exec(p, k, Inner(m, se), body)) && tf == CLeave(C.Exec(EmitProgram(p), k, Inner(map[], te), h, tb))
    ensures FlowOk(sf, tf, te, h, base) && FlowCost(sf, tf, h0, c) && (sf.Done? && sf.value.Next? ==> Same(se, sf.value.env))
    decreases k, 2
  {
    SimRound(p, k, se, te, h, base, id, kind, m, body, depth, owned, params);
    CountRound(p, k, se, te, be, h, base, id, kind, m, body, depth, owned, params);
    RoundSame(p, k, se, m, body);
    FlowShift(sf, tf, h0, h, RoundCost(p, k, se, be, id, kind, m, body, depth, owned), TestTally(p, k, se, be, kind));
  }

  lemma {:induction false} CountNext(p: Program, k: nat, se: Env<S.Val>, te: Env<C.CVal>, h0: C.Heap, h: C.Heap, base: nat, sf: Out<S.Flow>,
                                     tf: Out<C.CFlow>, c: Tally, id: nat, kind: LoopKind, body: Block, depth: nat, owned: seq<string>,
                                     params: set<string>)
    requires HeapOk(h) && GuardedProgram(p) && GuardedBlock(body, depth + 1, owned, params)
    requires se.Inner? && Owners(owned, params, se, te, base) && depth >= 1 && FlowOk(sf, tf, te, h, base) && FlowCost(sf, tf, h0, c)
    requires sf.Done? && sf.value.Next? ==> Same(se, sf.value.env)
    ensures FlowCost(SNext(p, k, sf, id, kind, body),
                     CNext(EmitProgram(p), k, tf, LoopIndex(id), LoopTest(id, kind), LoopStep(kind),
                           LoopBody(id, kind, EmitBlock(body, depth + 1, owned))), h0,
                     AfterRound(p, k, sf, c, id, kind, body, depth, owned))
    decreases k, 3
  {
    if sf.Done? && sf.value.Next? {
      CountAgain(p, k, se, te, h0, base, sf.value.env, tf.value.env, tf.value.heap, c, id, kind, body, depth, owned, params);
    }
  }

  lemma {:induction false} CountAgain(p: Program, k: nat, se: Env<S.Val>, te: Env<C.CVal>, h0: C.Heap, base: nat, se2: Env<S.Val>,
                                      te2: Env<C.CVal>, h2: C.Heap, c: Tally, id: nat, kind: LoopKind, body: Block, depth: nat,
                                      owned: seq<string>, params: set<string>)
    requires GuardedProgram(p) && GuardedBlock(body, depth + 1, owned, params) && se.Inner? && depth >= 1 && Same(se, se2)
    requires Owners(owned, params, se, te, base) && State(se2, te2, h2, base) && Loans(te2, base) <= Loans(te, base)
    requires BitsOf(te2, c.bits) && |h2.live| == |h0.live| + c.made
    ensures FlowCost(SNext(p, k, Done(S.Next(se2)), id, kind, body),
                     CNext(EmitProgram(p), k, Done(C.Next(te2, h2)), LoopIndex(id), LoopTest(id, kind), LoopStep(kind),
                           LoopBody(id, kind, EmitBlock(body, depth + 1, owned))), h0,
                     NextTally(p, k, se2, c.bits, c.made, id, kind, body, depth, owned))
    decreases k, 2
  {
    var i, d := Lookup(se2, LoopIndex(id)), S.Stride(p, k, se2, kind);
    var tb, cd := LoopBody(id, kind, EmitBlock(body, depth + 1, owned)), C.Eval(EmitProgram(p), k, te2, h2, LoopStep(kind));
    CountStride(p, k, se2, te2, c.bits, h2, id, kind);
    LookupMatch(se2, te2, h2, LoopIndex(id));
    if i.Some? && i.value.VInt? && d.Done? && d.value.VInt? {
      var n := i.value.n + d.value.n;
      NextEquals(p, k, se2, te2, h2, id, kind, body, tb, d, cd, i.value.n, n);
      NextCost(p, k, se2, c.bits, c.made, n, id, kind, body, depth, owned);
      CountOnward(p, k, se, te, se2, te2, c.bits, h2, base, h0, cd.value.1, n, c.made + StrideTally(p, k, se2, c.bits, kind), id, kind, body,
                  depth, owned, params);
    } else {
      NextS(p, k, Done(S.Next(se2)), id, kind, body, i, d);
    }
  }

  lemma {:induction false} CountStride(p: Program, k: nat, se: Env<S.Val>, te: Env<C.CVal>, be: Env<bool>, h: C.Heap, id: nat, kind: LoopKind)
    requires Match(se, te, h) && HeapOk(h) && GuardedProgram(p) && BitsOf(te, be)
    ensures var d, cd := S.Stride(p, k, se, kind), C.Eval(EmitProgram(p), k, te, h, LoopStep(kind));
            EvalOk(d, cd, h) && (d.Done? ==> |cd.value.1.live| == |h.live| + StrideTally(p, k, se, be, kind))
    decreases k, 1
  {
    LoopExprs(p, k, se, id, kind);
    SimEval(p, k, se, te, h, StepExpr(kind));
    CountEval(p, k, se, te, be, h, StepExpr(kind));
  }

  /** The rounds after the counter moved to n, counted from h0. */
  lemma {:induction false} CountOnward(p: Program, k: nat, se: Env<S.Val>, te: Env<C.CVal>, se2: Env<S.Val>, te2: Env<C.CVal>, be2: Env<bool>,
                                       h2: C.Heap, base: nat, h0: C.Heap, l: C.Heap, n: int, made: int, id: nat, kind: LoopKind, body: Block,
                                       depth: nat, owned: seq<string>, params: set<string>)
    requires GuardedProgram(p) && GuardedBlock(body, depth + 1, owned, params) && se.Inner? && depth >= 1 && Same(se, se2)
    requires State(se2, te2, h2, base) && HeapOk(l) && Keep(h2, l, {}) && Owners(owned, params, se, te, base)
    requires Loans(te2, base) <= Loans(te, base) && BitsOf(te2, be2) && |l.live| == |h0.live| + made
    requires Lookup(se2, LoopIndex(id)).Some? && Lookup(se2, LoopIndex(id)).value.VInt? && Lookup(te2, LoopIndex(id)).Some?
    ensures var se3, te3 := Store(se2, LoopIndex(id), S.VInt(n)), Store(te2, LoopIndex(id), C.IntVal(n));
            var t := IterateTally(p, k, se3, SetBit(be2, LoopIndex(id), false), id, kind, body, depth, owned);
            FlowCost(S.Iterate(p, k, se3, id, kind, body),
                     C.Iterate(EmitProgram(p), k, te3, l, LoopIndex(id), LoopTest(id, kind), LoopStep(kind),
                               LoopBody(id, kind, EmitBlock(body, depth + 1, owned))), h0, t.(made := made + t.made))
    decreases k, 1
  {
    var x := LoopIndex(id);
    CounterMoves(se, te, se2, te2, h2, base, l, x, n, owned, params);
    BitsStore(te2, be2, x, C.IntVal(n), false);
    CountIterate(p, k, Store(se2, x, S.VInt(n)), Store(te2, x, C.IntVal(n)), SetBit(be2, x, false), l, base, id, kind, body, depth, owned, params);
  }

  lemma {:induction false} CountLoop(p: Program, fuel: nat, se: Env<S.Val>, te: Env<C.CVal>, be: Env<bool>, h: C.Heap, base: nat, id: nat,
                                     kind: LoopKind, body: Block, depth: nat, owned: seq<string>, params: set<string>)
    requires Ready(p, se, te, be, h, base, owned, params) && GuardedBlock(body, depth + 1, owned, params) && depth >= 1
    ensures FlowCost(S.ExecStmt(p, fuel, se, Loop(id, kind, body)),
                     C.ExecStmt(EmitProgram(p), fuel, te, h,
                                CFor(LoopIndex(id), LoopStart(kind), LoopTest(id, kind), LoopStep(kind),
                                     LoopBody(id, kind, EmitBlock(body, depth + 1, owned)))), h,
                     StmtTally(p, fuel, se, be, Loop(id, kind, body), depth, owned))
    decreases fuel, 0, Loop(id, kind, body), 2
  {
    var first, c := S.Start(p, fuel, se, kind), C.Eval(EmitProgram(p), fuel, te, h, LoopStart(kind));
    var made := if kind.Range? then EvalTally(p, fuel, se, be, kind.from).made else 0;
    if kind.Range? { SimEval(p, fuel, se, te, h, kind.from); CountEval(p, fuel, se, te, be, h, kind.from); }
    if first.Done? && first.value.VInt? {
      CountRounds(p, fuel, se, te, be, h, base, c.value.1, first.value, c.value.0, id, kind, body, depth, owned, params);
    }
    LoopCost(p, fuel, se, te, be, h, id, kind, body, depth, owned, LoopBody(id, kind, EmitBlock(body, depth + 1, owned)), first, c, made);
  }

  lemma {:induction false} RoundsReady(p: Program, se: Env<S.Val>, te: Env<C.CVal>, be: Env<bool>, h: C.Heap, base: nat, k: C.Heap, i: Var,
                                       v: S.Val, c: C.CVal, owned: seq<string>, params: set<string>)
    requires Ready(p, se, te, be, h, base, owned, params) && HeapOk(k) && Keep(h, k, {}) && v.VInt? && c == C.IntVal(v.n) && !i.User?
    ensures Ready(p, Inner(map[i := v], se), Inner(map[i := c], te), Inner(map[i := false], be), k, base, owned, params)
  {
    CounterOpens(se, te, h, base, k, i, v, c, owned, params);
  }

  /** All rounds, from the heap k in which the counter starts. */
  lemma {:induction false} CountRounds(p: Program, fuel: nat, se: Env<S.Val>, te: Env<C.CVal>, be: Env<bool>, h: C.Heap, base: nat, k: C.Heap,
                                       v: S.Val, c: C.CVal, id: nat, kind: LoopKind, body: Block, depth: nat, owned: seq<string>, params: set<string>)
    requires Ready(p, se, te, be, h, base, owned, params) && GuardedBlock(body, depth + 1, owned, params) && depth >= 1
    requires HeapOk(k) && Keep(h, k, {}) && v.VInt? && c == C.IntVal(v.n)
    ensures var i := LoopIndex(id);
            var se1, te1, be1 := Inner(map[i := v], se), Inner(map[i := c], te), Inner(map[i := false], be);
            var s2 := S.Iterate(p, fuel, se1, id, kind, body);
            && (s2.Done? && s2.value.Next? ==> s2.value.env.Inner?)
            && FlowCost(s2, C.Iterate(EmitProgram(p), fuel, te1, k, i, LoopTest(id, kind), LoopStep(kind),
                                      LoopBody(id, kind, EmitBlock(body, depth + 1, owned))),
                        k, IterateTally(p, fuel, se1, be1, id, kind, body, depth, owned))
    decreases fuel, 0, Loop(id, kind, body), 1
  {
    var i := LoopIndex(id);
    RoundsReady(p, se, te, be, h, base, k, i, v, c, owned, params);
    CountIterate(p, fuel, Inner(map[i := v], se), Inner(map[i := c], te), Inner(map[i := false], be), k, base, id, kind, body, depth, owned, params);
    IterateSame(p, fuel, Inner(map[i := v], se), id, kind, body);
  }

  lemma {:induction false} LoopCost(p: Program, fuel: nat, se: Env<S.Val>, te: Env<C.CVal>, be: Env<bool>, h: C.Heap, id: nat, kind: LoopKind,
                                    body: Block, depth: nat, owned: seq<string>, tb: CBlock, first: Out<S.Val>, c: CExprOut, made: int)
    requires first == S.Start(p, fuel, se, kind) && c == C.Eval(EmitProgram(p), fuel, te, h, LoopStart(kind)) && EvalOk(first, c, h)
    requires made == if kind.Range? then EvalTally(p, fuel, se, be, kind.from).made else 0
    requires first.Done? && first.value.VInt? ==>
               var i := LoopIndex(id);
               var se1, te1, be1 := Inner(map[i := first.value], se), Inner(map[i := c.value.0], te), Inner(map[i := false], be);
               var s2 := S.Iterate(p, fuel, se1, id, kind, body);
               && |c.value.1.live| == |h.live| + made && (s2.Done? && s2.value.Next? ==> s2.value.env.Inner?)
               && FlowCost(s2, C.Iterate(EmitProgram(p), fuel, te1, c.value.1, i, LoopTest(id, kind), LoopStep(kind), tb),
                           c.value.1, IterateTally(p, fuel, se1, be1, id, kind, body, depth, owned))
    ensures FlowCost(S.ExecStmt(p, fuel, se, Loop(id, kind, body)),
                     C.ExecStmt(EmitProgram(p), fuel, te, h, CFor(LoopIndex(id), LoopStart(kind), LoopTest(id, kind), LoopStep(kind), tb)), h,
                     StmtTally(p, fuel, se, be, Loop(id, kind, body), depth, owned))
  {
    LoopS(p, fuel, se, id, kind, body, first);
    LoopC(EmitProgram(p), fuel, te, h, LoopIndex(id), LoopStart(kind), LoopTest(id, kind), LoopStep(kind), tb, c);
    LoopTally(p, fuel, se, be, id, kind, body, depth, owned, first, made);
  }

  // ---- calls ----

  lemma {:induction false} BitsBind(params: seq<Param>, cs: seq<C.CVal>, bits: seq<bool>)
    requires |params| == |cs| && BitsAre(cs, bits)
    ensures BitsOf(Root(Bind(params, cs)), Root(Bind(params, bits)))
  {
    if params != [] {
      BitsBind(params[1..], cs[1..], bits[1..]);
    }
  }

  /** Every call of guarded programs: the tally is the number of blocks the heap gains. */
  lemma {:induction false} CountRun(p: Program, fuel: nat, h: C.Heap, f: string, vs: seq<S.Val>, cs: seq<C.CVal>, bits: seq<bool>)
    requires GuardedProgram(p) && HeapOk(h) && AllRep(vs, cs, h) && BitsAre(cs, bits)
    ensures CostOk(S.Run(p, fuel, f, vs), C.Run(EmitProgram(p), fuel, h, f, cs), h, RunTally(p, fuel, f, vs, bits))
    decreases fuel, 1
  {
    if S.Run(p, fuel, f, vs).Done? {
      var fn := p[f];
      var se, te, be := Root(Bind(fn.params, vs)), Root(Bind(fn.params, cs)), Root(Bind(fn.params, bits));
      EntryOk(fn.params, vs, cs, h);
      BitsBind(fn.params, cs, bits);
      assert GuardedFn(p[f]);
      SimBlock(p, fuel, se, te, h, h.next, fn.body, 1, [], ParamNames(fn.params));
      CountBlock(p, fuel, se, te, be, h, h.next, fn.body, 1, [], ParamNames(fn.params));
      CountBody(p, fuel, se, te, be, h, fn);
    }
  }

  /** A finished body and the drops after it. */
  lemma {:induction false} CountBody(p: Program, fuel: nat, se: Env<S.Val>, te: Env<C.CVal>, be: Env<bool>, h: C.Heap, fn: Fn)
    requires State(se, te, h, h.next) && AtTop(se) && BitsOf(te, be)
    requires FlowOk(S.Exec(p, fuel, se, fn.body), C.Exec(EmitProgram(p), fuel, te, h, EmitBlock(fn.body, 1, [])), te, h, h.next)
    requires BlockSettled(S.Exec(p, fuel, se, fn.body), C.Exec(EmitProgram(p), fuel, te, h, EmitBlock(fn.body, 1, [])),
                          ListAfterBlock(fn.body, 1, []), ParamNames(fn.params), h.next)
    requires FlowCost(S.Exec(p, fuel, se, fn.body), C.Exec(EmitProgram(p), fuel, te, h, EmitBlock(fn.body, 1, [])), h,
                      ExecTally(p, fuel, se, be, fn.body, 1, []))
    ensures var s, t := S.Exec(p, fuel, se, fn.body), C.Exec(EmitProgram(p), fuel, te, h, EmitFn(fn).body);
            var c := ExecTally(p, fuel, se, be, fn.body, 1, []);
            && (s.Done? && s.value.Returned? ==> FlowCost(s, t, h, c))
            && (s.Done? && s.value.Next? ==>
                  t.Done? && t.value.Next?
                  && |t.value.heap.live| == |h.live| + c.made - Held(c.bits, Drops(ListAfterBlock(fn.body, 1, []), None)))
  {
    var code := EmitProgram(p);
    var s, t := S.Exec(p, fuel, se, fn.body), C.Exec(code, fuel, te, h, EmitBlock(fn.body, 1, []));
    var owned := ListAfterBlock(fn.body, 1, []);
    if EndsWithReturn(fn.body) {
      if s.Done? { EndsReturning(p, fuel, se, fn.body); }
    } else {
      var names := Drops(owned, None);
      ExecAppend(code, fuel, te, h, EmitBlock(fn.body, 1, []), DropBlock(names));
      if s.Done? && s.value.Next? {
        DropsListed(owned, None);
        ListedDroppable(s.value.env, t.value.env, t.value.heap, names, h.next);
        DropNamesExact(t.value.env, t.value.heap, names);
        ExecDrops(code, fuel, t.value.env, t.value.heap, names);
        DropNamesCounts(t.value.env, ExecTally(p, fuel, se, be, fn.body, 1, []).bits, t.value.heap, names);
      }
    }
  }
}
