/** The analyzer's checks on the fragment: names in scope, operand types, argument and
    result types, local types. A checked program never performs an undefined operation. */
module FragmentTypes {
  import opened Wrappers
  import opened CasterAst
  import opened ByValue
  import R = LoweringSource

  type Ctx = Env<Ty>

  function OpTypes(op: BinOp): (Ty, Ty) {
    match op
    case Join => (STR, STR)
    case Eq => (STR, BOL)
    case Plus => (INT, INT)
    case Minus => (INT, INT)
    case Less => (INT, BOL)
    case Equal => (INT, BOL)
  }

  function CheckExpr(p: Program, ctx: Ctx, e: Expr): Option<Ty> {
    match e
    case StrLit(_) => Some(STR)
    case IntLit(_) => Some(INT)
    case BolLit(_) => Some(BOL)
    case Ref(x, ty) => if Lookup(ctx, x.Target()) == Some(ty) then Some(ty) else None
    case Binary(op, l, r) =>
      var (a, b) := OpTypes(op);
      if CheckExpr(p, ctx, l) == Some(a) && CheckExpr(p, ctx, r) == Some(a) then Some(b) else None
    case CharAt(o, i) =>
      if CheckExpr(p, ctx, o) == Some(STR) && CheckExpr(p, ctx, i) == Some(INT) then Some(STR) else None
    case Len(o) => if CheckExpr(p, ctx, o) == Some(STR) then Some(INT) else None
    case Not(a) => if CheckExpr(p, ctx, a) == Some(BOL) then Some(BOL) else None
    case And(l, r) => if CheckExpr(p, ctx, l) == Some(BOL) && CheckExpr(p, ctx, r) == Some(BOL) then Some(BOL) else None
    case Or(l, r) => if CheckExpr(p, ctx, l) == Some(BOL) && CheckExpr(p, ctx, r) == Some(BOL) then Some(BOL) else None
    case Cond(ty, t, y, n) =>
      if CheckExpr(p, ctx, t) == Some(BOL) && CheckExpr(p, ctx, y) == Some(ty) && CheckExpr(p, ctx, n) == Some(ty)
      then Some(ty) else None
    case Call(f, args) =>
      if f in p && CheckArgs(p, ctx, args) == Some(ParamTypes(p[f].params)) then Some(p[f].ret) else None
  }

  function ParamTypes(params: seq<Param>): seq<Ty> {
    seq(|params|, i requires 0 <= i < |params| => params[i].ty)
  }

  function CheckArgs(p: Program, ctx: Ctx, args: Args): Option<seq<Ty>> {
    match args
    case NoArgs => Some([])
    case Arg(e, rest) =>
      var t := CheckExpr(p, ctx, e);
      var ts := CheckArgs(p, ctx, rest);
      if t.Some? && ts.Some? then Some([t.value] + ts.value) else None
  }

  function CheckBlock(p: Program, ctx: Ctx, ret: Ty, b: Block): Option<Ctx>
    decreases b, 1
  {
    match b
    case End => Some(ctx)
    case Then(s, rest) =>
      var c := CheckStmt(p, ctx, ret, s);
      if c.Some? then CheckBlock(p, c.value, ret, rest) else None
  }

  function CheckStmt(p: Program, ctx: Ctx, ret: Ty, s: Stmt): Option<Ctx>
    decreases s, 1
  {
    match s
    case Declare(ty, x, e) =>
      if CheckExpr(p, ctx, e) == Some(ty) && ty != NUL && User(x) !in ctx.vars &&
         (Lookup(ctx, User(x)).Some? ==> Lookup(ctx, User(x)) == Some(ty))
      then Some(Put(ctx, User(x), ty)) else None
    case Assign(x, ty, e) =>
      if Lookup(ctx, x.Target()) == Some(ty) && CheckExpr(p, ctx, e) == Some(ty) then Some(ctx) else None
    case AddAssign(x, ty, e) =>
      if Lookup(ctx, x.Target()) == Some(ty) && (ty == STR || ty == INT) && CheckExpr(p, ctx, e) == Some(ty)
      then Some(ctx) else None
    case Free(x) => if Lookup(ctx, x.Target()) == Some(STR) then Some(ctx) else None
    case Ret(None) => if ret == NUL then Some(ctx) else None
    case Ret(Some(e)) => if CheckExpr(p, ctx, e) == Some(ret) then Some(ctx) else None
    case Discard(e) => if CheckExpr(p, ctx, e).Some? then Some(ctx) else None
    case If(branches) => if CheckBranches(p, ctx, ret, branches) then Some(ctx) else None
    case Loop(id, kind, body) =>
      var inner := Inner(map[LoopIndex(id) := INT], ctx);
      if (kind.Range? ==> CheckExpr(p, ctx, kind.from) == Some(INT)) && CheckKind(p, inner, kind) &&
         CheckBlock(p, Inner(if kind.Text? then map[LoopChar(id) := STR] else map[], inner), ret, body).Some?
      then Some(ctx) else None
    case Pass => Some(ctx)
  }

  predicate CheckKind(p: Program, ctx: Ctx, kind: LoopKind) {
    match kind
    case Count(n) => CheckExpr(p, ctx, n) == Some(INT)
    case Range(_, to, step) => CheckExpr(p, ctx, to) == Some(INT) && CheckExpr(p, ctx, step) == Some(INT)
    case While(t) => CheckExpr(p, ctx, t) == Some(BOL)
    case Text(t) => CheckExpr(p, ctx, t) == Some(STR)
  }

  predicate CheckBranches(p: Program, ctx: Ctx, ret: Ty, branches: Branches)
    decreases branches, 1
  {
    match branches
    case NoElse => true
    case Else(b) => CheckBlock(p, Inner(map[], ctx), ret, b).Some?
    case Arm(t, b, rest) =>
      CheckExpr(p, ctx, t) == Some(BOL) && CheckBlock(p, Inner(map[], ctx), ret, b).Some? &&
      CheckBranches(p, ctx, ret, rest)
  }

  /** Some ret stands in b: all the analyzer asks of a function that returns a value. */
  predicate SawReturn(b: Block)
    decreases b, 1
  {
    b.Then? && (StmtReturns(b.head) || SawReturn(b.tail))
  }

  predicate StmtReturns(s: Stmt)
    decreases s, 0
  {
    match s
    case Ret(_) => true
    case If(branches) => BranchReturns(branches)
    case Loop(_, _, body) => SawReturn(body)
    case _ => false
  }

  predicate BranchReturns(branches: Branches)
    decreases branches, 1
  {
    match branches
    case NoElse => false
    case Else(b) => SawReturn(b)
    case Arm(_, b, rest) => SawReturn(b) || BranchReturns(rest)
  }

  predicate CheckFn(p: Program, fn: Fn) {
    CheckBlock(p, Root(Bind(fn.params, ParamTypes(fn.params))), fn.ret, fn.body).Some? &&
    (fn.ret != NUL ==> SawReturn(fn.body))
  }

  predicate Checked(p: Program) { forall f :: f in p ==> CheckFn(p, p[f]) }

  /** Every path through b meets a ret. */
  predicate MustReturn(b: Block) {
    b.Then? && (b.head.Ret? || (b.head.If? && MustReturnAll(b.head.branches)) || MustReturn(b.tail))
  }

  predicate MustReturnAll(branches: Branches) {
    match branches
    case NoElse => false
    case Else(b) => MustReturn(b)
    case Arm(_, b, rest) => MustReturn(b) && MustReturnAll(rest)
  }

  /** Checked, and when `strict`, no function with a result can pass its end. */
  predicate CheckedAs(p: Program, strict: bool) {
    Checked(p) && (strict ==> forall f :: f in p && p[f].ret != NUL ==> MustReturn(p[f].body))
  }

  // ---- soundness ----

  ghost predicate Fits(ctx: Ctx, env: Env<Val>) {
    && ctx.vars.Keys == env.vars.Keys
    && (forall x :: x in env.vars ==> TypeOf(env.vars[x]) == ctx.vars[x])
    && (ctx.Root? <==> env.Root?)
    && (ctx.Inner? ==> Fits(ctx.outer, env.outer))
  }

  lemma {:induction false} FitsLookup(ctx: Ctx, env: Env<Val>, x: Var)
    requires Fits(ctx, env)
    ensures Lookup(ctx, x).Some? <==> Lookup(env, x).Some?
    ensures Lookup(env, x).Some? ==> TypeOf(Lookup(env, x).value) == Lookup(ctx, x).value
  {
    if ctx.Inner? { FitsLookup(ctx.outer, env.outer, x); }
  }

  lemma {:induction false} FitsStore(ctx: Ctx, env: Env<Val>, x: Var, v: Val)
    requires Fits(ctx, env) && Lookup(ctx, x) == Some(TypeOf(v)) && Lookup(env, x).Some?
    ensures Fits(ctx, Store(env, x, v))
  {
    if x !in env.vars { FitsStore(ctx.outer, env.outer, x, v); }
  }

  /** An outcome of type ty: a value of that type, the program's own failure, no answer yet, or
      unless `strict` a function passed its end. */
  ghost predicate Good(o: Out<Val>, ty: Ty, strict: bool) {
    !o.Wrong? && !o.Fault? && (strict ==> !o.FellOff?) && (o.Done? ==> TypeOf(o.value) == ty)
  }

  lemma {:induction false} ExprSound(p: Program, fuel: nat, strict: bool, ctx: Ctx, env: Env<Val>, e: Expr)
    requires CheckedAs(p, strict) && Fits(ctx, env) && CheckExpr(p, ctx, e).Some?
    ensures Good(Eval(p, fuel, env, e), CheckExpr(p, ctx, e).value, strict)
    decreases fuel, 0, e, 1
  {
    match e
    case Ref(x, _) => FitsLookup(ctx, env, x.Target());
    case Binary(_, _, _) => PairSound(p, fuel, strict, ctx, env, e);
    case CharAt(_, _) => AtSound(p, fuel, strict, ctx, env, e);
    case Len(a) => ExprSound(p, fuel, strict, ctx, env, a);
    case Not(a) => ExprSound(p, fuel, strict, ctx, env, a);
    case And(_, _) => LogicSound(p, fuel, strict, ctx, env, e);
    case Or(_, _) => LogicSound(p, fuel, strict, ctx, env, e);
    case Cond(_, _, _, _) => CondSound(p, fuel, strict, ctx, env, e);
    case Call(_, _) => CallSound(p, fuel, strict, ctx, env, e);
    case _ =>
  }

  lemma {:induction false} PairSound(p: Program, fuel: nat, strict: bool, ctx: Ctx, env: Env<Val>, e: Expr)
    requires e.Binary? && CheckedAs(p, strict) && Fits(ctx, env) && CheckExpr(p, ctx, e).Some?
    ensures Good(Eval(p, fuel, env, e), CheckExpr(p, ctx, e).value, strict)
    decreases fuel, 0, e, 0
  {
    ExprSound(p, fuel, strict, ctx, env, e.left);
    ExprSound(p, fuel, strict, ctx, env, e.right);
  }

  lemma {:induction false} AtSound(p: Program, fuel: nat, strict: bool, ctx: Ctx, env: Env<Val>, e: Expr)
    requires e.CharAt? && CheckedAs(p, strict) && Fits(ctx, env) && CheckExpr(p, ctx, e).Some?
    ensures Good(Eval(p, fuel, env, e), CheckExpr(p, ctx, e).value, strict)
    decreases fuel, 0, e, 0
  {
    ExprSound(p, fuel, strict, ctx, env, e.text);
    ExprSound(p, fuel, strict, ctx, env, e.index);
  }

  lemma {:induction false} LogicSound(p: Program, fuel: nat, strict: bool, ctx: Ctx, env: Env<Val>, e: Expr)
    requires (e.And? || e.Or?) && CheckedAs(p, strict) && Fits(ctx, env) && CheckExpr(p, ctx, e).Some?
    ensures Good(Eval(p, fuel, env, e), CheckExpr(p, ctx, e).value, strict)
    decreases fuel, 0, e, 0
  {
    ExprSound(p, fuel, strict, ctx, env, e.left);
    ExprSound(p, fuel, strict, ctx, env, e.right);
  }

  lemma {:induction false} CondSound(p: Program, fuel: nat, strict: bool, ctx: Ctx, env: Env<Val>, e: Expr)
    requires e.Cond? && CheckedAs(p, strict) && Fits(ctx, env) && CheckExpr(p, ctx, e).Some?
    ensures Good(Eval(p, fuel, env, e), CheckExpr(p, ctx, e).value, strict)
    decreases fuel, 0, e, 0
  {
    ExprSound(p, fuel, strict, ctx, env, e.test);
    ExprSound(p, fuel, strict, ctx, env, e.yes);
    ExprSound(p, fuel, strict, ctx, env, e.no);
  }

  lemma {:induction false} CallSound(p: Program, fuel: nat, strict: bool, ctx: Ctx, env: Env<Val>, e: Expr)
    requires e.Call? && CheckedAs(p, strict) && Fits(ctx, env) && CheckExpr(p, ctx, e).Some?
    ensures Good(Eval(p, fuel, env, e), CheckExpr(p, ctx, e).value, strict)
    decreases fuel, 0, e, 0
  {
    ArgsSound(p, fuel, strict, ctx, env, e.args);
    var vs := EvalArgs(p, fuel, env, e.args);
    if vs.Done? && fuel > 0 {
      var types := ParamTypes(p[e.fn].params);
      forall i | 0 <= i < |types| ensures TypeOf(vs.value[i]) == p[e.fn].params[i].ty {
        assert types[i] == p[e.fn].params[i].ty;
      }
      RunSound(p, fuel - 1, strict, e.fn, vs.value);
    }
  }

  lemma {:induction false} ArgsSound(p: Program, fuel: nat, strict: bool, ctx: Ctx, env: Env<Val>, args: Args)
    requires CheckedAs(p, strict) && Fits(ctx, env) && CheckArgs(p, ctx, args).Some?
    ensures var o := EvalArgs(p, fuel, env, args);
            var ts := CheckArgs(p, ctx, args).value;
            !o.Wrong? && !o.Fault? && (strict ==> !o.FellOff?) &&
            (o.Done? ==> |o.value| == |ts| && forall i :: 0 <= i < |ts| ==> TypeOf(o.value[i]) == ts[i])
    decreases fuel, 0, args, 0
  {
    if args.Arg? { ExprSound(p, fuel, strict, ctx, env, args.head); ArgsSound(p, fuel, strict, ctx, env, args.tail); }
  }

  lemma {:induction false} FitsBind(params: seq<Param>, vals: seq<Val>)
    requires ArgsFit(params, vals)
    ensures Fits(Root(Bind(params, ParamTypes(params))), Root(Bind(params, vals)))
    decreases |params|
  {
    if params != [] {
      assert ParamTypes(params)[1..] == ParamTypes(params[1..]);
      FitsBind(params[1..], vals[1..]);
    }
  }

  /** Calling a function of a checked program on fitting values never goes wrong. */
  lemma {:induction false} RunSound(p: Program, fuel: nat, strict: bool, f: string, vals: seq<Val>)
    requires CheckedAs(p, strict) && f in p && ArgsFit(p[f].params, vals)
    ensures Good(Run(p, fuel, f, vals), p[f].ret, strict)
    decreases fuel, 1
  {
    var fn := p[f];
    FitsBind(fn.params, vals);
    var ctx, env := Root(Bind(fn.params, ParamTypes(fn.params))), Root(Bind(fn.params, vals));
    BlockSound(p, fuel, strict, ctx, env, fn.ret, fn.body);
    if strict && fn.ret != NUL && Exec(p, fuel, env, fn.body).Done? { Returns(p, fuel, env, fn.body); }
  }

  lemma {:induction false} Returns(p: Program, fuel: nat, env: Env<Val>, b: Block)
    requires MustReturn(b) && Exec(p, fuel, env, b).Done?
    ensures Exec(p, fuel, env, b).value.Returned?
    decreases b, 1
  {
    var flow := ExecStmt(p, fuel, env, b.head);
    if b.head.If? && MustReturnAll(b.head.branches) {
      BranchesReturn(p, fuel, env, b.head.branches);
    } else if !b.head.Ret? && flow.Done? && flow.value.Next? {
      Returns(p, fuel, flow.value.env, b.tail);
    }
  }

  lemma {:induction false} BranchesReturn(p: Program, fuel: nat, env: Env<Val>, branches: Branches)
    requires MustReturnAll(branches) && ExecBranches(p, fuel, env, branches).Done?
    ensures ExecBranches(p, fuel, env, branches).value.Returned?
    decreases branches, 1
  {
    match branches
    case Else(b) => Returns(p, fuel, Inner(map[], env), b);
    case Arm(t, b, rest) =>
      var c := Eval(p, fuel, env, t);
      if c.value.b { Returns(p, fuel, Inner(map[], env), b); } else { BranchesReturn(p, fuel, env, rest); }
  }

  ghost predicate GoodFlow(o: Out<Flow>, ctx: Ctx, ret: Ty, strict: bool) {
    && !o.Wrong? && !o.Fault? && (strict ==> !o.FellOff?)
    && (o.Done? && o.value.Next? ==> Fits(ctx, o.value.env))
    && (o.Done? && o.value.Returned? ==> TypeOf(o.value.v) == ret)
  }

  lemma {:induction false} BlockSound(p: Program, fuel: nat, strict: bool, ctx: Ctx, env: Env<Val>, ret: Ty, b: Block)
    requires CheckedAs(p, strict) && Fits(ctx, env) && CheckBlock(p, ctx, ret, b).Some?
    ensures GoodFlow(Exec(p, fuel, env, b), CheckBlock(p, ctx, ret, b).value, ret, strict)
    decreases fuel, 0, b, 1
  {
    if b.Then? {
      StmtSound(p, fuel, strict, ctx, env, ret, b.head);
      var flow := ExecStmt(p, fuel, env, b.head);
      if flow.Done? && flow.value.Next? {
        BlockSound(p, fuel, strict, CheckStmt(p, ctx, ret, b.head).value, flow.value.env, ret, b.tail);
      }
    }
  }

  lemma {:induction false} StmtSound(p: Program, fuel: nat, strict: bool, ctx: Ctx, env: Env<Val>, ret: Ty, s: Stmt)
    requires CheckedAs(p, strict) && Fits(ctx, env) && CheckStmt(p, ctx, ret, s).Some?
    ensures GoodFlow(ExecStmt(p, fuel, env, s), CheckStmt(p, ctx, ret, s).value, ret, strict)
    decreases fuel, 0, s, 3
  {
    match s
    case Declare(_, _, _) => DeclareSound(p, fuel, strict, ctx, env, ret, s);
    case Assign(x, ty, e) => StoreSound(p, fuel, strict, ctx, env, ret, s);
    case AddAssign(x, ty, e) => StoreSound(p, fuel, strict, ctx, env, ret, s);
    case Free(x) =>
      FitsLookup(ctx, env, x.Target());
      FitsStore(ctx, env, x.Target(), VStr(""));
    case Ret(None) =>
    case Ret(Some(e)) => ExprSound(p, fuel, strict, ctx, env, e);
    case Discard(e) => ExprSound(p, fuel, strict, ctx, env, e);
    case If(branches) => BranchesSound(p, fuel, strict, ctx, env, ret, branches);
    case Loop(id, kind, body) =>
      LoopSound(p, fuel, strict, ctx, env, ret, id, kind, body);
    case Pass =>
  }

  lemma {:induction false} RoundsSound(p: Program, fuel: nat, strict: bool, ctx: Ctx, env: Env<Val>, ret: Ty, v: Val, id: nat, kind: LoopKind, body: Block)
    requires CheckedAs(p, strict) && Fits(ctx, env) && CheckStmt(p, ctx, ret, Loop(id, kind, body)).Some? && v.VInt?
    ensures GoodFlow(R.SLeave(Iterate(p, fuel, Inner(map[LoopIndex(id) := v], env), id, kind, body)), ctx, ret, strict)
    decreases fuel, 0, Loop(id, kind, body), 1
  {
    IterateSound(p, fuel, strict, Inner(map[LoopIndex(id) := INT], ctx), Inner(map[LoopIndex(id) := v], env), ret, id, kind, body);
  }

  lemma {:induction false} LoopSound(p: Program, fuel: nat, strict: bool, ctx: Ctx, env: Env<Val>, ret: Ty, id: nat, kind: LoopKind, body: Block)
    requires CheckedAs(p, strict) && Fits(ctx, env) && CheckStmt(p, ctx, ret, Loop(id, kind, body)).Some?
    ensures GoodFlow(ExecStmt(p, fuel, env, Loop(id, kind, body)), ctx, ret, strict)
    decreases fuel, 0, Loop(id, kind, body), 2
  {
    var first := Start(p, fuel, env, kind);
    if kind.Range? { ExprSound(p, fuel, strict, ctx, env, kind.from); }
    if first.Done? { RoundsSound(p, fuel, strict, ctx, env, ret, first.value, id, kind, body); }
  }

  lemma {:induction false} DeclareSound(p: Program, fuel: nat, strict: bool, ctx: Ctx, env: Env<Val>, ret: Ty, s: Stmt)
    requires s.Declare? && CheckedAs(p, strict) && Fits(ctx, env) && CheckStmt(p, ctx, ret, s).Some?
    ensures GoodFlow(ExecStmt(p, fuel, env, s), CheckStmt(p, ctx, ret, s).value, ret, strict)
    decreases fuel, 0, s, 0
  {
    ExprSound(p, fuel, strict, ctx, env, s.init);
    FitsLookup(ctx, env, User(s.name));
  }

  lemma {:induction false} StoreSound(p: Program, fuel: nat, strict: bool, ctx: Ctx, env: Env<Val>, ret: Ty, s: Stmt)
    requires CheckedAs(p, strict) && Fits(ctx, env) && CheckStmt(p, ctx, ret, s).Some? && (s.Assign? || s.AddAssign?)
    ensures GoodFlow(ExecStmt(p, fuel, env, s), ctx, ret, strict)
    decreases fuel, 0, s, 0
  {
    var x := s.target.Target();
    ExprSound(p, fuel, strict, ctx, env, s.value);
    FitsLookup(ctx, env, x);
    var v := Eval(p, fuel, env, s.value);
    if v.Done? {
      if s.Assign? {
        FitsStore(ctx, env, x, v.value);
      } else {
        var sum := Apply(if s.ty == STR then Join else Plus, Lookup(env, x).value, v.value);
        assert sum.Done? && TypeOf(sum.value) == s.ty;
        FitsStore(ctx, env, x, sum.value);
      }
    }
  }

  lemma {:induction false} BranchesSound(p: Program, fuel: nat, strict: bool, ctx: Ctx, env: Env<Val>, ret: Ty, branches: Branches)
    requires CheckedAs(p, strict) && Fits(ctx, env) && CheckBranches(p, ctx, ret, branches)
    ensures GoodFlow(ExecBranches(p, fuel, env, branches), ctx, ret, strict)
    decreases fuel, 0, branches, 1
  {
    match branches
    case NoElse =>
    case Else(b) => InnerSound(p, fuel, strict, ctx, env, ret, b);
    case Arm(t, b, rest) =>
      ExprSound(p, fuel, strict, ctx, env, t);
      InnerSound(p, fuel, strict, ctx, env, ret, b);
      BranchesSound(p, fuel, strict, ctx, env, ret, rest);
  }

  lemma {:induction false} InnerSound(p: Program, fuel: nat, strict: bool, ctx: Ctx, env: Env<Val>, ret: Ty, b: Block)
    requires CheckedAs(p, strict) && Fits(ctx, env) && CheckBlock(p, Inner(map[], ctx), ret, b).Some?
    ensures var o := Exec(p, fuel, Inner(map[], env), b);
            GoodFlow(if o.Done? then Done(Leave(o.value)) else o, ctx, ret, strict)
    decreases fuel, 0, b, 2
  {
    BlockSound(p, fuel, strict, Inner(map[], ctx), Inner(map[], env), ret, b);
    OuterKept(p, Inner(map[], ctx), ret, b);
  }

  /** Checking a block adds names to its innermost scope only. */
  lemma {:induction false} OuterKept(p: Program, ctx: Ctx, ret: Ty, b: Block)
    requires CheckBlock(p, ctx, ret, b).Some? && ctx.Inner?
    ensures CheckBlock(p, ctx, ret, b).value.Inner? && CheckBlock(p, ctx, ret, b).value.outer == ctx.outer
    decreases b
  {
    if b.Then? { OuterKept(p, CheckStmt(p, ctx, ret, b.head).value, ret, b.tail); }
  }

  lemma {:induction false} EnterSound(p: Program, fuel: nat, strict: bool, ctx: Ctx, env: Env<Val>, id: nat, kind: LoopKind)
    requires CheckedAs(p, strict) && Fits(ctx, env) && CheckKind(p, ctx, kind) && Lookup(ctx, LoopIndex(id)) == Some(INT)
    ensures var o := Enter(p, fuel, env, id, kind);
            && !o.Wrong? && !o.Fault? && (strict ==> !o.FellOff?)
            && (o.Done? && o.value.Some? ==>
                  if kind.Text? then LoopChar(id) in o.value.value && o.value.value.Keys == {LoopChar(id)}
                                     && o.value.value[LoopChar(id)].VStr?
                  else o.value.value == map[])
    decreases fuel, 0, kind, 2
  {
    FitsLookup(ctx, env, LoopIndex(id));
    match kind
    case Count(n) => ExprSound(p, fuel, strict, ctx, env, n);
    case Range(_, _, _) => RangeSound(p, fuel, strict, ctx, env, id, kind);
    case While(t) => ExprSound(p, fuel, strict, ctx, env, t);
    case Text(t) => ExprSound(p, fuel, strict, ctx, env, t);
  }

  lemma {:induction false} RangeSound(p: Program, fuel: nat, strict: bool, ctx: Ctx, env: Env<Val>, id: nat, kind: LoopKind)
    requires kind.Range? && CheckedAs(p, strict) && Fits(ctx, env) && CheckKind(p, ctx, kind) && Lookup(ctx, LoopIndex(id)) == Some(INT)
    ensures var o := Enter(p, fuel, env, id, kind);
            && !o.Wrong? && !o.Fault? && (strict ==> !o.FellOff?)
            && (o.Done? && o.value.Some? ==> o.value.value == map[])
    decreases fuel, 0, kind, 1
  {
    FitsLookup(ctx, env, LoopIndex(id));
    ExprSound(p, fuel, strict, ctx, env, kind.step);
    ExprSound(p, fuel, strict, ctx, env, kind.to);
  }

  lemma {:induction false} IterateSound(p: Program, fuel: nat, strict: bool, ctx: Ctx, env: Env<Val>, ret: Ty, id: nat, kind: LoopKind, body: Block)
    requires CheckedAs(p, strict) && Fits(ctx, env) && ctx.Inner? && Lookup(ctx, LoopIndex(id)) == Some(INT)
    requires CheckKind(p, ctx, kind)
    requires CheckBlock(p, Inner(if kind.Text? then map[LoopChar(id) := STR] else map[], ctx), ret, body).Some?
    ensures GoodFlow(Iterate(p, fuel, env, id, kind, body), ctx, ret, strict)
    decreases fuel, 0, Loop(id, kind, body), 0
  {
    if fuel > 0 {
      RoundSound(p, fuel - 1, strict, ctx, env, ret, id, kind, body);
      R.IterateS(p, fuel - 1, env, id, kind, body);
      var round := Enter(p, fuel - 1, env, id, kind);
      if round.Done? && round.value.Some? {
        NextSound(p, fuel - 1, strict, ctx, R.SLeave(Exec(p, fuel - 1, Inner(round.value.value, env), body)), ret, id, kind, body);
      }
    }
  }

  lemma {:induction false} NextSound(p: Program, fuel: nat, strict: bool, ctx: Ctx, sf: Out<Flow>, ret: Ty, id: nat, kind: LoopKind, body: Block)
    requires CheckedAs(p, strict) && GoodFlow(sf, ctx, ret, strict) && ctx.Inner? && Lookup(ctx, LoopIndex(id)) == Some(INT)
    requires CheckKind(p, ctx, kind)
    requires CheckBlock(p, Inner(if kind.Text? then map[LoopChar(id) := STR] else map[], ctx), ret, body).Some?
    ensures GoodFlow(R.SNext(p, fuel, sf, id, kind, body), ctx, ret, strict)
    decreases fuel, 0, Loop(id, kind, body), 1
  {
    if sf.Done? && sf.value.Next? {
      var after := sf.value.env;
      FitsLookup(ctx, after, LoopIndex(id));
      if kind.Range? { ExprSound(p, fuel, strict, ctx, after, kind.step); }
      var d := Stride(p, fuel, after, kind);
      if d.Done? {
        var n := Lookup(after, LoopIndex(id)).value.n + d.value.n;
        FitsStore(ctx, after, LoopIndex(id), VInt(n));
        IterateSound(p, fuel, strict, ctx, Store(after, LoopIndex(id), VInt(n)), ret, id, kind, body);
      }
    }
  }

  lemma {:induction false} RoundSound(p: Program, fuel: nat, strict: bool, ctx: Ctx, env: Env<Val>, ret: Ty, id: nat, kind: LoopKind, body: Block)
    requires CheckedAs(p, strict) && Fits(ctx, env) && ctx.Inner? && Lookup(ctx, LoopIndex(id)) == Some(INT)
    requires CheckKind(p, ctx, kind)
    requires CheckBlock(p, Inner(if kind.Text? then map[LoopChar(id) := STR] else map[], ctx), ret, body).Some?
    ensures var round := Enter(p, fuel, env, id, kind);
            && !round.Wrong? && !round.Fault? && (strict ==> !round.FellOff?)
            && (round.Done? && round.value.Some? ==>
                  var flow := Exec(p, fuel, Inner(round.value.value, env), body);
                  GoodFlow(if flow.Done? then Done(Leave(flow.value)) else flow, ctx, ret, strict))
    decreases fuel, 0, Loop(id, kind, body), 0
  {
    EnterSound(p, fuel, strict, ctx, env, id, kind);
    var round := Enter(p, fuel, env, id, kind);
    if round.Done? && round.value.Some? {
      var inner := Inner(if kind.Text? then map[LoopChar(id) := STR] else map[], ctx);
      BlockSound(p, fuel, strict, inner, Inner(round.value.value, env), ret, body);
      OuterKept(p, inner, ret, body);
    }
  }
}
