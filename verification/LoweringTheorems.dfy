/** What the emitter promises for checked programs, and where it breaks its promise. */
module LoweringTheorems {
  import opened Wrappers
  import opened CasterAst
  import S = ByValue
  import C = Machine
  import opened Emit
  import opened LoweringSource
  import opened LoweringHeap
  import opened LoweringGuard
  import opened LoweringSteps
  import opened Lowering
  import opened FragmentTypes

  /** A checked program in which no conditional value with a bare STR name among its leaves is
      stored or returned in a way the guard excludes: each call of the emitted code, whatever
      the heap and however its arguments share blocks, returns exactly the by-value result, or
      fails, runs on, or passes its end exactly when the by-value program does. It never reads
      or frees a dead block, changes no block that was there before, and its result is static
      text or a live block that was not. */
  lemma {:induction false} EmittedCallIsFaithful(p: Program, fuel: nat, h: C.Heap, f: string, vs: seq<S.Val>, cs: seq<C.CVal>)
    requires Checked(p) && GuardedProgram(p) && f in p && S.ArgsFit(p[f].params, vs)
    requires HeapOk(h) && AllRep(vs, cs, h)
    ensures var s, t := S.Run(p, fuel, f, vs), C.Run(EmitProgram(p), fuel, h, f, cs);
            && !t.Fault? && !t.Wrong?
            && (t.Done? <==> s.Done?) && (t.Abort? <==> s.Abort?) && (t.OutOfFuel? <==> s.OutOfFuel?) && (t.FellOff? <==> s.FellOff?)
            && (t.Done? ==>
                  && Rep(s.value, t.value.0, t.value.1)
                  && (forall a :: a in h.live ==> a in t.value.1.live && t.value.1.live[a] == h.live[a])
                  && (t.value.0.Owned? ==> t.value.0.addr !in h.live))
  {
    RunSound(p, fuel, false, f, vs);
    SimRun(p, fuel, h, f, vs, cs);
  }

  // ---- passing the end of a function ----

  /** A program whose functions with a result meet a ret on every path never passes an end. */
  lemma {:induction false} MustReturnNeverFallsOff(p: Program, fuel: nat, h: C.Heap, f: string, vs: seq<S.Val>, cs: seq<C.CVal>)
    requires CheckedAs(p, true) && GuardedProgram(p) && f in p && S.ArgsFit(p[f].params, vs)
    requires HeapOk(h) && AllRep(vs, cs, h)
    ensures !S.Run(p, fuel, f, vs).FellOff? && !C.Run(EmitProgram(p), fuel, h, f, cs).FellOff?
  {
    RunSound(p, fuel, true, f, vs);
    SimRun(p, fuel, h, f, vs, cs);
  }

  /** `f(b) -> STR { if (b) ( ret "text" ) }`: one ret, on one path. */
  function HalfReturning(f: string, b: string, text: string): Program {
    map[f := Fn([Param(b, BOL)], STR,
                Then(If(Arm(Ref(Plain(b), BOL), Then(Ret(Some(StrLit(text))), End), NoElse)), End))]
  }

  /** The analyzer accepts it. Called with true it returns its text; called with false both the
      program and the emitted function pass the end, which C leaves undefined. */
  lemma {:induction false} OneRetIsNotEnough(f: string, b: string, text: string, given: bool, h: C.Heap)
    ensures var p := HalfReturning(f, b, text);
      && Checked(p) && GuardedProgram(p) && !MustReturn(p[f].body)
      && S.Run(p, 0, f, [S.VBol(given)]) == (if given then Done(S.VStr(text)) else FellOff)
      && C.Run(EmitProgram(p), 0, h, f, [C.BoolVal(given)]) == (if given then Done((C.Static(text), h)) else FellOff)
  {
    var p := HalfReturning(f, b, text);
    var inner := Then(Ret(Some(StrLit(text))), End);
    HalfChecks(p, f, b, text, inner);
    HalfGuarded(p, f, inner);
    HalfMeans(p, f, b, text, given, inner);
    HalfRuns(p, f, b, text, given, h, inner);
  }

  lemma {:induction false} HalfChecks(p: Program, f: string, b: string, text: string, inner: Block)
    requires p == HalfReturning(f, b, text) && inner == Then(Ret(Some(StrLit(text))), End)
    ensures Checked(p) && !MustReturn(p[f].body)
  {
    var body, x := p[f].body, Param(b, BOL);
    var ctx: Ctx := Root(map[User(b) := BOL]);
    assert ParamTypes([x]) == [BOL] && [x][1..] == [] && [BOL][1..] == [];
    assert Bind([x], [BOL]) == Bind([], [])[User(b) := BOL] == map[User(b) := BOL];
    assert CheckExpr(p, ctx, Ref(Plain(b), BOL)) == Some(BOL) && CheckExpr(p, Inner(map[], ctx), StrLit(text)) == Some(STR);
    assert CheckStmt(p, Inner(map[], ctx), STR, inner.head) == Some(Inner(map[], ctx));
    assert CheckBlock(p, Inner(map[], ctx), STR, inner) == Some(Inner(map[], ctx));
    var arms := body.head.branches;
    assert arms == Arm(Ref(Plain(b), BOL), inner, NoElse) && CheckBranches(p, ctx, STR, NoElse);
    assert CheckBranches(p, ctx, STR, arms);
    assert CheckStmt(p, ctx, STR, body.head) == Some(ctx) && CheckBlock(p, ctx, STR, End) == Some(ctx);
    assert CheckBlock(p, ctx, STR, body) == Some(ctx);
    assert SawReturn(inner) && BranchReturns(arms) && StmtReturns(body.head);
    assert !MustReturnAll(NoElse) && !MustReturnAll(arms) && !MustReturn(End);
  }

  lemma {:induction false} HalfGuarded(p: Program, f: string, inner: Block)
    requires inner.Then? && inner.head.Ret? && inner.head.result.Some? && inner.head.result.value.StrLit? && inner.tail == End
    requires p.Keys == {f} && p[f].body.Then? && p[f].body.tail == End
    requires p[f].body.head.If? && p[f].body.head.branches.Arm? && p[f].body.head.branches.body == inner
    requires p[f].body.head.branches.rest == NoElse
    ensures GuardedProgram(p)
  {
    var fn := p[f];
    var names, arms := ParamNames(fn.params), fn.body.head.branches;
    assert CondLeaves(inner.head.result.value) == {};
    assert ListAfter(inner.head, 2, []) == [] && inner == Then(inner.head, End);
    assert GuardedBlock(inner.tail, 2, ListAfter(inner.head, 2, []), names);
    assert GuardedBlock(inner, 2, [], names);
    assert ListAfterBlock(inner, 2, []) == ListAfterBlock(inner.tail, 2, []) == [];
    assert GuardedBranches(arms.rest, 1, [], names) && GuardedBranches(arms, 1, [], names);
    assert GuardedStmt(fn.body.head, 1, [], names);
    var later := ListAfter(fn.body.head, 1, []);
    assert GuardedBlock(fn.body.tail, 1, later, names);
    assert GuardedBlock(fn.body, 1, [], names);
    assert GuardedFn(p[f]);
  }

  lemma {:induction false} HalfMeans(p: Program, f: string, b: string, text: string, given: bool, inner: Block)
    requires p == HalfReturning(f, b, text) && inner == Then(Ret(Some(StrLit(text))), End)
    ensures S.Run(p, 0, f, [S.VBol(given)]) == (if given then Done(S.VStr(text)) else FellOff)
  {
    var se: Env<S.Val> := Root(map[User(b) := S.VBol(given)]);
    assert [Param(b, BOL)][1..] == [] && [S.VBol(given)][1..] == [];
    assert Root(Bind(p[f].params, [S.VBol(given)])) == se;
    assert S.Eval(p, 0, se, Ref(Plain(b), BOL)) == Done(S.VBol(given));
    assert S.ExecStmt(p, 0, Inner(map[], se), inner.head) == Done(S.Returned(S.VStr(text)));
    assert S.Exec(p, 0, Inner(map[], se), inner) == Done(S.Returned(S.VStr(text)));
    var branches := p[f].body.head.branches;
    assert S.ExecBranches(p, 0, se, branches) == Done(if given then S.Returned(S.VStr(text)) else S.Next(se));
    assert S.ExecStmt(p, 0, se, p[f].body.head) == Done(if given then S.Returned(S.VStr(text)) else S.Next(se));
    assert S.Exec(p, 0, se, p[f].body) == Done(if given then S.Returned(S.VStr(text)) else S.Next(se));
  }

  lemma {:induction false} HalfRuns(p: Program, f: string, b: string, text: string, given: bool, h: C.Heap, inner: Block)
    requires p == HalfReturning(f, b, text) && inner == Then(Ret(Some(StrLit(text))), End)
    ensures C.Run(EmitProgram(p), 0, h, f, [C.BoolVal(given)]) == (if given then Done((C.Static(text), h)) else FellOff)
  {
    var code := EmitProgram(p);
    var te: Env<C.CVal> := Root(map[User(b) := C.BoolVal(given)]);
    assert [Param(b, BOL)][1..] == [] && [C.BoolVal(given)][1..] == [];
    assert Root(Bind(p[f].params, [C.BoolVal(given)])) == te;
    var ret := CReturn(CLit(text), []);
    var arms := CArm(CVar(User(b)), CThen(ret, CEnd), CNoElse);
    assert EmitStmt(inner.head, 2, []) == ret && EmitBlock(inner, 2, []) == CThen(ret, CEnd);
    assert EmitBranches(p[f].body.head.branches, 1, []) == arms;
    assert EmitBlock(End, 1, []) == CEnd;
    assert EmitBlock(p[f].body, 1, []) == CThen(CIf(arms), CEnd);
    assert !EndsWithReturn(p[f].body) && DropBlock(Drops([], None)) == CEnd && Append(CThen(CIf(arms), CEnd), CEnd) == CThen(CIf(arms), CEnd);
    assert ListAfterBlock(End, 2, []) == [] && ListAfterBlock(End, 1, []) == [];
    assert ListAfterBlock(inner, 2, []) == [] && ListAfterBranches(NoElse, 1, []) == [];
    assert ListAfter(p[f].body.head, 1, []) == [] && ListAfterBlock(p[f].body, 1, []) == [];
    assert EmitFn(p[f]).body == CThen(CIf(arms), CEnd);
    var flow: C.CFlow := if given then C.Returned(C.Static(text), h) else C.Next(te, h);
    assert C.ExecStmt(code, 0, Inner(map[], te), h, ret) == Done(C.Returned(C.Static(text), h));
    assert C.ExecBranches(code, 0, te, h, arms) == Done(flow);
    assert C.Exec(code, 0, te, h, CThen(CIf(arms), CEnd)) == Done(flow);
  }

  // ---- a conditional value over a bare name ----

  /** `s = a + b   t = if(true)(s)else("")   ret s`, for any names s and t and texts a and b. */
  function SharingBody(s: string, t: string, a: string, b: string): Block {
    Then(Declare(STR, s, Binary(Join, StrLit(a), StrLit(b))),
    Then(Declare(STR, t, Cond(STR, BolLit(true), Ref(Plain(s), STR), StrLit(""))),
    Then(Ret(Some(Ref(Plain(s), STR))), End)))
  }

  function Sharing(f: string, s: string, t: string, a: string, b: string): Program {
    map[f := Fn([], STR, SharingBody(s, t, a, b))]
  }

  /** The analyzer accepts every such program and it means a + b; the emitted function gives s
      and t one block, drops it as t, and returns it as s. */
  lemma {:induction false} SharedBlockIsReturnedDead(f: string, s: string, t: string, a: string, b: string)
    requires s != t
    ensures var p := Sharing(f, s, t, a, b);
      && Checked(p) && !GuardedProgram(p) && S.Run(p, 0, f, []) == Done(S.VStr(a + b))
      && var r := C.Run(EmitProgram(p), 0, C.Heap(0, map[]), f, []);
         r.Done? && r.value.0 == C.Owned(0) && 0 !in r.value.1.live
  {
    SharingChecks(f, s, t, a, b);
    SharingMeans(f, s, t, a, b);
    SharingRuns(f, s, t, a, b);
  }

  lemma {:induction false} SharingChecks(f: string, s: string, t: string, a: string, b: string)
    requires s != t
    ensures Checked(Sharing(f, s, t, a, b)) && !GuardedProgram(Sharing(f, s, t, a, b))
  {
    var p, body := Sharing(f, s, t, a, b), SharingBody(s, t, a, b);
    var ctx: Ctx := Root(map[]);
    var ctx1 := Put(ctx, User(s), STR);
    var ctx2 := Put(ctx1, User(t), STR);
    assert CheckExpr(p, ctx, StrLit(a)) == Some(STR) && CheckExpr(p, ctx, StrLit(b)) == Some(STR);
    assert CheckExpr(p, ctx, Binary(Join, StrLit(a), StrLit(b))) == Some(STR);
    assert CheckStmt(p, ctx, STR, body.head) == Some(ctx1);
    assert Lookup(ctx1, User(t)) == None;
    assert CheckExpr(p, ctx1, Ref(Plain(s), STR)) == Some(STR);
    assert CheckExpr(p, ctx1, StrLit("")) == Some(STR);
    assert CheckExpr(p, ctx1, BolLit(true)) == Some(BOL);
    assert CheckExpr(p, ctx1, Cond(STR, BolLit(true), Ref(Plain(s), STR), StrLit(""))) == Some(STR);
    assert CheckStmt(p, ctx1, STR, body.tail.head) == Some(ctx2);
    assert CheckBlock(p, ctx2, STR, body.tail.tail).Some?;
    assert CheckBlock(p, ctx1, STR, body.tail).Some?;
    assert ParamTypes([]) == [];
    assert CheckBlock(p, ctx, STR, body).Some?;
    assert StmtReturns(body.tail.tail.head) && SawReturn(body.tail.tail);
    assert SawReturn(body.tail);
    assert SawReturn(body);
    var picked := Cond(STR, BolLit(true), Ref(Plain(s), STR), StrLit(""));
    assert User(s) in Leaves(Ref(Plain(s), STR)) && User(s) in CondLeaves(picked);
    assert !GuardedStmt(body.tail.head, 1, ListAfter(body.head, 1, []), ParamNames([]));
    assert !GuardedBlock(body.tail, 1, ListAfter(body.head, 1, []), ParamNames([])) && !GuardedBlock(body, 1, [], ParamNames([]));
    assert !GuardedFn(p[f]);
    assert f in p && p[f].body == body;
  }

  lemma {:induction false} SharingMeans(f: string, s: string, t: string, a: string, b: string)
    requires s != t
    ensures S.Run(Sharing(f, s, t, a, b), 0, f, []) == Done(S.VStr(a + b))
  {
    var p, body := Sharing(f, s, t, a, b), SharingBody(s, t, a, b);
    var e0: Env<S.Val> := Root(map[]);
    var e1 := Put(e0, User(s), S.VStr(a + b));
    var e2 := Put(e1, User(t), S.VStr(a + b));
    assert S.Eval(p, 0, e0, StrLit(a)) == Done(S.VStr(a)) && S.Eval(p, 0, e0, StrLit(b)) == Done(S.VStr(b));
    assert S.Eval(p, 0, e0, Binary(Join, StrLit(a), StrLit(b))) == Done(S.VStr(a + b));
    assert S.ExecStmt(p, 0, e0, body.head) == Done(S.Next(e1));
    assert S.Eval(p, 0, e1, BolLit(true)) == Done(S.VBol(true));
    assert S.Eval(p, 0, e1, Ref(Plain(s), STR)) == Done(S.VStr(a + b));
    assert S.Eval(p, 0, e1, Cond(STR, BolLit(true), Ref(Plain(s), STR), StrLit(""))) == Done(S.VStr(a + b));
    assert S.ExecStmt(p, 0, e1, body.tail.head) == Done(S.Next(e2));
    assert S.Eval(p, 0, e2, Ref(Plain(s), STR)) == Done(S.VStr(a + b));
    assert S.ExecStmt(p, 0, e2, body.tail.tail.head) == Done(S.Returned(S.VStr(a + b)));
    assert S.Exec(p, 0, e2, body.tail.tail) == Done(S.Returned(S.VStr(a + b)));
    assert S.Exec(p, 0, e1, body.tail) == Done(S.Returned(S.VStr(a + b)));
  }

  /** The generated statements of the function. */
  ghost function SharingCode(s: string, t: string, a: string, b: string): (CStmt, CStmt, CStmt) {
    (CDeclare(User(s), STR, CBinary(Join, CLit(a), CLit(b))),
     CDeclare(User(t), STR, CCond(CBool(true), CVar(User(s)), CLit(""))),
     CReturn(CVar(User(s)), [t]))
  }

  lemma {:induction false} DropsOther(s: string, t: string)
    requires s != t
    ensures Drops([s, t], Some(s)) == [t]
  {
    assert [s, t][..1] == [s] && [s][..0] == [];
    assert Drops([s], Some(s)) == [];
  }

  lemma {:induction false} SharingStatements(s: string, t: string, a: string, b: string)
    requires s != t
    ensures var body := SharingBody(s, t, a, b);
            var (d0, d1, d2) := SharingCode(s, t, a, b);
            && EmitStmt(body.head, 1, []) == d0 && EmitStmt(body.tail.head, 1, [s]) == d1
            && EmitStmt(body.tail.tail.head, 1, [s, t]) == d2
  {
    assert EmitExpr(StrLit(a)) == CLit(a) && EmitExpr(StrLit(b)) == CLit(b) && EmitExpr(StrLit("")) == CLit("");
    assert EmitExpr(Ref(Plain(s), STR)) == CVar(User(s)) && EmitExpr(BolLit(true)) == CBool(true);
    DropsOther(s, t);
  }

  lemma {:induction false} SharingEmits(f: string, s: string, t: string, a: string, b: string)
    requires s != t
    ensures var (d0, d1, d2) := SharingCode(s, t, a, b);
            EmitFn(Sharing(f, s, t, a, b)[f]) == CFn([], STR, CThen(d0, CThen(d1, CThen(d2, CEnd))))
  {
    var body := SharingBody(s, t, a, b);
    var (d0, d1, d2) := SharingCode(s, t, a, b);
    SharingStatements(s, t, a, b);
    assert OwnedAdd([], s, STR) == [s] && OwnedAdd([s], t, STR) == [s, t];
    assert EmitBlock(body.tail.tail, 1, [s, t]) == CThen(d2, CEnd);
    assert EmitBlock(body.tail, 1, [s]) == CThen(d1, CThen(d2, CEnd));
    assert EmitBlock(body, 1, []) == CThen(d0, CThen(d1, CThen(d2, CEnd)));
    assert EndsWithReturn(body.tail);
  }

  lemma {:induction false} SharingRuns(f: string, s: string, t: string, a: string, b: string)
    requires s != t
    ensures var r := C.Run(EmitProgram(Sharing(f, s, t, a, b)), 0, C.Heap(0, map[]), f, []);
            r.Done? && r.value.0 == C.Owned(0) && 0 !in r.value.1.live
  {
    var code := EmitProgram(Sharing(f, s, t, a, b));
    var (d0, d1, d2) := SharingCode(s, t, a, b);
    SharingEmits(f, s, t, a, b);
    var e0: Env<C.CVal> := Root(map[]);
    var e1 := Put(e0, User(s), C.Owned(0));
    var e2 := Put(e1, User(t), C.Owned(0));
    var h0 := C.Heap(0, map[]);
    var h1 := C.Heap(1, h0.live[0 := a + b]);
    var h2 := C.Heap(1, h1.live - {0});
    SharingSteps(code, s, t, a, b, e0, e1, e2, h0, h1, h2);
    assert C.Exec(code, 0, e1, h1, CThen(d1, CThen(d2, CEnd))) == Done(C.Returned(C.Owned(0), h2));
    assert C.Exec(code, 0, e0, h0, CThen(d0, CThen(d1, CThen(d2, CEnd)))) == Done(C.Returned(C.Owned(0), h2));
  }

  lemma {:induction false} SharingSteps(code: C.Code, s: string, t: string, a: string, b: string, e0: Env<C.CVal>, e1: Env<C.CVal>, e2: Env<C.CVal>,
                                        h0: C.Heap, h1: C.Heap, h2: C.Heap)
    requires s != t && e0 == Root(map[]) && h0 == C.Heap(0, map[])
    requires e1 == Put(e0, User(s), C.Owned(0)) && e2 == Put(e1, User(t), C.Owned(0))
    requires h1 == C.Heap(1, h0.live[0 := a + b]) && h2 == C.Heap(1, h1.live - {0})
    ensures var (d0, d1, d2) := SharingCode(s, t, a, b);
            && C.ExecStmt(code, 0, e0, h0, d0) == Done(C.Next(e1, h1))
            && C.ExecStmt(code, 0, e1, h1, d1) == Done(C.Next(e2, h1))
            && C.Exec(code, 0, e2, h1, CThen(d2, CEnd)) == Done(C.Returned(C.Owned(0), h2))
  {
    var (d0, d1, d2) := SharingCode(s, t, a, b);
    assert C.Eval(code, 0, e0, h0, CLit(a)) == Done((C.Static(a), h0)) && C.Eval(code, 0, e0, h0, CLit(b)) == Done((C.Static(b), h0));
    assert C.Eval(code, 0, e0, h0, CBinary(Join, CLit(a), CLit(b))) == Done((C.Owned(0), h1));
    assert C.Eval(code, 0, e1, h1, CBool(true)) == Done((C.BoolVal(true), h1));
    assert C.Eval(code, 0, e1, h1, CVar(User(s))) == Done((C.Owned(0), h1));
    assert C.Eval(code, 0, e1, h1, CCond(CBool(true), CVar(User(s)), CLit(""))) == Done((C.Owned(0), h1));
    assert C.Eval(code, 0, e2, h1, CVar(User(s))) == Done((C.Owned(0), h1));
    assert C.DropNames(e2, h1, [t]) == Done(h2) by {
      assert [t][1..] == [];
      assert C.DropValue(h1, C.Owned(0)) == Done(h2);
    }
    assert C.ExecStmt(code, 0, e2, h1, d2) == Done(C.Returned(C.Owned(0), h2));
  }
}
