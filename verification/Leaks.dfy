/** Which blocks a call leaves behind: exactly as many as the by-value run's tally says, none
    for balanced programs, and one for each way of losing a block the analyzer lets through. */
module Leaks {
  import opened Wrappers
  import opened CasterAst
  import S = ByValue
  import C = Machine
  import opened Emit
  import opened FragmentTypes
  import opened LoweringSource
  import opened LoweringHeap
  import opened LoweringGuard
  import opened LoweringSteps
  import opened Lowering
  import opened BlockTally
  import opened BlockTallyProof
  import opened BlockLosses
  import opened BalancedCalls

  /** Afterwards the blocks there were are live, the returned one if any, and the lost ones. */
  ghost predicate Leaves(t: CExprOut, h: C.Heap, lost: set<nat>) {
    && t.Done? && t.value.1.live.Keys == h.live.Keys + AddrOf(t.value.0) + lost
    && h.live.Keys !! AddrOf(t.value.0) && h.live.Keys !! lost && AddrOf(t.value.0) !! lost
  }

  ghost function LostBy(t: CExprOut, h: C.Heap): set<nat> {
    if t.Done? then t.value.1.live.Keys - h.live.Keys - AddrOf(t.value.0) else {}
  }

  /** Every call of guarded programs that returns: the blocks it loses are the spare ones of
      the by-value run, counted without a heap. */
  lemma {:induction false} LeaksExactly(p: Program, fuel: nat, h: C.Heap, f: string, vs: seq<S.Val>, cs: seq<C.CVal>, bits: seq<bool>)
    requires GuardedProgram(p) && HeapOk(h) && AllRep(vs, cs, h) && BitsAre(cs, bits) && S.Run(p, fuel, f, vs).Done?
    ensures var t := C.Run(EmitProgram(p), fuel, h, f, cs);
            Leaves(t, h, LostBy(t, h)) && |LostBy(t, h)| == Spare(RunTally(p, fuel, f, vs, bits))
  {
    SimRun(p, fuel, h, f, vs, cs);
    CountRun(p, fuel, h, f, vs, cs, bits);
    LostCounts(S.Run(p, fuel, f, vs), C.Run(EmitProgram(p), fuel, h, f, cs), h, RunTally(p, fuel, f, vs, bits));
  }

  lemma {:induction false} LostCounts(s: Out<S.Val>, t: CExprOut, h: C.Heap, c: Cost)
    requires HeapOk(h) && EvalOk(s, t, h) && s.Done? && FreshOut(t, h) && CostOk(s, t, h, c)
    ensures Leaves(t, h, LostBy(t, h)) && |LostBy(t, h)| == Spare(c)
  {
    KeptApart(s, t, h);
    Remainder(t.value.1.live.Keys, h.live.Keys, AddrOf(t.value.0));
    assert |AddrOf(t.value.0)| == One(c.block);
    assert |t.value.1.live| == |t.value.1.live.Keys| && |h.live| == |h.live.Keys|;
  }

  lemma {:induction false} KeptApart(s: Out<S.Val>, t: CExprOut, h: C.Heap)
    requires HeapOk(h) && EvalOk(s, t, h) && s.Done? && FreshOut(t, h)
    ensures h.live.Keys <= t.value.1.live.Keys && AddrOf(t.value.0) <= t.value.1.live.Keys && h.live.Keys !! AddrOf(t.value.0)
  {
  }

  lemma {:induction false} Remainder(all: set<nat>, a: set<nat>, b: set<nat>)
    requires a <= all && b <= all && a !! b
    ensures all == a + b + (all - a - b) && |all - a - b| == |all| - |a| - |b|
  {
    assert all - a - b == all - (a + b);
    assert |a + b| == |a| + |b| && all == (a + b) + (all - (a + b));
  }

  /** A call of a balanced program leaves the blocks there were and its result's, and no other. */
  lemma {:induction false} BalancedCallsLoseNothing(p: Program, fuel: nat, h: C.Heap, f: string, vs: seq<S.Val>, cs: seq<C.CVal>)
    requires BalancedProgram(p) && GuardedProgram(p) && HeapOk(h) && AllRep(vs, cs, h) && S.Run(p, fuel, f, vs).Done?
    ensures Leaves(C.Run(EmitProgram(p), fuel, h, f, cs), h, {})
  {
    var bits := seq(|cs|, i requires 0 <= i < |cs| => cs[i].Owned?);
    LeaksExactly(p, fuel, h, f, vs, cs, bits);
    BalancedRun(p, fuel, f, vs, bits);
  }

  // ---- one lost block, six ways ----

  function Joined(a: string, b: string): Expr { Binary(Join, StrLit(a), StrLit(b)) }

  /** `f() { s = a + b  ... }` with no result. */
  function Opening(s: string, a: string, b: string, rest: Block): Fn { Fn([], NUL, Then(Declare(STR, s, Joined(a, b)), rest)) }

  /** The call gains one block that is neither returned nor there before. */
  ghost predicate LosesOne(p: Program, fuel: nat, h: C.Heap, f: string) {
    var t := C.Run(EmitProgram(p), fuel, h, f, []);
    t.Done? && t.value.0 == C.Void && Leaves(t, h, LostBy(t, h)) && |LostBy(t, h)| == 1
  }

  lemma {:induction false} OpeningTally(p: Program, fuel: nat, f: string, s: string, a: string, b: string, rest: Block, se: Env<S.Val>,
                                        be: Env<bool>, flow: S.Flow, t: Tally, names: seq<string>)
    requires f in p && p[f] == Opening(s, a, b, rest)
    requires se == Root(map[User(s) := S.VStr(a + b)]) && be == Root(map[User(s) := true])
    requires S.Exec(p, fuel, se, rest) == Done(flow) && flow.Next? && t == ExecTally(p, fuel, se, be, rest, 1, [s])
    requires names == ListAfterBlock(rest, 1, [s]) && NoDup(names) && t.made == Held(t.bits, names)
    ensures S.Run(p, fuel, f, []) == Done(S.VNul) && RunTally(p, fuel, f, [], []) == Cost(1, false)
  {
    var fn, st := p[f], p[f].body.head;
    var e0, b0: Env<bool> := Root(map[]), Root(map[]);
    JoinedFacts(p, fuel, e0, b0, Root(map[]), a, b);
    assert S.ExecStmt(p, fuel, e0, st) == Done(S.Next(se)) && S.Exec(p, fuel, e0, fn.body) == Done(flow);
    assert StmtTally(p, fuel, e0, b0, st, 1, []) == Tally(be, 1, false);
    assert ListAfter(st, 1, []) == [s];
    assert ExecTally(p, fuel, e0, b0, fn.body, 1, []).made == 1 + t.made;
    HeldDrops(t.bits, names, None);
  }

  /** With s holding its block, the rest of the body must come out even. */
  lemma {:induction false} OpeningLoses(p: Program, fuel: nat, h: C.Heap, f: string, s: string, a: string, b: string, rest: Block,
                                        se: Env<S.Val>, be: Env<bool>, flow: S.Flow, t: Tally, names: seq<string>)
    requires GuardedProgram(p) && HeapOk(h) && f in p && p[f] == Opening(s, a, b, rest)
    requires se == Root(map[User(s) := S.VStr(a + b)]) && be == Root(map[User(s) := true])
    requires S.Exec(p, fuel, se, rest) == Done(flow) && flow.Next? && t == ExecTally(p, fuel, se, be, rest, 1, [s])
    requires names == ListAfterBlock(rest, 1, [s]) && NoDup(names) && t.made == Held(t.bits, names)
    ensures LosesOne(p, fuel, h, f)
  {
    OpeningTally(p, fuel, f, s, a, b, rest, se, be, flow, t, names);
    LeaksExactly(p, fuel, h, f, [], [], []);
    SimRun(p, fuel, h, f, [], []);
  }

  lemma {:induction false} OpeningAccepted(p: Program, f: string, s: string, a: string, b: string, rest: Block)
    requires f in p && p[f] == Opening(s, a, b, rest)
    requires CheckBlock(p, Root(map[User(s) := STR]), NUL, rest).Some? && GuardedBlock(rest, 1, [s], {})
    ensures CheckFn(p, p[f]) && GuardedFn(p[f])
  {
    var fn, st := p[f], p[f].body.head;
    var ctx: Ctx := Root(map[]);
    assert ParamTypes([]) == [] && ParamNames([]) == {};
    assert CheckExpr(p, ctx, StrLit(a)) == Some(STR) && CheckExpr(p, ctx, StrLit(b)) == Some(STR);
    assert CheckExpr(p, ctx, Joined(a, b)) == Some(STR) && CondLeaves(Joined(a, b)) == {};
    assert CheckStmt(p, ctx, NUL, st) == Some(Root(map[User(s) := STR]));
    assert ListAfter(st, 1, []) == [s] && GuardedStmt(st, 1, [], {});
    assert GuardedBlock(fn.body, 1, [], {});
  }

  /** Everything about the value `a + b`, evaluated anywhere. */
  lemma {:induction false} JoinedFacts(p: Program, fuel: nat, se: Env<S.Val>, be: Env<bool>, ctx: Ctx, a: string, b: string)
    ensures S.Eval(p, fuel, se, Joined(a, b)) == Done(S.VStr(a + b)) && EvalTally(p, fuel, se, be, Joined(a, b)) == Cost(1, true)
    ensures CheckExpr(p, ctx, Joined(a, b)) == Some(STR) && CondLeaves(Joined(a, b)) == {}
  {
    assert S.Eval(p, fuel, se, StrLit(a)) == Done(S.VStr(a)) && S.Eval(p, fuel, se, StrLit(b)) == Done(S.VStr(b));
    assert EvalTally(p, fuel, se, be, StrLit(a)) == Cost(0, false) && EvalTally(p, fuel, se, be, StrLit(b)) == Cost(0, false);
    assert CheckExpr(p, ctx, StrLit(a)) == Some(STR) && CheckExpr(p, ctx, StrLit(b)) == Some(STR);
  }

  lemma {:induction false} OneStepAccepted(p: Program, f: string, s: string, a: string, b: string, st: Stmt)
    requires p.Keys == {f} && p[f] == Opening(s, a, b, Then(st, End))
    requires CheckStmt(p, Root(map[User(s) := STR]), NUL, st).Some? && GuardedStmt(st, 1, [s], {})
    ensures Checked(p) && GuardedProgram(p)
  {
    var rest := Then(st, End);
    var ctx: Ctx := Root(map[User(s) := STR]);
    assert CheckBlock(p, ctx, NUL, rest) == CheckBlock(p, CheckStmt(p, ctx, NUL, st).value, NUL, End);
    assert GuardedBlock(End, 1, ListAfter(st, 1, [s]), {}) && GuardedBlock(rest, 1, [s], {});
    OpeningAccepted(p, f, s, a, b, rest);
  }

  lemma {:induction false} OneStepRuns(p: Program, fuel: nat, st: Stmt, s: string, se: Env<S.Val>, be: Env<bool>, flow: S.Flow, t: Tally)
    requires S.ExecStmt(p, fuel, se, st) == Done(flow) && flow.Next? && t == StmtTally(p, fuel, se, be, st, 1, [s])
    ensures S.Exec(p, fuel, se, Then(st, End)) == Done(flow) && ExecTally(p, fuel, se, be, Then(st, End), 1, [s]) == Tally(t.bits, t.made, false)
    ensures ListAfterBlock(Then(st, End), 1, [s]) == ListAfter(st, 1, [s])
  {
    var later := ListAfter(st, 1, [s]);
    assert S.Exec(p, fuel, flow.env, End) == Done(flow) && ExecTally(p, fuel, flow.env, t.bits, End, 1, later) == Tally(t.bits, 0, false);
    assert ListAfterBlock(End, 1, later) == later;
  }

  /** One statement after the opening. */
  lemma {:induction false} OneStepLoses(p: Program, fuel: nat, h: C.Heap, f: string, s: string, a: string, b: string, st: Stmt,
                                        se: Env<S.Val>, be: Env<bool>, flow: S.Flow, t: Tally)
    requires p.Keys == {f} && p[f] == Opening(s, a, b, Then(st, End)) && HeapOk(h)
    requires se == Root(map[User(s) := S.VStr(a + b)]) && be == Root(map[User(s) := true])
    requires CheckStmt(p, Root(map[User(s) := STR]), NUL, st).Some? && GuardedStmt(st, 1, [s], {})
    requires S.ExecStmt(p, fuel, se, st) == Done(flow) && flow.Next? && t == StmtTally(p, fuel, se, be, st, 1, [s])
    requires NoDup(ListAfter(st, 1, [s])) && t.made == Held(t.bits, ListAfter(st, 1, [s]))
    ensures Checked(p) && GuardedProgram(p) && LosesOne(p, fuel, h, f)
  {
    var rest := Then(st, End);
    OneStepAccepted(p, f, s, a, b, st);
    OneStepRuns(p, fuel, st, s, se, be, flow, t);
    OpeningLoses(p, fuel, h, f, s, a, b, rest, se, be, flow, Tally(t.bits, t.made, false), ListAfter(st, 1, [s]));
  }

  function Solo(f: string, s: string, a: string, b: string, st: Stmt): Program { map[f := Opening(s, a, b, Then(st, End))] }

  lemma {:induction false} HeldOne(be: Env<bool>, s: string)
    ensures Held(be, [s]) == One(Bit(be, User(s)))
  {
    assert [s][1..] == [];
  }

  /** `s = a + b   s = a + b`: the first block is lost. */
  lemma {:induction false} OverwrittenIsLost(fuel: nat, h: C.Heap, f: string, s: string, a: string, b: string)
    requires HeapOk(h)
    ensures var p := Solo(f, s, a, b, Assign(Plain(s), STR, Joined(a, b))); Checked(p) && GuardedProgram(p) && LosesOne(p, fuel, h, f)
  {
    var st := Assign(Plain(s), STR, Joined(a, b));
    var p := Solo(f, s, a, b, st);
    var se, be := Root(map[User(s) := S.VStr(a + b)]), Root(map[User(s) := true]);
    JoinedFacts(p, fuel, se, be, Root(map[User(s) := STR]), a, b);
    HeldOne(be, s);
    assert StmtTally(p, fuel, se, be, st, 1, [s]) == Tally(be, 1, false);
    assert se.vars[User(s) := S.VStr(a + b)] == se.vars && Store(se, User(s), S.VStr(a + b)) == se;
    assert S.ExecStmt(p, fuel, se, st) == Done(S.Next(se));
    assert s in [s] && ListAfter(st, 1, [s]) == [s];
    OneStepLoses(p, fuel, h, f, s, a, b, st, se, be, S.Next(se), Tally(be, 1, false));
  }

  /** `s = a + b   t = (a + b) + b`: the inner sum is lost. */
  lemma {:induction false} TemporaryIsLost(fuel: nat, h: C.Heap, f: string, s: string, t: string, a: string, b: string)
    requires HeapOk(h) && s != t
    ensures var p := Solo(f, s, a, b, Declare(STR, t, Binary(Join, Joined(a, b), StrLit(b)))); Checked(p) && GuardedProgram(p) && LosesOne(p, fuel, h, f)
  {
    var e := Binary(Join, Joined(a, b), StrLit(b));
    var st := Declare(STR, t, e);
    var p := Solo(f, s, a, b, st);
    var ctx: Ctx := Root(map[User(s) := STR]);
    var se, be := Root(map[User(s) := S.VStr(a + b)]), Root(map[User(s) := true]);
    var se2, be2 := Put(se, User(t), S.VStr(a + b + b)), Put(be, User(t), true);
    JoinedFacts(p, fuel, se, be, ctx, a, b);
    assert S.Eval(p, fuel, se, StrLit(b)) == Done(S.VStr(b)) && EvalTally(p, fuel, se, be, StrLit(b)) == Cost(0, false);
    assert S.Eval(p, fuel, se, e) == Done(S.VStr(a + b + b)) && EvalTally(p, fuel, se, be, e) == Cost(2, true);
    assert CheckExpr(p, ctx, StrLit(b)) == Some(STR) && CheckExpr(p, ctx, e) == Some(STR) && CondLeaves(e) == {};
    assert CheckStmt(p, ctx, NUL, st) == Some(Put(ctx, User(t), STR));
    assert S.ExecStmt(p, fuel, se, st) == Done(S.Next(se2));
    assert StmtTally(p, fuel, se, be, st, 1, [s]) == Tally(be2, 2, false);
    assert ListAfter(st, 1, [s]) == [s, t] && [s, t][1..] == [t];
    HeldOne(be2, t);
    OneStepLoses(p, fuel, h, f, s, a, b, st, se, be, S.Next(se2), Tally(be2, 2, false));
  }


  /** `s = a + b   t = s.[0]`: the character is copied out of the read and the read is lost. */
  lemma {:induction false} IndexedReadIsLost(fuel: nat, h: C.Heap, f: string, s: string, t: string, a: string, b: string)
    requires HeapOk(h) && s != t && a + b != ""
    ensures var p := Solo(f, s, a, b, Declare(STR, t, CharAt(Ref(Plain(s), STR), IntLit(0)))); Checked(p) && GuardedProgram(p) && LosesOne(p, fuel, h, f)
  {
    var e := CharAt(Ref(Plain(s), STR), IntLit(0));
    var st := Declare(STR, t, e);
    var p := Solo(f, s, a, b, st);
    var ctx: Ctx := Root(map[User(s) := STR]);
    var se, be := Root(map[User(s) := S.VStr(a + b)]), Root(map[User(s) := true]);
    var se2, be2 := Put(se, User(t), S.VStr([(a + b)[0]])), Put(be, User(t), true);
    ReadFacts(p, fuel, se, be, ctx, s, a + b);
    assert CheckStmt(p, ctx, NUL, st) == Some(Put(ctx, User(t), STR)) && CondLeaves(e) == {};
    assert S.ExecStmt(p, fuel, se, st) == Done(S.Next(se2));
    assert StmtTally(p, fuel, se, be, st, 1, [s]) == Tally(be2, 2, false);
    assert ListAfter(st, 1, [s]) == [s, t] && [s, t][1..] == [t];
    HeldOne(be2, t);
    OneStepLoses(p, fuel, h, f, s, a, b, st, se, be, S.Next(se2), Tally(be2, 2, false));
  }

  lemma {:induction false} ReadFacts(p: Program, fuel: nat, se: Env<S.Val>, be: Env<bool>, ctx: Ctx, s: string, v: string)
    requires v != "" && Lookup(se, User(s)) == Some(S.VStr(v)) && Lookup(ctx, User(s)) == Some(STR)
    ensures var e := CharAt(Ref(Plain(s), STR), IntLit(0));
      && S.Eval(p, fuel, se, e) == Done(S.VStr([v[0]])) && EvalTally(p, fuel, se, be, e) == Cost(1, true)
      && CheckExpr(p, ctx, e) == Some(STR)
  {
    var x, i := Ref(Plain(s), STR), IntLit(0);
    assert S.Eval(p, fuel, se, x) == Done(S.VStr(v)) && S.Eval(p, fuel, se, i) == Done(S.VInt(0));
    assert EvalTally(p, fuel, se, be, x).made == 0 && EvalTally(p, fuel, se, be, i).made == 0;
    assert CheckExpr(p, ctx, x) == Some(STR) && CheckExpr(p, ctx, i) == Some(INT);
  }

  /** `s = a + b   if(false)(FREE s)`: s leaves the list without being freed. */
  lemma {:induction false} UntakenFreeIsLost(fuel: nat, h: C.Heap, f: string, s: string, a: string, b: string)
    requires HeapOk(h)
    ensures var p := Solo(f, s, a, b, If(Arm(BolLit(false), Then(Free(Plain(s)), End), NoElse)));
            Checked(p) && GuardedProgram(p) && LosesOne(p, fuel, h, f)
  {
    var body := Then(Free(Plain(s)), End);
    var st := If(Arm(BolLit(false), body, NoElse));
    var p := Solo(f, s, a, b, st);
    var ctx: Ctx := Root(map[User(s) := STR]);
    var se, be := Root(map[User(s) := S.VStr(a + b)]), Root(map[User(s) := true]);
    assert OwnedRemove([s], s) == [] by { assert [s][1..] == []; }
    assert ListAfter(body.head, 2, [s]) == [] && ListAfterBlock(End, 2, []) == [];
    assert ListAfterBlock(body, 2, [s]) == [] && ListAfterBranches(NoElse, 1, []) == [];
    assert ListAfter(st, 1, [s]) == [];
    assert Lookup(Inner(map[], ctx), User(s)) == Some(STR);
    assert CheckStmt(p, Inner(map[], ctx), NUL, body.head) == Some(Inner(map[], ctx));
    assert CheckBlock(p, Inner(map[], ctx), NUL, End) == Some(Inner(map[], ctx));
    assert CheckBlock(p, Inner(map[], ctx), NUL, body).Some? && CheckExpr(p, ctx, BolLit(false)) == Some(BOL);
    assert CheckBranches(p, ctx, NUL, NoElse) && CheckBranches(p, ctx, NUL, st.branches);
    assert GuardedBlock(End, 2, [], {}) && GuardedBlock(body, 2, [s], {}) && GuardedBranches(NoElse, 1, [], {});
    assert GuardedBranches(st.branches, 1, [s], {});
    assert S.Eval(p, fuel, se, BolLit(false)) == Done(S.VBol(false)) && EvalTally(p, fuel, se, be, BolLit(false)).made == 0;
    assert S.ExecBranches(p, fuel, se, NoElse) == Done(S.Next(se)) && S.ExecBranches(p, fuel, se, st.branches) == Done(S.Next(se));
    assert BranchTally(p, fuel, se, be, NoElse, 1, []) == Tally(be, 0, false);
    assert BranchTally(p, fuel, se, be, st.branches, 1, [s]) == Tally(be, 0, false);
    OneStepLoses(p, fuel, h, f, s, a, b, st, se, be, S.Next(se), Tally(be, 0, false));
  }

  /** The program of `ReassignedBelowIsLost`: s is freed, then written in a nested block. */
  function Below(s: string, a: string, b: string): Block {
    Then(Free(Plain(s)), Then(If(Arm(BolLit(true), Then(Assign(Plain(s), STR, Joined(a, b)), End), NoElse)), End))
  }

  /** `s = a + b   FREE s   if(true)(s = a + b)`: s is not listed again, so its new block is lost. */
  lemma {:induction false} ReassignedBelowIsLost(fuel: nat, h: C.Heap, f: string, s: string, a: string, b: string)
    requires HeapOk(h)
    ensures var p := map[f := Opening(s, a, b, Below(s, a, b))]; Checked(p) && GuardedProgram(p) && LosesOne(p, fuel, h, f)
  {
    var p, rest := map[f := Opening(s, a, b, Below(s, a, b))], Below(s, a, b);
    var se, be := Root(map[User(s) := S.VStr(a + b)]), Root(map[User(s) := true]);
    BelowAccepted(p, fuel, s, a, b, se, be);
    OpeningAccepted(p, f, s, a, b, rest);
    BelowRuns(p, fuel, s, a, b, se, be);
    assert Held(be, []) == 0;
    OpeningLoses(p, fuel, h, f, s, a, b, rest, se, be, S.Next(se), ExecTally(p, fuel, se, be, rest, 1, [s]), []);
  }

  lemma {:induction false} BelowLists(s: string, a: string, b: string)
    ensures ListAfter(Below(s, a, b).head, 1, [s]) == [] && ListAfter(Below(s, a, b).tail.head, 1, []) == []
    ensures ListAfterBlock(Below(s, a, b), 1, [s]) == []
  {
    var st := Below(s, a, b).tail.head;
    var inner := st.branches.body;
    assert [s][1..] == [];
    assert ListAfter(inner.head, 2, []) == [] && ListAfterBlock(End, 2, []) == [] && ListAfterBlock(inner, 2, []) == [];
    assert ListAfterBranches(NoElse, 1, []) == [] && ListAfter(st, 1, []) == [];
    assert ListAfterBlock(End, 1, []) == [] && ListAfterBlock(Below(s, a, b).tail, 1, []) == [];
  }

  lemma {:induction false} BelowAccepted(p: Program, fuel: nat, s: string, a: string, b: string, se: Env<S.Val>, be: Env<bool>)
    ensures CheckBlock(p, Root(map[User(s) := STR]), NUL, Below(s, a, b)).Some? && GuardedBlock(Below(s, a, b), 1, [s], {})
  {
    var ctx: Ctx := Root(map[User(s) := STR]);
    var rest := Below(s, a, b);
    var inner := rest.tail.head.branches.body;
    JoinedFacts(p, fuel, se, be, Inner(map[], ctx), a, b);
    BelowLists(s, a, b);
    assert Lookup(Inner(map[], ctx), User(s)) == Some(STR);
    assert CheckStmt(p, Inner(map[], ctx), NUL, inner.head) == Some(Inner(map[], ctx));
    assert CheckBlock(p, Inner(map[], ctx), NUL, End) == Some(Inner(map[], ctx));
    assert CheckBlock(p, Inner(map[], ctx), NUL, inner).Some? && CheckExpr(p, ctx, BolLit(true)) == Some(BOL);
    assert CheckBranches(p, ctx, NUL, NoElse) && CheckBranches(p, ctx, NUL, rest.tail.head.branches);
    assert CheckStmt(p, ctx, NUL, rest.tail.head) == Some(ctx) && CheckBlock(p, ctx, NUL, End) == Some(ctx);
    assert CheckBlock(p, ctx, NUL, rest.tail).Some? && CheckStmt(p, ctx, NUL, rest.head) == Some(ctx);
    assert GuardedStmt(inner.head, 2, [], {}) && GuardedBlock(End, 2, ListAfter(inner.head, 2, []), {}) && GuardedBlock(inner, 2, [], {});
    assert ListAfterBlock(inner, 2, []) == ListAfterBlock(End, 2, ListAfter(inner.head, 2, []));
    assert GuardedBranches(NoElse, 1, ListAfterBlock(inner, 2, []), {}) && GuardedBranches(rest.tail.head.branches, 1, [], {});
    assert GuardedBlock(End, 1, [], {}) && GuardedBlock(rest.tail, 1, [], {});
  }

  lemma {:induction false} BelowRuns(p: Program, fuel: nat, s: string, a: string, b: string, se: Env<S.Val>, be: Env<bool>)
    requires se == Root(map[User(s) := S.VStr(a + b)]) && be == Root(map[User(s) := true])
    ensures S.Exec(p, fuel, se, Below(s, a, b)) == Done(S.Next(se)) && ExecTally(p, fuel, se, be, Below(s, a, b), 1, [s]) == Tally(be, 0, false)
    ensures ListAfterBlock(Below(s, a, b), 1, [s]) == []
  {
    var rest, x := Below(s, a, b), User(s);
    var st, inner := rest.tail.head, rest.tail.head.branches.body;
    var e1, b1 := Root(map[x := S.VStr("")]), Root(map[x := false]);
    BelowLists(s, a, b);
    assert se.vars[x := S.VStr("")] == e1.vars && be.vars[x := false] == b1.vars;
    assert e1.vars[x := S.VStr(a + b)] == se.vars && b1.vars[x := true] == be.vars;
    assert S.ExecStmt(p, fuel, se, rest.head) == Done(S.Next(e1)) && StmtTally(p, fuel, se, be, rest.head, 1, [s]) == Tally(b1, -1, false);
    BelowArm(p, fuel, s, a, b, e1, b1, se, be, inner);
    assert S.Eval(p, fuel, e1, BolLit(true)) == Done(S.VBol(true)) && EvalTally(p, fuel, e1, b1, BolLit(true)).made == 0;
    assert S.ExecBranches(p, fuel, e1, st.branches) == Done(S.Next(se)) && BranchTally(p, fuel, e1, b1, st.branches, 1, []) == Tally(be, 1, false);
    assert S.ExecStmt(p, fuel, e1, st) == Done(S.Next(se)) && StmtTally(p, fuel, e1, b1, st, 1, []) == Tally(be, 1, false);
    assert S.Exec(p, fuel, se, End) == Done(S.Next(se)) && ExecTally(p, fuel, se, be, End, 1, []) == Tally(be, 0, false);
    assert S.Exec(p, fuel, e1, rest.tail) == Done(S.Next(se)) && ExecTally(p, fuel, e1, b1, rest.tail, 1, []) == Tally(be, 1, false);
  }

  /** An empty scope is seen through. */
  lemma {:induction false} ThroughScope<V>(env: Env<V>, x: Var, v: V)
    requires x in env.vars
    ensures Lookup(Inner(map[], env), x) == Some(env.vars[x]) && Store(Inner(map[], env), x, v) == Inner(map[], Store(env, x, v))
  {
    assert Lookup(env, x) == Some(env.vars[x]);
  }

  lemma {:induction false} BelowArm(p: Program, fuel: nat, s: string, a: string, b: string, e1: Env<S.Val>, b1: Env<bool>, se: Env<S.Val>,
                                    be: Env<bool>, inner: Block)
    requires inner == Then(Assign(Plain(s), STR, Joined(a, b)), End) && e1.Root? && b1.Root? && User(s) in e1.vars && User(s) in b1.vars
    requires e1.vars[User(s)].VStr? && Store(e1, User(s), S.VStr(a + b)) == se && Store(b1, User(s), true) == be
    ensures S.Exec(p, fuel, Inner(map[], e1), inner) == Done(S.Next(Inner(map[], se)))
    ensures ScopeTally(p, fuel, e1, b1, map[], map[], inner, 1, []) == Tally(be, 1, false)
  {
    var e2, b2 := Inner(map[], e1), Inner(map[], b1);
    JoinedFacts(p, fuel, e2, b2, Root(map[]), a, b);
    ThroughScope(e1, User(s), S.VStr(a + b));
    ThroughScope(b1, User(s), true);
    assert S.ExecStmt(p, fuel, e2, inner.head) == Done(S.Next(Inner(map[], se)));
    assert StmtTally(p, fuel, e2, b2, inner.head, 2, []) == Tally(Inner(map[], be), 1, false);
    assert ExecTally(p, fuel, Inner(map[], se), Inner(map[], be), End, 2, ListAfter(inner.head, 2, [])) == Tally(Inner(map[], be), 0, false);
    assert ExecTally(p, fuel, e2, b2, inner, 2, []) == Tally(Inner(map[], be), 1, false);
  }

  /** `g(x STR) {}` called as `g(s)` by f. */
  function Passing(f: string, g: string, s: string, x: string, a: string, b: string): Program {
    map[g := Fn([Param(x, STR)], NUL, End),
        f := Opening(s, a, b, Then(Discard(Call(g, Arg(Ref(Plain(s), STR), NoArgs))), End))]
  }

  /** `s = a + b   g(s)`: the copy made for g's parameter is lost. */
  lemma {:induction false} ArgumentCopyIsLost(fuel: nat, h: C.Heap, f: string, g: string, s: string, x: string, a: string, b: string)
    requires HeapOk(h) && f != g && fuel > 0
    ensures var p := Passing(f, g, s, x, a, b); Checked(p) && GuardedProgram(p) && LosesOne(p, fuel, h, f)
  {
    var p := Passing(f, g, s, x, a, b);
    var st := p[f].body.tail.head;
    var rest, ctx: Ctx := Then(st, End), Root(map[User(s) := STR]);
    var se, be := Root(map[User(s) := S.VStr(a + b)]), Root(map[User(s) := true]);
    PassingAccepted(p, f, g, s, x, a, b, rest, ctx);
    PassingRuns(p, fuel, f, g, s, x, a, b, se, be, st.e.args);
    HeldOne(be, s);
    assert S.ExecStmt(p, fuel, se, st) == Done(S.Next(se)) && StmtTally(p, fuel, se, be, st, 1, [s]) == Tally(be, 1, false);
    assert ListAfter(st, 1, [s]) == [s] && S.Exec(p, fuel, se, End) == Done(S.Next(se)) && ExecTally(p, fuel, se, be, End, 1, [s]) == Tally(be, 0, false);
    assert S.Exec(p, fuel, se, rest) == Done(S.Next(se)) && ExecTally(p, fuel, se, be, rest, 1, [s]) == Tally(be, 1, false);
    assert ListAfterBlock(rest, 1, [s]) == ListAfterBlock(End, 1, [s]) == [s];
    OpeningLoses(p, fuel, h, f, s, a, b, rest, se, be, S.Next(se), Tally(be, 1, false), [s]);
  }

  lemma {:induction false} PassingAccepted(p: Program, f: string, g: string, s: string, x: string, a: string, b: string, rest: Block, ctx: Ctx)
    requires f != g && p == Passing(f, g, s, x, a, b) && rest == p[f].body.tail && ctx == Root(map[User(s) := STR])
    ensures Checked(p) && GuardedProgram(p)
  {
    var e := rest.head.e;
    assert ParamTypes([Param(x, STR)]) == [STR];
    assert [STR] + [] == [STR];
    assert CheckExpr(p, ctx, e.args.head) == Some(STR) && CheckArgs(p, ctx, NoArgs) == Some([]) && CheckArgs(p, ctx, e.args) == Some([STR]);
    assert p[g] == Fn([Param(x, STR)], NUL, End) && CheckExpr(p, ctx, e) == Some(NUL);
    assert CheckStmt(p, ctx, NUL, rest.head) == Some(ctx) && CheckBlock(p, ctx, NUL, End) == Some(ctx);
    assert GuardedBlock(End, 1, ListAfter(rest.head, 1, [s]), {}) && GuardedBlock(rest, 1, [s], {});
    OpeningAccepted(p, f, s, a, b, rest);
    assert CheckFn(p, p[g]) && GuardedFn(p[g]);
  }

  lemma {:induction false} PassingRuns(p: Program, fuel: nat, f: string, g: string, s: string, x: string, a: string, b: string, se: Env<S.Val>,
                                       be: Env<bool>, args: Args)
    requires f != g && fuel > 0 && p == Passing(f, g, s, x, a, b) && args == Arg(Ref(Plain(s), STR), NoArgs)
    requires se == Root(map[User(s) := S.VStr(a + b)]) && be == Root(map[User(s) := true])
    ensures S.Eval(p, fuel, se, Call(g, args)) == Done(S.VNul) && EvalTally(p, fuel, se, be, Call(g, args)) == Cost(1, false)
  {
    var vs, params := [S.VStr(a + b)], [Param(x, STR)];
    assert S.Eval(p, fuel, se, args.head) == Done(S.VStr(a + b)) && S.EvalArgs(p, fuel, se, NoArgs) == Done([]);
    assert vs == [S.VStr(a + b)] + [] && S.EvalArgs(p, fuel, se, args) == Done(vs);
    ArgsLose(p, fuel, se, be, args);
    assert NamedTexts(NoArgs) == 0 && NamedTexts(args) == 1;
    assert ArgBits(p, fuel, se, be, NoArgs) == [] && |ArgBits(p, fuel, se, be, args)| == 1;
    assert S.ArgsFit(params, vs) && p[g] == Fn(params, NUL, End);
    var bits := ArgBits(p, fuel, se, be, args);
    assert ListAfterBlock(End, 1, []) == [] && Drops([], None) == [];
    var inside, marks := Root(Bind(params, vs)), Root(Bind(params, bits));
    assert S.Exec(p, fuel - 1, inside, End) == Done(S.Next(inside)) && ExecTally(p, fuel - 1, inside, marks, End, 1, []) == Tally(marks, 0, false);
    assert Held(marks, []) == 0;
    assert S.Run(p, fuel - 1, g, vs) == Done(S.VNul) && RunTally(p, fuel - 1, g, vs, bits) == Cost(0, false);
  }
}
