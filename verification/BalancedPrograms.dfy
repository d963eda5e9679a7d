/** A family of programs the balanced class takes in: text made, freed, made again, a loop with
    a call, a branch that returns early. */
module BalancedPrograms {
  import opened Wrappers
  import opened CasterAst
  import opened Emit
  import opened FragmentTypes
  import opened LoweringGuard
  import opened LoweringHeap
  import opened BalancedCalls

  function Number(n: string): Expr { Ref(Plain(n), INT) }

  function Text(s: string): Expr { Ref(Plain(s), STR) }

  function Joined(a: string, b: string): Expr { Binary(Join, StrLit(a), StrLit(b)) }

  /** if (n < 0) ( ret s ); ret s */
  function Ending(n: string, s: string): Block {
    Then(If(Arm(Binary(Less, Number(n), IntLit(0)), Then(Ret(Some(Text(s))), End), NoElse)), Then(Ret(Some(Text(s))), End))
  }

  /** loop(n)( g(n) ); s = b + a; ... */
  function Middle(g: string, n: string, s: string, a: string, b: string): Block {
    Then(Loop(0, Count(Number(n)), Then(Discard(Call(g, Arg(Number(n), NoArgs))), End)),
         Then(Assign(Plain(s), STR, Joined(b, a)), Ending(n, s)))
  }

  /** s = a + b; FREE(s); ... */
  function Body(g: string, n: string, s: string, a: string, b: string): Block {
    Then(Declare(STR, s, Joined(a, b)), Then(Free(Plain(s)), Middle(g, n, s, a, b)))
  }

  function Family(f: string, g: string, n: string, s: string, a: string, b: string): Program {
    map[f := Fn([Param(n, INT)], STR, Body(g, n, s, a, b)), g := Fn([Param(n, INT)], NUL, End)]
  }

  lemma {:induction false} AtEnd(p: Program, depth: nat, owned: seq<string>, clean: set<string>, params: set<string>, ctx: Ctx)
    ensures BalancedBlock(p, End, depth, owned, clean, true) && PlainBlock(End, params)
    ensures CleanAfterBlock(End, depth, clean) == clean && ListAfterBlock(End, depth, owned) == owned
    ensures CheckBlock(p, ctx, STR, End) == Some(ctx) && CheckArgs(p, ctx, NoArgs) == Some([])
    ensures BalancedBranches(p, NoElse, depth, owned, clean, true) && PlainBranches(NoElse, params) && CheckBranches(p, ctx, STR, NoElse)
  {
  }

  /** One statement in front of a block that has the properties. */
  lemma {:induction false} InFront(p: Program, st: Stmt, rest: Block, depth: nat, owned: seq<string>, clean: set<string>, params: set<string>)
    requires BalancedStmt(p, st, depth, owned, clean, true) && PlainStmt(st, params)
    requires BalancedBlock(p, rest, depth, ListAfter(st, depth, owned), CleanAfter(st, depth, clean), true) && PlainBlock(rest, params)
    ensures BalancedBlock(p, Then(st, rest), depth, owned, clean, true) && PlainBlock(Then(st, rest), params)
    ensures CleanAfterBlock(Then(st, rest), depth, clean) == CleanAfterBlock(rest, depth, CleanAfter(st, depth, clean))
    ensures ListAfterBlock(Then(st, rest), depth, owned) == ListAfterBlock(rest, depth, ListAfter(st, depth, owned))
  {
  }

  lemma {:induction false} CheckedInFront(p: Program, ctx: Ctx, st: Stmt, rest: Block)
    requires CheckStmt(p, ctx, STR, st).Some?
    ensures CheckBlock(p, ctx, STR, Then(st, rest)) == CheckBlock(p, CheckStmt(p, ctx, STR, st).value, STR, rest)
  {
  }

  lemma {:induction false} EndingBalanced(p: Program, n: string, s: string, owned: seq<string>)
    ensures BalancedBlock(p, Ending(n, s), 1, owned, {}, true)
    ensures PlainBlock(Ending(n, s), {n})
  {
    var ret := Ret(Some(Text(s)));
    var arm := Then(ret, End);
    AtEnd(p, 2, owned, {}, {n}, Root(map[]));
    AtEnd(p, 1, owned, {}, {n}, Root(map[]));
    InFront(p, ret, End, 2, owned, {}, {n});
    InFront(p, ret, End, 1, owned, {}, {n});
    var test := Binary(Less, Number(n), IntLit(0));
    assert BalancedBranches(p, Arm(test, arm, NoElse), 1, owned, {}, true) && PlainBranches(Arm(test, arm, NoElse), {n});
    assert ListAfterBranches(Arm(test, arm, NoElse), 1, owned) == ListAfterBlock(arm, 2, owned) == owned;
    assert CleanAfterBranches(Arm(test, arm, NoElse), 1, {}) == CleanAfterBlock(arm, 2, {}) == {};
    InFront(p, If(Arm(test, arm, NoElse)), arm, 1, owned, {}, {n});
  }

  lemma {:induction false} MiddleBalanced(p: Program, g: string, n: string, s: string, a: string, b: string)
    requires g in p && p[g].ret == NUL
    ensures BalancedBlock(p, Middle(g, n, s, a, b), 1, [], {s}, true)
    ensures PlainBlock(Middle(g, n, s, a, b), {n})
  {
    var call := Call(g, Arg(Number(n), NoArgs));
    var round := Then(Discard(call), End);
    var rest := Then(Assign(Plain(s), STR, Joined(b, a)), Ending(n, s));
    assert QuietArgs(p, NoArgs) && QuietArgs(p, Arg(Number(n), NoArgs)) && Quiet(p, call);
    AtEnd(p, 2, [], {s}, {n}, Root(map[]));
    InFront(p, Discard(call), End, 2, [], {s}, {n});
    EndingBalanced(p, n, s, [s]);
    assert {s} - {s} == {} && [] + [s] == [s];
    InFront(p, Assign(Plain(s), STR, Joined(b, a)), Ending(n, s), 1, [], {s}, {n});
    InFront(p, Loop(0, Count(Number(n)), round), rest, 1, [], {s}, {n});
  }

  lemma {:induction false} BodyBalanced(p: Program, g: string, n: string, s: string, a: string, b: string)
    requires g in p && p[g].ret == NUL && n != s
    ensures BalancedBlock(p, Body(g, n, s, a, b), 1, [], {}, true)
    ensures PlainBlock(Body(g, n, s, a, b), {n})
  {
    var none: set<string> := {};
    MiddleBalanced(p, g, n, s, a, b);
    assert [] + [s] == [s] && none - {s} == {} && none + {s} == {s} && OwnedRemove([s], s) == [];
    InFront(p, Free(Plain(s)), Middle(g, n, s, a, b), 1, [s], {}, {n});
    InFront(p, Declare(STR, s, Joined(a, b)), Then(Free(Plain(s)), Middle(g, n, s, a, b)), 1, [], {}, {n});
  }

  lemma {:induction false} EndingChecked(p: Program, ctx: Ctx, n: string, s: string)
    requires Lookup(ctx, User(s)) == Some(STR) && Lookup(ctx, User(n)) == Some(INT)
    ensures CheckBlock(p, ctx, STR, Ending(n, s)) == Some(ctx) && SawReturn(Ending(n, s))
  {
    var ret := Ret(Some(Text(s)));
    var inner := Inner(map[], ctx);
    var arms := Arm(Binary(Less, Number(n), IntLit(0)), Then(ret, End), NoElse);
    AtEnd(p, 1, [], {}, {}, ctx);
    AtEnd(p, 1, [], {}, {}, inner);
    CheckedInFront(p, inner, ret, End);
    CheckedInFront(p, ctx, ret, End);
    assert CheckExpr(p, ctx, Binary(Less, Number(n), IntLit(0))) == Some(BOL) && CheckBranches(p, ctx, STR, arms);
    CheckedInFront(p, ctx, If(arms), Then(ret, End));
    assert SawReturn(Then(ret, End));
  }

  lemma {:induction false} RoundChecked(p: Program, ctx: Ctx, g: string, n: string)
    requires g in p && p[g] == Fn([Param(n, INT)], NUL, End) && Lookup(ctx, User(n)) == Some(INT)
    ensures CheckStmt(p, ctx, STR, Loop(0, Count(Number(n)), Then(Discard(Call(g, Arg(Number(n), NoArgs))), End))) == Some(ctx)
  {
    var counted := Inner(map[LoopIndex(0) := INT], ctx);
    var inner := Inner(map[], counted);
    var call := Call(g, Arg(Number(n), NoArgs));
    AtEnd(p, 1, [], {}, {}, inner);
    assert Lookup(counted, User(n)) == Some(INT) && Lookup(inner, User(n)) == Some(INT);
    assert CheckArgs(p, inner, Arg(Number(n), NoArgs)) == Some([INT] + []) && [INT] + [] == [INT];
    assert ParamTypes(p[g].params) == [INT];
    assert CheckExpr(p, inner, call) == Some(NUL);
    CheckedInFront(p, inner, Discard(call), End);
  }

  lemma {:induction false} BodyChecked(p: Program, g: string, n: string, s: string, a: string, b: string)
    requires g in p && p[g] == Fn([Param(n, INT)], NUL, End) && n != s
    ensures CheckBlock(p, Root(map[User(n) := INT]), STR, Body(g, n, s, a, b)).Some? && SawReturn(Body(g, n, s, a, b))
  {
    var c0 := Root(map[User(n) := INT]);
    var c1 := Put(c0, User(s), STR);
    assert Lookup(c1, User(s)) == Some(STR) && Lookup(c1, User(n)) == Some(INT);
    assert CheckExpr(p, c0, Joined(a, b)) == Some(STR) && CheckExpr(p, c1, Joined(b, a)) == Some(STR);
    EndingChecked(p, c1, n, s);
    RoundChecked(p, c1, g, n);
    var again := Assign(Plain(s), STR, Joined(b, a));
    var round := Loop(0, Count(Number(n)), Then(Discard(Call(g, Arg(Number(n), NoArgs))), End));
    CheckedInFront(p, c1, again, Ending(n, s));
    CheckedInFront(p, c1, round, Then(again, Ending(n, s)));
    CheckedInFront(p, c1, Free(Plain(s)), Middle(g, n, s, a, b));
    CheckedInFront(p, c0, Declare(STR, s, Joined(a, b)), Then(Free(Plain(s)), Middle(g, n, s, a, b)));
    assert SawReturn(Ending(n, s)) && SawReturn(Then(again, Ending(n, s))) && SawReturn(Middle(g, n, s, a, b));
  }

  /** For all names and texts: the analyzer accepts the program, the guard lets it through and it
      is balanced. */
  lemma {:induction false} FamilyIsBalanced(f: string, g: string, n: string, s: string, a: string, b: string)
    requires f != g && n != s
    ensures var p := Family(f, g, n, s, a, b); Checked(p) && GuardedProgram(p) && BalancedProgram(p)
  {
    var p := Family(f, g, n, s, a, b);
    BodyBalanced(p, g, n, s, a, b);
    BodyChecked(p, g, n, s, a, b);
    var params := [Param(n, INT)];
    assert params[1..] == [] && ParamTypes(params) == [INT] && [INT][1..] == [];
    assert Bind(params, ParamTypes(params)) == map[User(n) := INT];
    assert ParamNames(params) == {n};
    PlainProgramIsGuarded(p);
  }
}
