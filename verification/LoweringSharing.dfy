/** Where the guard on conditional values stands, position by position: exactly when a stored
    value is a block some variable already holds, and exactly when a returned one is dead or
    still the caller's. */
module LoweringSharing {
  import opened Wrappers
  import opened CasterAst
  import S = ByValue
  import C = Machine
  import opened Emit
  import opened LoweringSource
  import opened LoweringHeap
  import opened LoweringGuard
  import opened LoweringSteps
  import opened Lowering

  /** The leaf that e's tests lead to. */
  ghost function Picked(p: Program, fuel: nat, se: Env<S.Val>, e: Expr): Expr {
    if !e.Cond? then e else
    var c := S.Eval(p, fuel, se, e.test);
    if c.Done? && c.value.VBol? then Picked(p, fuel, se, if c.value.b then e.yes else e.no) else e
  }

  /** A conditional value is the picked name's own block, or else new. */
  lemma {:induction false} PickedValue(p: Program, fuel: nat, se: Env<S.Val>, te: Env<C.CVal>, h: C.Heap, e: Expr)
    requires Match(se, te, h) && HeapOk(h) && GuardedProgram(p) && S.Eval(p, fuel, se, e).Done?
    ensures var t, y := C.Eval(EmitProgram(p), fuel, te, h, EmitExpr(e)), Picked(p, fuel, se, e);
            && EvalOk(S.Eval(p, fuel, se, e), t, h) && !y.Cond?
            && if y.Ref? then Lookup(te, y.name.Target()) == Some(t.value.0) else FreshOut(t, h)
    decreases e
  {
    SimEval(p, fuel, se, te, h, e);
    if e.Cond? {
      StepCondS(p, fuel, se, e);
      SimEval(p, fuel, se, te, h, e.test);
      var a := S.Eval(p, fuel, se, e.test);
      var ca := C.Eval(EmitProgram(p), fuel, te, h, EmitExpr(e.test));
      var pick := if a.value.b then e.yes else e.no;
      MatchGrow(se, te, h, ca.value.1);
      PickedValue(p, fuel, se, te, ca.value.1, pick);
      StepCond(p, fuel, se, te, h, e, pick);
    } else if !e.Ref? {
      assert Leaves(e) == {};
    }
  }

  /** The variable holds a block. */
  predicate HoldsBlock(te: Env<C.CVal>, x: Var) { Lookup(te, x).Some? && Lookup(te, x).value.Owned? }

  /** The variable holds a block of the caller's. */
  predicate HoldsLoan(te: Env<C.CVal>, x: Var, base: nat) { Lookup(te, x).Some? && !Since(Lookup(te, x).value, base) }

  /** c is a block that some variable of te holds. */
  ghost predicate HeldIn(te: Env<C.CVal>, c: C.CVal) { c.Owned? && c.addr in Own(te, 0) }

  lemma {:induction false} NewIsNotHeld(se: Env<S.Val>, te: Env<C.CVal>, h: C.Heap, c: C.CVal)
    requires Match(se, te, h) && HeapOk(h) && Since(c, h.next)
    ensures !HeldIn(te, c)
  {
    OwnLive(se, te, h, 0);
  }

  /** A declared conditional value is shared with a variable exactly when the tests pick a bare
      name that holds a block. */
  lemma {:induction false} DeclareSharesExactly(p: Program, fuel: nat, se: Env<S.Val>, te: Env<C.CVal>, h: C.Heap, base: nat, x: string, e: Expr)
    requires State(se, te, h, base) && GuardedProgram(p) && e.Cond?
    requires S.ExecStmt(p, fuel, se, Declare(STR, x, e)).Done?
    ensures var t := C.ExecStmt(EmitProgram(p), fuel, te, h, EmitStmt(Declare(STR, x, e), 1, []));
            var y := Picked(p, fuel, se, e);
            && t.Done? && t.value.Next? && Lookup(t.value.env, User(x)).Some?
            && (HeldIn(te, Lookup(t.value.env, User(x)).value) <==> y.Ref? && HoldsBlock(te, y.name.Target()))
  {
    PickedValue(p, fuel, se, te, h, e);
    var c := C.Eval(EmitProgram(p), fuel, te, h, EmitExpr(e)).value.0;
    var y := Picked(p, fuel, se, e);
    if y.Ref? { LookupOwn(te, y.name.Target(), 0); } else { NewIsNotHeld(se, te, h, c); }
  }

  lemma {:induction false} StoreOther(te: Env<C.CVal>, x: Var, c: C.CVal, y: Var)
    requires Lookup(te, x).Some? && x != y
    ensures Lookup(Store(te, x, c), y) == Lookup(te, y)
  {
    if x !in te.vars { StoreOther(te.outer, x, c, y); }
  }

  lemma {:induction false} StoreReads(te: Env<C.CVal>, x: Var, c: C.CVal)
    requires Lookup(te, x).Some?
    ensures Lookup(Store(te, x, c), x) == Some(c)
  {
    if x !in te.vars { StoreReads(te.outer, x, c); }
  }

  /** What the other variables hold, with x emptied. */
  ghost function Others(te: Env<C.CVal>, x: Var): Env<C.CVal>
    requires Lookup(te, x).Some?
  {
    Store(te, x, C.Static(""))
  }

  /** A held block from `base` on is one of the call's own. */
  lemma {:induction false} OwnSplits(te: Env<C.CVal>, base: nat, a: nat)
    requires a in Own(te, 0) && a >= base
    ensures a in Own(te, base)
  {
    if a in Addrs(te.vars, 0) {
      var y :| y in te.vars && te.vars[y].Owned? && te.vars[y].addr == a;
      assert te.vars[y].addr in Addrs(te.vars, base);
    } else {
      OwnSplits(te.outer, base, a);
    }
  }

  lemma {:induction false} OthersOwn(te: Env<C.CVal>, x: Var)
    requires Lookup(te, x).Some?
    ensures Own(Others(te, x), 0) <= Own(te, 0)
  {
    if x in te.vars {
      forall a | a in Addrs(te.vars[x := C.Static("")], 0) ensures a in Addrs(te.vars, 0) {
        var y :| y in te.vars && y != x && te.vars[y].Owned? && te.vars[y].addr == a;
      }
    } else {
      OthersOwn(te.outer, x);
    }
  }

  /** An assigned conditional value ends up with two owners exactly when the tests pick another
      variable that holds a block; picking the assigned local itself is harmless. */
  lemma {:induction false} AssignSharesExactly(p: Program, fuel: nat, se: Env<S.Val>, te: Env<C.CVal>, h: C.Heap, base: nat, x: NameRef, e: Expr)
    requires State(se, te, h, base) && GuardedProgram(p) && e.Cond? && x.Target() !in Loans(te, base)
    requires S.ExecStmt(p, fuel, se, Assign(x, STR, e)).Done?
    ensures Lookup(te, x.Target()).Some?
    ensures var t := C.ExecStmt(EmitProgram(p), fuel, te, h, EmitStmt(Assign(x, STR, e), 1, []));
            var y := Picked(p, fuel, se, e);
            && t.Done? && t.value.Next? && Lookup(t.value.env, x.Target()).Some?
            && (HeldIn(Others(te, x.Target()), Lookup(t.value.env, x.Target()).value)
                <==> y.Ref? && y.name.Target() != x.Target() && HoldsBlock(te, y.name.Target()))
  {
    LookupMatch(se, te, h, x.Target());
    PickedValue(p, fuel, se, te, h, e);
    var c := C.Eval(EmitProgram(p), fuel, te, h, EmitExpr(e)).value.0;
    var y := Picked(p, fuel, se, e);
    StoreReads(te, x.Target(), c);
    OthersOwn(te, x.Target());
    if !y.Ref? {
      NewIsNotHeld(se, te, h, c);
    } else if y.name.Target() != x.Target() {
      StoreOther(te, x.Target(), C.Static(""), y.name.Target());
      LookupOwn(Others(te, x.Target()), y.name.Target(), 0);
    } else if c.Owned? {
      LookupSince(te, x.Target(), base);
      StoreForgets(te, x.Target(), C.Static(""), base);
      if c.addr in Own(Others(te, x.Target()), 0) { OwnSplits(Others(te, x.Target()), base, c.addr); }
    }
  }

  /** A parameter given back the caller's block is still on loan, and listed: exactly when the
      tests pick a name on loan. */
  lemma {:induction false} AssignListsLoanExactly(p: Program, fuel: nat, se: Env<S.Val>, te: Env<C.CVal>, h: C.Heap, base: nat, x: string, e: Expr,
                                                  owned: seq<string>)
    requires State(se, te, h, base) && GuardedProgram(p) && e.Cond? && te.Root?
    requires S.ExecStmt(p, fuel, se, Assign(Plain(x), STR, e)).Done?
    ensures var t := C.ExecStmt(EmitProgram(p), fuel, te, h, EmitStmt(Assign(Plain(x), STR, e), 1, owned));
            var y := Picked(p, fuel, se, e);
            && x in ListAfter(Assign(Plain(x), STR, e), 1, owned) && t.Done? && t.value.Next?
            && (User(x) in Loans(t.value.env, base) <==> y.Ref? && HoldsLoan(te, y.name.Target(), base))
  {
    LookupMatch(se, te, h, User(x));
    PickedValue(p, fuel, se, te, h, e);
  }

  lemma {:induction false} DropsAll(se: Env<S.Val>, te: Env<C.CVal>, h: C.Heap, base: nat, k: C.Heap, owned: seq<string>, params: set<string>)
    requires State(se, te, h, base) && Owners(owned, params, se, te, base) && Keep(h, k, {})
    ensures C.DropNames(te, k, Drops(owned, None)) == Done(C.Heap(k.next, k.live - DropAddrs(te, Drops(owned, None))))
    ensures DropAddrs(te, Drops(owned, None)) <= Own(te, base)
  {
    DropsListed(owned, None);
    MatchGrow(se, te, h, k);
    ListedDroppable(se, te, k, Drops(owned, None), base);
    DropNamesExact(te, k, Drops(owned, None));
  }

  /** A returned conditional value is dead exactly when the tests pick a listed local that holds
      a block, and the caller's own block exactly when they pick a name on loan. */
  lemma {:induction false} ReturnFailsExactly(p: Program, fuel: nat, se: Env<S.Val>, te: Env<C.CVal>, h: C.Heap, base: nat, e: Expr,
                                              owned: seq<string>, params: set<string>)
    requires State(se, te, h, base) && GuardedProgram(p) && Owners(owned, params, se, te, base) && e.Cond?
    requires S.Eval(p, fuel, se, e).Done?
    ensures var t := C.ExecStmt(EmitProgram(p), fuel, te, h, EmitStmt(Ret(Some(e)), 1, owned));
            var y := Picked(p, fuel, se, e);
            && t.Done? && t.value.Returned?
            && (t.value.v.Owned? && t.value.v.addr !in t.value.heap.live <==>
                  y.Ref? && y.name.Target().User? && y.name.Target().name in owned && HoldsBlock(te, y.name.Target()))
            && (!Since(t.value.v, base) <==> y.Ref? && HoldsLoan(te, y.name.Target(), base))
  {
    PickedValue(p, fuel, se, te, h, e);
    var r, y := C.Eval(EmitProgram(p), fuel, te, h, EmitExpr(e)).value, Picked(p, fuel, se, e);
    DropsAll(se, te, h, base, r.1, owned, params);
    OwnLive(se, te, h, base);
    if y.Ref? && r.0.Owned? { DroppedExactly(se, te, r.1, base, owned, y.name.Target(), r.0); }
  }

  lemma {:induction false} DroppedExactly(se: Env<S.Val>, te: Env<C.CVal>, k: C.Heap, base: nat, owned: seq<string>, y: Var, c: C.CVal)
    requires Sep(te, base) && Scoped(te, base) && Listed(owned, se) && c.Owned? && Lookup(te, y) == Some(c)
    requires forall n :: n in owned ==> User(n) !in Loans(te, base)
    ensures c.addr in DropAddrs(te, Drops(owned, None)) <==> y.User? && y.name in owned
  {
    var names := Drops(owned, None);
    DropsListed(owned, None);
    if y.User? && y.name in owned {
      var i :| 0 <= i < |names| && names[i] == y.name;
    } else if c.addr in DropAddrs(te, names) {
      var i :| 0 <= i < |names| && Lookup(te, User(names[i])).Some? && Lookup(te, User(names[i])).value.Owned?
        && Lookup(te, User(names[i])).value.addr == c.addr;
      assert names[i] in names;
      LookupSince(te, User(names[i]), base);
      LookupDistinct(te, User(names[i]), y, base);
      assert false;
    }
  }
}
