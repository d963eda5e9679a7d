/** Emitted code against the by-value meaning, over all runs: the same outcome, every block
    freed at most once, no dead block read, no block of the caller's touched, and a returned
    block that is the caller's alone. */
module Lowering {
  import opened Wrappers
  import opened CasterAst
  import S = ByValue
  import C = Machine
  import opened Emit
  import opened LoweringSource
  import opened LoweringHeap
  import opened LoweringGuard
  import opened LoweringSteps

  // ---- expressions ----

  /** Every expression: the emitted one ends the same way with the same value. */
  lemma {:induction false} SimEval(p: Program, fuel: nat, se: Env<S.Val>, te: Env<C.CVal>, h: C.Heap, e: Expr)
    requires Match(se, te, h) && HeapOk(h) && GuardedProgram(p)
    ensures ValueOk(S.Eval(p, fuel, se, e), C.Eval(EmitProgram(p), fuel, te, h, EmitExpr(e)), te, h, e)
    decreases fuel, 0, e, 2
  {
    match e
    case Ref(x, _) => LookupMatch(se, te, h, x.Target());
    case Binary(_, l, r) => SimTwo(p, fuel, se, te, h, l, r, e);
    case CharAt(l, r) => SimTwo(p, fuel, se, te, h, l, r, e);
    case And(l, r) => SimTwo(p, fuel, se, te, h, l, r, e);
    case Or(l, r) => SimTwo(p, fuel, se, te, h, l, r, e);
    case Len(a) => SimOne(p, fuel, se, te, h, a, e);
    case Not(a) => SimOne(p, fuel, se, te, h, a, e);
    case Cond(_, _, _, _) => SimCond(p, fuel, se, te, h, e);
    case Call(_, _) => SimCall(p, fuel, se, te, h, e);
    case _ =>
  }

  lemma {:induction false} SimOne(p: Program, fuel: nat, se: Env<S.Val>, te: Env<C.CVal>, h: C.Heap, a: Expr, e: Expr)
    requires a < e && (e == Len(a) || e == Not(a))
    requires Match(se, te, h) && HeapOk(h) && GuardedProgram(p)
    ensures ValueOk(S.Eval(p, fuel, se, e), C.Eval(EmitProgram(p), fuel, te, h, EmitExpr(e)), te, h, e)
    decreases fuel, 0, e, 1
  {
    SimEval(p, fuel, se, te, h, a);
    FinishOne(p, fuel, se, te, h, a, e, S.Eval(p, fuel, se, a), C.Eval(EmitProgram(p), fuel, te, h, EmitExpr(a)));
  }

  lemma {:induction false} SimTwo(p: Program, fuel: nat, se: Env<S.Val>, te: Env<C.CVal>, h: C.Heap, l: Expr, r: Expr, e: Expr)
    requires l < e && r < e
    requires e == And(l, r) || e == Or(l, r) || e == CharAt(l, r) || (e.Binary? && e == Binary(e.op, l, r))
    requires Match(se, te, h) && HeapOk(h) && GuardedProgram(p)
    ensures ValueOk(S.Eval(p, fuel, se, e), C.Eval(EmitProgram(p), fuel, te, h, EmitExpr(e)), te, h, e)
    decreases fuel, 0, e, 1
  {
    var code := EmitProgram(p);
    var a, b := S.Eval(p, fuel, se, l), S.Eval(p, fuel, se, r);
    var ca := C.Eval(code, fuel, te, h, EmitExpr(l));
    var cb := if ca.Done? then C.Eval(code, fuel, te, ca.value.1, EmitExpr(r)) else ca;
    SimEval(p, fuel, se, te, h, l);
    if a.Done? {
      MatchGrow(se, te, h, ca.value.1);
      SimEval(p, fuel, se, te, ca.value.1, r);
    }
    FinishTwo(p, fuel, se, te, h, l, r, e, a, ca, b, cb);
  }

  lemma {:induction false} SimCond(p: Program, fuel: nat, se: Env<S.Val>, te: Env<C.CVal>, h: C.Heap, e: Expr)
    requires e.Cond? && Match(se, te, h) && HeapOk(h) && GuardedProgram(p)
    ensures ValueOk(S.Eval(p, fuel, se, e), C.Eval(EmitProgram(p), fuel, te, h, EmitExpr(e)), te, h, e)
    decreases fuel, 0, e, 1
  {
    SimEval(p, fuel, se, te, h, e.test);
    var a := S.Eval(p, fuel, se, e.test);
    var ca := C.Eval(EmitProgram(p), fuel, te, h, EmitExpr(e.test));
    if a.Done? && a.value.VBol? {
      MatchGrow(se, te, h, ca.value.1);
      SimEval(p, fuel, se, te, ca.value.1, if a.value.b then e.yes else e.no);
    }
    FinishCond(p, fuel, se, te, h, e, a, ca);
  }

  lemma {:induction false} SimCall(p: Program, fuel: nat, se: Env<S.Val>, te: Env<C.CVal>, h: C.Heap, e: Expr)
    requires e.Call? && Match(se, te, h) && HeapOk(h) && GuardedProgram(p)
    ensures ValueOk(S.Eval(p, fuel, se, e), C.Eval(EmitProgram(p), fuel, te, h, EmitExpr(e)), te, h, e)
    decreases fuel, 0, e, 1
  {
    SimArgs(p, fuel, se, te, h, e.args);
    var vs := S.EvalArgs(p, fuel, se, e.args);
    var cs := C.EvalArgs(EmitProgram(p), fuel, te, h, EmitArgs(e.args));
    if vs.Done? && fuel > 0 { SimRun(p, fuel - 1, cs.value.1, e.fn, vs.value, cs.value.0); }
  }

  lemma {:induction false} SimArgs(p: Program, fuel: nat, se: Env<S.Val>, te: Env<C.CVal>, h: C.Heap, args: Args)
    requires Match(se, te, h) && HeapOk(h) && GuardedProgram(p)
    ensures ArgsOk(S.EvalArgs(p, fuel, se, args), C.EvalArgs(EmitProgram(p), fuel, te, h, EmitArgs(args)), h)
    decreases fuel, 0, args, 0
  {
    if args.Arg? {
      SimEval(p, fuel, se, te, h, args.head);
      ArgOk(p, fuel, se, te, h, args.head);
      var s := S.Eval(p, fuel, se, args.head);
      var t := C.Eval(EmitProgram(p), fuel, te, h, EmitArg(args.head));
      if s.Done? {
        MatchGrow(se, te, h, t.value.1);
        SimArgs(p, fuel, se, te, t.value.1, args.tail);
        var ss := S.EvalArgs(p, fuel, se, args.tail);
        if ss.Done? {
          var tt := C.EvalArgs(EmitProgram(p), fuel, te, t.value.1, EmitArgs(args.tail));
          ConsArgs(s.value, t.value.0, ss.value, tt.value.0, t.value.1, tt.value.1);
        }
      }
    }
  }

  // ---- statements ----

  ghost predicate State(se: Env<S.Val>, te: Env<C.CVal>, h: C.Heap, base: nat) {
    Match(se, te, h) && Sep(te, base) && Scoped(te, base) && HeapOk(h) && base <= h.next
  }

  ghost predicate OwnIn(te': Env<C.CVal>, te: Env<C.CVal>, h: C.Heap, base: nat) {
    forall a :: a in Own(te', base) ==> a in Own(te, base) || a >= h.next
  }

  /** The emitted statements end as the source statements do, leave blocks of other owners
      alone, lend nothing new, and return a live block of the call's own. */
  ghost predicate FlowOk(s: Out<S.Flow>, t: Out<C.CFlow>, te: Env<C.CVal>, h: C.Heap, base: nat) {
    && SameFailure(s, t)
    && (s.Done? ==> t.Done? && Keep(h, t.value.heap, Own(te, base)) && HeapOk(t.value.heap))
    && (s.Done? && s.value.Next? ==>
          t.value.Next? && State(s.value.env, t.value.env, t.value.heap, base) && OwnIn(t.value.env, te, h, base)
          && Loans(t.value.env, base) <= Loans(te, base))
    && (s.Done? && s.value.Returned? ==>
          t.value.Returned? && Rep(s.value.v, t.value.v, t.value.heap) && Since(t.value.v, base))
  }

  /** The cleanup list names text locals of the call's own, and only parameters are on loan. */
  ghost predicate Owners(owned: seq<string>, params: set<string>, se: Env<S.Val>, te: Env<C.CVal>, base: nat) {
    Listed(owned, se) && LentTo(Loans(te, base), params) && forall n :: n in owned ==> User(n) !in Loans(te, base)
  }

  lemma {:induction false} OwnersStay(owned: seq<string>, params: set<string>, se: Env<S.Val>, te: Env<C.CVal>, base: nat,
                                      later: seq<string>, se': Env<S.Val>, te': Env<C.CVal>)
    requires Owners(owned, params, se, te, base) && Within(later, owned) && Grown(se, se')
    requires Loans(te', base) <= Loans(te, base)
    ensures Owners(later, params, se', te', base)
  {
    ListedStays(owned, se, later, se');
  }

  lemma {:induction false} OwnersInner(owned: seq<string>, params: set<string>, se: Env<S.Val>, te: Env<C.CVal>, base: nat,
                                       m: map<Var, S.Val>, n: map<Var, C.CVal>)
    requires Owners(owned, params, se, te, base) && forall x :: x in m ==> !x.User?
    ensures Owners(owned, params, Inner(m, se), Inner(n, te), base)
  {
  }

  lemma {:induction false} FlowTrans(s: Out<S.Flow>, t: Out<C.CFlow>, te: Env<C.CVal>, h: C.Heap, base: nat, te1: Env<C.CVal>, h1: C.Heap)
    requires HeapOk(h) && Keep(h, h1, Own(te, base)) && OwnIn(te1, te, h, base) && Loans(te1, base) <= Loans(te, base)
    requires FlowOk(s, t, te1, h1, base)
    ensures FlowOk(s, t, te, h, base)
  {
  }

  /** Leaving a block that opened with an empty scope. */
  lemma {:induction false} PopOk(s: Out<S.Flow>, t: Out<C.CFlow>, te: Env<C.CVal>, h: C.Heap, base: nat)
    requires FlowOk(s, t, Inner(map[], te), h, base)
    requires s.Done? && s.value.Next? ==> s.value.env.Inner?
    ensures FlowOk(SLeave(s), CLeave(t), te, h, base)
  {
    assert Own(Inner(map[], te), base) == Own(te, base);
  }

  // ---- returns ----

  /** A returned value is new, or moved out of a variable that is neither dropped nor on loan. */
  ghost predicate MovedOut(t: CExprOut, te: Env<C.CVal>, base: nat, names: seq<string>) {
    t.Done? ==> exists y :: Lookup(te, y) == Some(t.value.0) && y !in Loans(te, base) && (y.User? ==> y.name !in names)
  }

  lemma {:induction false} ReturnedValue(p: Program, fuel: nat, s: Out<S.Val>, se: Env<S.Val>, te: Env<C.CVal>, h: C.Heap, base: nat,
                                         e: Expr, owned: seq<string>, params: set<string>)
    requires ValueOk(s, C.Eval(EmitProgram(p), fuel, te, h, EmitExpr(e)), te, h, e)
    requires s.Done? && e.Ref? ==> S.TypeOf(s.value) == e.ty
    requires s.Done? && e.CharAt? ==> s.value.VStr?
    requires Owners(owned, params, se, te, base) && GuardedStmt(Ret(Some(e)), 1, owned, params)
    ensures var t := C.Eval(EmitProgram(p), fuel, te, h, EmitReturned(e, owned));
            EvalOk(s, t, h) && (s.Done? ==> FreshOut(t, h) || MovedOut(t, te, base, ReturnDrops(e, owned)))
  {
    var t := C.Eval(EmitProgram(p), fuel, te, h, EmitExpr(e));
    if !s.Done? {
      CopyFails(p, fuel, s, te, h, e, if ShouldCopy(e) then CheckedType(e) else NUL);
    } else if ReturnIsBorrowed(e, owned) {
      CopyFresh(p, fuel, s, te, h, e, S.TypeOf(s.value));
    } else if !FreshOut(t, h) {
      var y :| y in Leaves(e) && Lookup(te, y) == Some(t.value.0);
      MovedFrom(te, base, e, y, owned, params, se);
    }
  }

  lemma {:induction false} MovedFrom(te: Env<C.CVal>, base: nat, e: Expr, y: Var, owned: seq<string>, params: set<string>, se: Env<S.Val>)
    requires y in Leaves(e) && !ReturnIsBorrowed(e, owned)
    requires Owners(owned, params, se, te, base) && GuardedStmt(Ret(Some(e)), 1, owned, params)
    ensures y !in Loans(te, base) && (y.User? ==> y.name !in ReturnDrops(e, owned))
  {
    DropsListed(owned, if ReturnsOwned(e, owned) then Some(e.name.text) else None);
  }

  /** The drops before a return free only the listed locals, never the returned block. */
  lemma {:induction false} ReturnDropsOk(se: Env<S.Val>, te: Env<C.CVal>, h: C.Heap, base: nat, k: C.Heap, v: S.Val, c: C.CVal, e: Expr,
                                         owned: seq<string>, params: set<string>)
    requires State(se, te, h, base) && HeapOk(k) && Keep(h, k, {}) && Owners(owned, params, se, te, base) && Rep(v, c, k)
    requires Since(c, h.next) || MovedOut(Done((c, k)), te, base, ReturnDrops(e, owned))
    ensures var d := C.DropNames(te, k, ReturnDrops(e, owned));
            && d.Done? && HeapOk(d.value) && Keep(h, d.value, Own(te, base)) && Rep(v, c, d.value) && Since(c, base)
  {
    var names := ReturnDrops(e, owned);
    DropsListed(owned, if ReturnsOwned(e, owned) then Some(e.name.text) else None);
    MatchGrow(se, te, h, k);
    OwnLive(se, te, h, base);
    ListedDroppable(se, te, k, names, base);
    DropNamesExact(te, k, names);
    if c.Owned? && !Since(c, h.next) {
      var y :| Lookup(te, y) == Some(c) && y !in Loans(te, base) && (y.User? ==> y.name !in names);
      LookupSince(te, y, base);
      NotDropped(se, te, k, base, names, y, c);
    }
  }

  lemma {:induction false} NotDropped(se: Env<S.Val>, te: Env<C.CVal>, k: C.Heap, base: nat, names: seq<string>, y: Var, c: C.CVal)
    requires Sep(te, base) && Scoped(te, base) && c.Owned? && Lookup(te, y) == Some(c) && Since(c, base)
    requires (y.User? ==> y.name !in names) && forall n :: n in names ==> User(n) !in Loans(te, base)
    ensures c.addr !in DropAddrs(te, names)
  {
    if c.addr in DropAddrs(te, names) {
      var i :| 0 <= i < |names| && Lookup(te, User(names[i])).Some? && Lookup(te, User(names[i])).value.Owned?
        && Lookup(te, User(names[i])).value.addr == c.addr;
      assert names[i] in names;
      LookupSince(te, User(names[i]), base);
      LookupDistinct(te, User(names[i]), y, base);
      assert false;
    }
  }

  lemma {:induction false} SimReturn(p: Program, fuel: nat, se: Env<S.Val>, te: Env<C.CVal>, h: C.Heap, base: nat, e: Expr,
                                     owned: seq<string>, params: set<string>)
    requires State(se, te, h, base) && Owners(owned, params, se, te, base) && GuardedStmt(Ret(Some(e)), 1, owned, params)
    requires ValueOk(S.Eval(p, fuel, se, e), C.Eval(EmitProgram(p), fuel, te, h, EmitExpr(e)), te, h, e)
    ensures FlowOk(S.ExecStmt(p, fuel, se, Ret(Some(e))),
                   C.ExecStmt(EmitProgram(p), fuel, te, h, CReturn(EmitReturned(e, owned), ReturnDrops(e, owned))), te, h, base)
  {
    var s := S.Eval(p, fuel, se, e);
    var t := C.Eval(EmitProgram(p), fuel, te, h, EmitReturned(e, owned));
    ReadTypes(p, fuel, se, e);
    ReturnedValue(p, fuel, s, se, te, h, base, e, owned, params);
    if s.Done? { ReturnDropsOk(se, te, h, base, t.value.1, s.value, t.value.0, e, owned, params); }
  }

  lemma {:induction false} SimReturnVoid(p: Program, fuel: nat, se: Env<S.Val>, te: Env<C.CVal>, h: C.Heap, base: nat,
                                         owned: seq<string>, params: set<string>)
    requires State(se, te, h, base) && Owners(owned, params, se, te, base)
    ensures FlowOk(S.ExecStmt(p, fuel, se, Ret(None)),
                   C.ExecStmt(EmitProgram(p), fuel, te, h, CReturnVoid(Drops(owned, None))), te, h, base)
  {
    DropsListed(owned, None);
    ListedDroppable(se, te, h, Drops(owned, None), base);
    DropNamesExact(te, h, Drops(owned, None));
  }

  // ---- single statements ----

  /** A new block is nobody's yet. */
  lemma {:induction false} FreshApart(se: Env<S.Val>, te: Env<C.CVal>, h: C.Heap, base: nat, c: C.CVal)
    requires State(se, te, h, base) && Since(c, h.next)
    ensures AddrOf(c) !! Own(te, base) && Since(c, base)
  {
    OwnLive(se, te, h, base);
  }

  lemma {:induction false} DeclareOk(se: Env<S.Val>, te: Env<C.CVal>, h: C.Heap, base: nat, k: C.Heap, x: Var, v: S.Val, c: C.CVal)
    requires State(se, te, h, base) && HeapOk(k) && Keep(h, k, {}) && Rep(v, c, k) && x !in se.vars
    requires Since(c, h.next)
    ensures x !in te.vars
    ensures FlowOk(Done(S.Next(Put(se, x, v))), Done(C.Next(Put(te, x, c), k)), te, h, base)
    ensures te.Root? ==> x !in Loans(Put(te, x, c), base)
  {
    FreshApart(se, te, h, base, c);
    MatchGrow(se, te, h, k);
    DeclareSep(te, x, c, base);
    PutMatch(se, te, k, x, v, c);
    StoredFlow(Put(se, x, v), Put(te, x, c), k, te, h, base, c);
  }

  lemma {:induction false} PutMatch(se: Env<S.Val>, te: Env<C.CVal>, h: C.Heap, x: Var, v: S.Val, c: C.CVal)
    requires Match(se, te, h) && Rep(v, c, h)
    ensures Match(Put(se, x, v), Put(te, x, c), h)
  {
  }

  lemma {:induction false} StoredFlow(se: Env<S.Val>, te': Env<C.CVal>, k: C.Heap, te: Env<C.CVal>, h: C.Heap, base: nat, c: C.CVal)
    requires Match(se, te', k) && Sep(te', base) && Scoped(te', base) && HeapOk(k) && base <= h.next && Keep(h, k, {})
    requires Own(te', base) <= Own(te, base) + AddrOf(c) && Since(c, h.next) && Loans(te', base) <= Loans(te, base)
    ensures FlowOk(Done(S.Next(se)), Done(C.Next(te', k)), te, h, base)
  {
  }

  lemma {:induction false} StoreOk(se: Env<S.Val>, te: Env<C.CVal>, h: C.Heap, base: nat, k: C.Heap, x: Var, v: S.Val, c: C.CVal)
    requires State(se, te, h, base) && HeapOk(k) && Keep(h, k, {}) && Rep(v, c, k) && Lookup(se, x).Some?
    requires Since(c, h.next)
    ensures Lookup(te, x).Some?
    ensures FlowOk(Done(S.Next(Store(se, x, v))), Done(C.Next(Store(te, x, c), k)), te, h, base)
    ensures te.Root? ==> x !in Loans(Store(te, x, c), base)
  {
    FreshApart(se, te, h, base, c);
    LookupMatch(se, te, h, x);
    MatchGrow(se, te, h, k);
    StoreMatch(se, te, k, x, v, c);
    StoreSep(te, x, c, base);
    StoredFlow(Store(se, x, v), Store(te, x, c), k, te, h, base, c);
  }

  /** A local given back its own block. */
  lemma {:induction false} StoreBack(se: Env<S.Val>, te: Env<C.CVal>, h: C.Heap, base: nat, k: C.Heap, x: Var, v: S.Val, c: C.CVal)
    requires State(se, te, h, base) && HeapOk(k) && Keep(h, k, {}) && Rep(v, c, k) && Lookup(se, x).Some?
    requires Lookup(te, x) == Some(c)
    ensures FlowOk(Done(S.Next(Store(se, x, v))), Done(C.Next(Store(te, x, c), k)), te, h, base) && Store(te, x, c) == te
  {
    OwnLive(se, te, h, base);
    MatchGrow(se, te, h, k);
    StoreMatch(se, te, k, x, v, c);
    StoreSelf(te, x);
  }

  lemma {:induction false} SimDeclare(p: Program, fuel: nat, se: Env<S.Val>, te: Env<C.CVal>, h: C.Heap, base: nat, ty: Ty, x: string, e: Expr)
    requires State(se, te, h, base) && (ty == STR ==> CondLeaves(e) == {})
    requires ValueOk(S.Eval(p, fuel, se, e), C.Eval(EmitProgram(p), fuel, te, h, EmitExpr(e)), te, h, e)
    ensures var s := S.ExecStmt(p, fuel, se, Declare(ty, x, e));
            var t := C.ExecStmt(EmitProgram(p), fuel, te, h, CDeclare(User(x), ty, EmitAssigned(ty, e)));
            FlowOk(s, t, te, h, base) && (s.Done? && te.Root? ==> User(x) !in Loans(t.value.env, base))
  {
    var s := S.Eval(p, fuel, se, e);
    var t := C.Eval(EmitProgram(p), fuel, te, h, EmitAssigned(ty, e));
    if !s.Done? {
      CopyFails(p, fuel, s, te, h, e, ty);
    } else if S.TypeOf(s.value) == ty && S.MayDeclare(se, User(x), ty) {
      CopyFresh(p, fuel, s, te, h, e, ty);
      DeclareOk(se, te, h, base, t.value.1, User(x), s.value, t.value.0);
    }
  }

  lemma {:induction false} SimAssign(p: Program, fuel: nat, se: Env<S.Val>, te: Env<C.CVal>, h: C.Heap, base: nat, x: NameRef, ty: Ty, e: Expr,
                                     params: set<string>)
    requires State(se, te, h, base) && LentTo(Loans(te, base), params) && GuardedStmt(Assign(x, ty, e), 1, [], params)
    requires ValueOk(S.Eval(p, fuel, se, e), C.Eval(EmitProgram(p), fuel, te, h, EmitExpr(e)), te, h, e)
    ensures var s := S.ExecStmt(p, fuel, se, Assign(x, ty, e));
            var t := C.ExecStmt(EmitProgram(p), fuel, te, h, CAssign(x.Target(), EmitAssigned(ty, e)));
            FlowOk(s, t, te, h, base) && (s.Done? && te.Root? ==> x.Target() !in Loans(t.value.env, base))
  {
    var s := S.Eval(p, fuel, se, e);
    var t := C.Eval(EmitProgram(p), fuel, te, h, EmitAssigned(ty, e));
    if !s.Done? {
      CopyFails(p, fuel, s, te, h, e, ty);
    } else if S.TypeOf(s.value) == ty && Lookup(se, x.Target()).Some? {
      CopyFresh(p, fuel, s, te, h, e, ty);
      AssignOk(se, te, h, base, t.value.1, x, ty, e, s.value, t.value.0, params);
    }
  }

  lemma {:induction false} AssignOk(se: Env<S.Val>, te: Env<C.CVal>, h: C.Heap, base: nat, k: C.Heap, x: NameRef, ty: Ty, e: Expr,
                                    v: S.Val, c: C.CVal, params: set<string>)
    requires State(se, te, h, base) && LentTo(Loans(te, base), params) && GuardedStmt(Assign(x, ty, e), 1, [], params)
    requires HeapOk(k) && Keep(h, k, {}) && Rep(v, c, k) && Lookup(se, x.Target()).Some?
    requires Since(c, h.next) || (ty == STR && LentOut(Done((c, k)), te, CondLeaves(e)))
    ensures Lookup(te, x.Target()).Some?
    ensures FlowOk(Done(S.Next(Store(se, x.Target(), v))), Done(C.Next(Store(te, x.Target(), c), k)), te, h, base)
    ensures te.Root? ==> x.Target() !in Loans(Store(te, x.Target(), c), base)
  {
    LookupMatch(se, te, h, x.Target());
    if Since(c, h.next) {
      StoreOk(se, te, h, base, k, x.Target(), v, c);
    } else {
      StoreBack(se, te, h, base, k, x.Target(), v, c);
    }
  }

  /** `x += e` reads x before e is evaluated; e cannot change x. */
  lemma {:induction false} SimAddAssign(p: Program, fuel: nat, se: Env<S.Val>, te: Env<C.CVal>, h: C.Heap, base: nat, x: NameRef, ty: Ty, e: Expr)
    requires State(se, te, h, base)
    requires ValueOk(S.Eval(p, fuel, se, e), C.Eval(EmitProgram(p), fuel, te, h, EmitExpr(e)), te, h, e)
    ensures var s := S.ExecStmt(p, fuel, se, AddAssign(x, ty, e));
            var t := C.ExecStmt(EmitProgram(p), fuel, te, h, EmitAddAssign(x, ty, e));
            FlowOk(s, t, te, h, base) && (s.Done? && te.Root? ==> x.Target() !in Loans(t.value.env, base))
  {
    var s, c := S.Eval(p, fuel, se, e), C.Eval(EmitProgram(p), fuel, te, h, EmitExpr(e));
    var v := Lookup(se, x.Target());
    if v.Some? && S.TypeOf(v.value) == ty {
      LookupMatch(se, te, h, x.Target());
      AddFlows(p, fuel, se, te, h, base, x, ty, e, s, c, v.value, Lookup(te, x.Target()).value);
    } else {
      AddStepS(p, fuel, se, x, ty, e, s, if ty == STR then Join else Plus);
    }
  }

  lemma {:induction false} AddStepS(p: Program, fuel: nat, se: Env<S.Val>, x: NameRef, ty: Ty, e: Expr, s: Out<S.Val>, op: BinOp)
    requires s == S.Eval(p, fuel, se, e) && op == if ty == STR then Join else Plus
    ensures var v := Lookup(se, x.Target());
            S.ExecStmt(p, fuel, se, AddAssign(x, ty, e)) ==
              if v.None? || S.TypeOf(v.value) != ty then Wrong
              else if !s.Done? then s.PropagateFailure()
              else
                var sum := S.Apply(op, v.value, s.value);
                if sum.Done? then Done(S.Next(Store(se, x.Target(), sum.value))) else sum.PropagateFailure()
  {
  }

  lemma {:induction false} AddStepC(p: Program, fuel: nat, te: Env<C.CVal>, h: C.Heap, x: NameRef, ty: Ty, e: Expr, op: BinOp,
                                    cv: C.CVal, c: CExprOut)
    requires op == (if ty == STR then Join else Plus) && Lookup(te, x.Target()) == Some(cv)
    requires c == C.Eval(EmitProgram(p), fuel, te, h, EmitExpr(e))
    ensures C.ExecStmt(EmitProgram(p), fuel, te, h, EmitAddAssign(x, ty, e)) ==
              if !c.Done? then c.PropagateFailure() else
              var t := C.Apply(c.value.1, op, cv, c.value.0);
              if t.Done? then Done(C.Next(Store(te, x.Target(), t.value.0), t.value.1)) else t.PropagateFailure()
  {
    StepC(EmitProgram(p), fuel, te, h, CVar(x.Target()), EmitExpr(e), Done((cv, h)), c, op);
  }

  lemma {:induction false} AddOk(se: Env<S.Val>, te: Env<C.CVal>, h: C.Heap, base: nat, op: BinOp, x: Var, w: S.Val, cw: C.CVal, k: C.Heap)
    requires State(se, te, h, base) && Lookup(se, x).Some? && Lookup(te, x).Some?
    requires HeapOk(k) && Keep(h, k, {}) && Rep(w, cw, k)
    ensures var s := S.Apply(op, Lookup(se, x).value, w);
            var t := C.Apply(k, op, Lookup(te, x).value, cw);
            (s.Done? || s.Wrong?) &&
            (s.Done? ==>
              && t.Done?
              && FlowOk(Done(S.Next(Store(se, x, s.value))), Done(C.Next(Store(te, x, t.value.0), t.value.1)), te, h, base)
              && (te.Root? ==> x !in Loans(Store(te, x, t.value.0), base)))
  {
    LookupMatch(se, te, h, x);
    var s := S.Apply(op, Lookup(se, x).value, w);
    if s.Done? {
      ApplyOk(op, Lookup(se, x).value, w, Lookup(te, x).value, cw, h, k);
      var t := C.Apply(k, op, Lookup(te, x).value, cw);
      StoreOk(se, te, h, base, t.value.1, x, s.value, t.value.0);
    }
  }

  lemma {:induction false} AddFlows(p: Program, fuel: nat, se: Env<S.Val>, te: Env<C.CVal>, h: C.Heap, base: nat, x: NameRef, ty: Ty, e: Expr,
                                    s: Out<S.Val>, c: CExprOut, v: S.Val, cv: C.CVal)
    requires State(se, te, h, base) && s == S.Eval(p, fuel, se, e) && c == C.Eval(EmitProgram(p), fuel, te, h, EmitExpr(e)) && EvalOk(s, c, h)
    requires Lookup(se, x.Target()) == Some(v) && Lookup(te, x.Target()) == Some(cv) && S.TypeOf(v) == ty
    ensures var s2 := S.ExecStmt(p, fuel, se, AddAssign(x, ty, e));
            var t2 := C.ExecStmt(EmitProgram(p), fuel, te, h, EmitAddAssign(x, ty, e));
            FlowOk(s2, t2, te, h, base) && (s2.Done? && te.Root? ==> x.Target() !in Loans(t2.value.env, base))
  {
    var op := if ty == STR then Join else Plus;
    AddStepS(p, fuel, se, x, ty, e, s, op);
    AddStepC(p, fuel, te, h, x, ty, e, op, cv, c);
    if s.Done? { AddOk(se, te, h, base, op, x.Target(), s.value, c.value.0, c.value.1); }
  }

  /** FREE frees the variable's block and leaves static empty text behind. */
  lemma {:induction false} SimFree(p: Program, fuel: nat, se: Env<S.Val>, te: Env<C.CVal>, h: C.Heap, base: nat, x: NameRef)
    requires State(se, te, h, base) && x.Target() !in Loans(te, base)
    ensures var t := C.ExecStmt(EmitProgram(p), fuel, te, h, CDrop(x.Target()));
            var s := S.ExecStmt(p, fuel, se, Free(x));
            s.Done? ==>
              && t.Done? && t.value.Next? && t.value.env == te
              && FlowOk(s, C.ExecStmt(EmitProgram(p), fuel, te, t.value.heap, CAssign(x.Target(), CLit(""))), te, h, base)
  {
    var s := S.ExecStmt(p, fuel, se, Free(x));
    LookupMatch(se, te, h, x.Target());
    if s.Done? {
      var c := Lookup(te, x.Target()).value;
      LookupSince(te, x.Target(), base);
      LookupOwn(te, x.Target(), base);
      FreeOk(se, te, h, base, x.Target(), c);
    }
  }

  lemma {:induction false} FreeOk(se: Env<S.Val>, te: Env<C.CVal>, h: C.Heap, base: nat, x: Var, c: C.CVal)
    requires State(se, te, h, base) && Lookup(te, x) == Some(c) && Since(c, base) && C.IsText(c) && Lookup(se, x).Some?
    requires Rep(Lookup(se, x).value, c, h) && (c.Owned? ==> c.addr in Own(te, base))
    ensures C.DropValue(h, c).Done?
    ensures FlowOk(Done(S.Next(Store(se, x, S.VStr("")))), Done(C.Next(Store(te, x, C.Static("")), C.DropValue(h, c).value)), te, h, base)
  {
    var k := C.DropValue(h, c).value;
    var se', te' := Store(se, x, S.VStr("")), Store(te, x, C.Static(""));
    StoreMatch(se, te, h, x, S.VStr(""), C.Static(""));
    StoreSep(te, x, C.Static(""), base);
    if c.Owned? { StoreForgets(te, x, C.Static(""), base); }
    MatchKeep(se', te', h, k, AddrOf(c), base);
  }

  lemma {:induction false} SimDiscard(p: Program, fuel: nat, se: Env<S.Val>, te: Env<C.CVal>, h: C.Heap, base: nat, e: Expr)
    requires State(se, te, h, base)
    requires EvalOk(S.Eval(p, fuel, se, e), C.Eval(EmitProgram(p), fuel, te, h, EmitExpr(e)), h)
    ensures FlowOk(S.ExecStmt(p, fuel, se, Discard(e)),
                   C.ExecStmt(EmitProgram(p), fuel, te, h, CExprStmt(EmitExpr(e))), te, h, base)
  {
    var t := C.Eval(EmitProgram(p), fuel, te, h, EmitExpr(e));
    if S.Eval(p, fuel, se, e).Done? { MatchGrow(se, te, h, t.value.1); }
  }

  // ---- loops ----

  /** The end of a text loop's round: the character is dropped and its scope closes. */
  lemma {:induction false} EndRound(se2: Env<S.Val>, te2: Env<C.CVal>, h2: C.Heap, base: nat, x: Var, te: Env<C.CVal>, h: C.Heap)
    requires State(se2, te2, h2, base) && se2.Inner? && x in se2.vars && se2.vars[x].VStr?
    requires HeapOk(h) && Keep(h, h2, Own(te, base)) && OwnIn(te2, te, h, base) && Loans(te2, base) <= Loans(te, base)
    ensures x in te2.vars && te2.Inner? && C.DropValue(h2, te2.vars[x]).Done?
    ensures FlowOk(Done(S.Next(se2.outer)), Done(C.Next(te2.outer, C.DropValue(h2, te2.vars[x]).value)), te, h, base)
  {
    var c := te2.vars[x];
    if c.Owned? { assert c.addr in Addrs(te2.vars, base); }
    MatchKeep(se2.outer, te2.outer, h2, C.DropValue(h2, c).value, AddrOf(c), base);
  }

  lemma {:induction false} SimRound(p: Program, fuel: nat, se: Env<S.Val>, te: Env<C.CVal>, h: C.Heap, base: nat, id: nat, kind: LoopKind,
                                    m: map<Var, S.Val>, body: Block, depth: nat, owned: seq<string>, params: set<string>)
    requires State(se, te, h, base) && GuardedProgram(p) && GuardedBlock(body, depth + 1, owned, params)
    requires Owners(owned, params, se, te, base) && depth >= 1
    requires !kind.Text? ==> m == map[]
    requires kind.Text? ==> CharOk(p, fuel, se, te, h, id, kind.text, m)
    ensures FlowOk(SLeave(S.Exec(p, fuel, Inner(m, se), body)),
                   CLeave(C.Exec(EmitProgram(p), fuel, Inner(map[], te), h,
                                 LoopBody(id, kind, EmitBlock(body, depth + 1, owned)))), te, h, base)
    decreases fuel, 0, body, 3
  {
    ExecGrows(p, fuel, Inner(m, se), body);
    if kind.Text? {
      SimTextRound(p, fuel, se, te, h, base, id, kind.text, m, body, depth, owned, params);
    } else {
      SimInner(p, fuel, se, te, h, base, body, depth, owned, params);
    }
  }

  /** The character of a text loop's round, in both worlds. */
  ghost predicate CharOk(p: Program, fuel: nat, se: Env<S.Val>, te: Env<C.CVal>, h: C.Heap, id: nat, text: Expr,
                         m: map<Var, S.Val>)
  {
    var ch := CharAt(text, IndexRef(id));
    var s := S.Eval(p, fuel, Inner(map[], se), ch);
    && s.Done? && s.value.VStr? && m == map[LoopChar(id) := s.value]
    && ValueOk(s, C.Eval(EmitProgram(p), fuel, Inner(map[], te), h, EmitExpr(ch)), Inner(map[], te), h, ch)
  }

  lemma {:induction false} SimTextRound(p: Program, fuel: nat, se: Env<S.Val>, te: Env<C.CVal>, h: C.Heap, base: nat, id: nat, text: Expr,
                                        m: map<Var, S.Val>, body: Block, depth: nat, owned: seq<string>, params: set<string>)
    requires State(se, te, h, base) && GuardedProgram(p) && GuardedBlock(body, depth + 1, owned, params)
    requires Owners(owned, params, se, te, base) && depth >= 1
    requires CharOk(p, fuel, se, te, h, id, text, m)
    ensures FlowOk(SLeave(S.Exec(p, fuel, Inner(m, se), body)),
                   CLeave(C.Exec(EmitProgram(p), fuel, Inner(map[], te), h,
                                 LoopBody(id, Text(text), EmitBlock(body, depth + 1, owned)))), te, h, base)
    decreases fuel, 0, body, 2
  {
    CharDeclared(p, fuel, se, te, h, base, id, text, m);
    var t := C.Eval(EmitProgram(p), fuel, Inner(map[], te), h, EmitExpr(CharAt(text, IndexRef(id))));
    var te1, h1 := Inner(map[LoopChar(id) := t.value.0], te), t.value.1;
    OwnersInner(owned, params, se, te, base, m, te1.vars);
    SimBlock(p, fuel, Inner(m, se), te1, h1, base, body, depth + 1, owned, params);
    ExecGrows(p, fuel, Inner(m, se), body);
    FinishText(p, fuel, se, te, h, base, id, text, m, body, EmitBlock(body, depth + 1, owned), t, te1);
  }

  lemma {:induction false} FinishText(p: Program, fuel: nat, se: Env<S.Val>, te: Env<C.CVal>, h: C.Heap, base: nat, id: nat, text: Expr,
                                      m: map<Var, S.Val>, body: Block, tb: CBlock, t: CExprOut, te1: Env<C.CVal>)
    requires HeapOk(h) && t == C.Eval(EmitProgram(p), fuel, Inner(map[], te), h, EmitExpr(CharAt(text, IndexRef(id))))
    requires t.Done? && te1 == Inner(map[LoopChar(id) := t.value.0], te) && Keep(h, t.value.1, Own(te, base)) && OwnIn(te1, te, h, base)
    requires LoopChar(id) in m && m[LoopChar(id)].VStr?
    requires FlowOk(S.Exec(p, fuel, Inner(m, se), body), C.Exec(EmitProgram(p), fuel, te1, t.value.1, tb), te1, t.value.1, base)
    requires var s := S.Exec(p, fuel, Inner(m, se), body);
             s.Done? && s.value.Next? ==> Grown(Inner(m, se), s.value.env)
    ensures FlowOk(SLeave(S.Exec(p, fuel, Inner(m, se), body)),
                   CLeave(C.Exec(EmitProgram(p), fuel, Inner(map[], te), h, LoopBody(id, Text(text), tb))), te, h, base)
  {
    var code := EmitProgram(p);
    var s2, t2 := S.Exec(p, fuel, Inner(m, se), body), C.Exec(code, fuel, te1, t.value.1, tb);
    FlowTrans(s2, t2, te, h, base, te1, t.value.1);
    if s2.Done? && s2.value.Next? {
      EndRound(s2.value.env, t2.value.env, t2.value.heap, base, LoopChar(id), te, h);
    }
    TextBody(code, fuel, te, h, id, text, tb, t, te1, t2);
  }

  lemma {:induction false} CharDeclared(p: Program, fuel: nat, se: Env<S.Val>, te: Env<C.CVal>, h: C.Heap, base: nat, id: nat, text: Expr,
                                        m: map<Var, S.Val>)
    requires State(se, te, h, base) && CharOk(p, fuel, se, te, h, id, text, m)
    ensures var t := C.Eval(EmitProgram(p), fuel, Inner(map[], te), h, EmitExpr(CharAt(text, IndexRef(id))));
            && t.Done?
            && var te1 := Inner(map[LoopChar(id) := t.value.0], te);
            && State(Inner(m, se), te1, t.value.1, base) && Keep(h, t.value.1, Own(te, base)) && OwnIn(te1, te, h, base)
  {
    var x, inner := LoopChar(id), Inner(map[], te);
    var t := C.Eval(EmitProgram(p), fuel, inner, h, EmitExpr(CharAt(text, IndexRef(id))));
    assert Leaves(CharAt(text, IndexRef(id))) == {};
    DeclareOk(Inner(map[], se), inner, h, base, t.value.1, x, m[x], t.value.0);
    assert Put(Inner(map[], se), x, m[x]) == Inner(m, se);
    assert Put(inner, x, t.value.0) == Inner(map[x := t.value.0], te);
    assert Own(inner, base) == Own(te, base);
  }

  lemma {:induction false} SimChar(p: Program, fuel: nat, se: Env<S.Val>, te: Env<C.CVal>, h: C.Heap, id: nat, text: Expr)
    requires Match(se, te, h) && HeapOk(h) && GuardedProgram(p)
    ensures var ch := CharAt(text, IndexRef(id));
            ValueOk(S.Eval(p, fuel, Inner(map[], se), ch),
                    C.Eval(EmitProgram(p), fuel, Inner(map[], te), h, EmitExpr(ch)), Inner(map[], te), h, ch)
    decreases fuel, 0, CharAt(text, IndexRef(id)), 3
  {
    SimEval(p, fuel, Inner(map[], se), Inner(map[], te), h, CharAt(text, IndexRef(id)));
  }

  lemma {:induction false} SimIterate(p: Program, fuel: nat, se: Env<S.Val>, te: Env<C.CVal>, h: C.Heap, base: nat, id: nat,
                                      kind: LoopKind, body: Block, depth: nat, owned: seq<string>, params: set<string>)
    requires State(se, te, h, base) && se.Inner? && GuardedProgram(p) && GuardedBlock(body, depth + 1, owned, params)
    requires Owners(owned, params, se, te, base) && depth >= 1
    ensures FlowOk(S.Iterate(p, fuel, se, id, kind, body),
                   C.Iterate(EmitProgram(p), fuel, te, h, LoopIndex(id), LoopTest(id, kind), LoopStep(kind),
                             LoopBody(id, kind, EmitBlock(body, depth + 1, owned))), te, h, base)
    decreases fuel, 0, Loop(id, kind, body), 0
  {
    if fuel > 0 {
      var k, code := fuel - 1, EmitProgram(p);
      var test, tb := LoopTest(id, kind), LoopBody(id, kind, EmitBlock(body, depth + 1, owned));
      var round := S.Enter(p, k, se, id, kind);
      var t := C.Eval(code, k, te, h, test);
      EnterTest(p, k, se, id, kind);
      LoopExprs(p, k, se, id, kind);
      SimEval(p, k, se, te, h, TestExpr(id, kind));
      if S.Eval(p, k, se, TestExpr(id, kind)) == Done(S.VBol(true)) {
        MatchGrow(se, te, h, t.value.1);
        if kind.Text? {
          EnterText(p, k, se, id, kind.text);
          SimChar(p, k, se, te, t.value.1, id, kind.text);
        }
      }
      if round.Done? && round.value.Some? {
        SimRound(p, k, se, te, t.value.1, base, id, kind, round.value.value, body, depth, owned, params);
        RoundSame(p, k, se, round.value.value, body);
        SimNext(p, k, se, te, t.value.1, base, SLeave(S.Exec(p, k, Inner(round.value.value, se), body)),
                CLeave(C.Exec(code, k, Inner(map[], te), t.value.1, tb)), id, kind, body, depth, owned, params);
      }
      IterateGlue(p, k, se, te, h, base, id, kind, body, EmitBlock(body, depth + 1, owned));
    }
  }

  /** Both loops in terms of their first round. */
  lemma {:induction false} IterateGlue(p: Program, k: nat, se: Env<S.Val>, te: Env<C.CVal>, h: C.Heap, base: nat, id: nat, kind: LoopKind,
                                       body: Block, tb: CBlock)
    requires State(se, te, h, base)
    requires var s := S.Eval(p, k, se, TestExpr(id, kind));
             var t := C.Eval(EmitProgram(p), k, te, h, LoopTest(id, kind));
             EvalOk(s, t, h)
    requires var t := C.Eval(EmitProgram(p), k, te, h, LoopTest(id, kind));
             kind.Text? && S.Eval(p, k, se, TestExpr(id, kind)) == Done(S.VBol(true)) ==>
               var ch := CharAt(kind.text, IndexRef(id));
               EvalOk(S.Eval(p, k, Inner(map[], se), ch),
                      C.Eval(EmitProgram(p), k, Inner(map[], te), t.value.1, EmitExpr(ch)), t.value.1)
    requires var t := C.Eval(EmitProgram(p), k, te, h, LoopTest(id, kind));
             var round := S.Enter(p, k, se, id, kind);
             t.Done? && round.Done? && round.value.Some? ==>
               FlowOk(SNext(p, k, SLeave(S.Exec(p, k, Inner(round.value.value, se), body)), id, kind, body),
                      CNext(EmitProgram(p), k, CLeave(C.Exec(EmitProgram(p), k, Inner(map[], te), t.value.1, LoopBody(id, kind, tb))),
                            LoopIndex(id), LoopTest(id, kind), LoopStep(kind), LoopBody(id, kind, tb)), te, t.value.1, base)
    ensures FlowOk(S.Iterate(p, k + 1, se, id, kind, body),
                   C.Iterate(EmitProgram(p), k + 1, te, h, LoopIndex(id), LoopTest(id, kind), LoopStep(kind), LoopBody(id, kind, tb)),
                   te, h, base)
  {
    var code := EmitProgram(p);
    var round := S.Enter(p, k, se, id, kind);
    var t := C.Eval(code, k, te, h, LoopTest(id, kind));
    IterateS(p, k, se, id, kind, body);
    IterateC(code, k, te, h, LoopIndex(id), LoopTest(id, kind), LoopStep(kind), LoopBody(id, kind, tb));
    EnterTest(p, k, se, id, kind);
    if kind.Text? { EnterText(p, k, se, id, kind.text); }
    if t.Done? && round.Done? {
      MatchGrow(se, te, h, t.value.1);
      if round.value.Some? {
        var sf := SNext(p, k, SLeave(S.Exec(p, k, Inner(round.value.value, se), body)), id, kind, body);
        var tf := CNext(code, k, CLeave(C.Exec(code, k, Inner(map[], te), t.value.1, LoopBody(id, kind, tb))),
                        LoopIndex(id), LoopTest(id, kind), LoopStep(kind), LoopBody(id, kind, tb));
        FlowTrans(sf, tf, te, h, base, te, t.value.1);
      }
    } else if round.Abort? && !t.Abort? {
      CharStops(code, k, te, t.value.1, id, kind.text, tb);
    }
  }

  lemma {:induction false} RoundSame(p: Program, k: nat, se: Env<S.Val>, m: map<Var, S.Val>, body: Block)
    ensures var s := SLeave(S.Exec(p, k, Inner(m, se), body));
            s.Done? && s.value.Next? ==> Same(se, s.value.env)
  {
    ExecGrows(p, k, Inner(m, se), body);
  }

  lemma {:induction false} SimNext(p: Program, k: nat, se: Env<S.Val>, te: Env<C.CVal>, h: C.Heap, base: nat, sf: Out<S.Flow>, tf: Out<C.CFlow>,
                                   id: nat, kind: LoopKind, body: Block, depth: nat, owned: seq<string>, params: set<string>)
    requires HeapOk(h) && GuardedProgram(p) && GuardedBlock(body, depth + 1, owned, params)
    requires se.Inner? && Owners(owned, params, se, te, base) && depth >= 1 && FlowOk(sf, tf, te, h, base)
    requires sf.Done? && sf.value.Next? ==> Same(se, sf.value.env)
    ensures FlowOk(SNext(p, k, sf, id, kind, body),
                   CNext(EmitProgram(p), k, tf, LoopIndex(id), LoopTest(id, kind), LoopStep(kind),
                         LoopBody(id, kind, EmitBlock(body, depth + 1, owned))), te, h, base)
    decreases k, 0, Loop(id, kind, body), 3
  {
    if sf.Done? && sf.value.Next? {
      var tb := LoopBody(id, kind, EmitBlock(body, depth + 1, owned));
      SimAgain(p, k, se, te, base, sf.value.env, tf.value.env, tf.value.heap, id, kind, body, depth, owned, params);
      FlowTrans(SNext(p, k, sf, id, kind, body), CNext(EmitProgram(p), k, tf, LoopIndex(id), LoopTest(id, kind), LoopStep(kind), tb), te, h, base,
                tf.value.env, tf.value.heap);
    }
  }

  /** After a round: the counter's step, and the rounds that follow. */
  lemma {:induction false} SimAgain(p: Program, k: nat, se: Env<S.Val>, te: Env<C.CVal>, base: nat, se2: Env<S.Val>, te2: Env<C.CVal>,
                                    h2: C.Heap, id: nat, kind: LoopKind, body: Block, depth: nat, owned: seq<string>, params: set<string>)
    requires GuardedProgram(p) && GuardedBlock(body, depth + 1, owned, params) && se.Inner? && depth >= 1 && Same(se, se2)
    requires Owners(owned, params, se, te, base) && State(se2, te2, h2, base) && Loans(te2, base) <= Loans(te, base)
    ensures FlowOk(SNext(p, k, Done(S.Next(se2)), id, kind, body),
                   CNext(EmitProgram(p), k, Done(C.Next(te2, h2)), LoopIndex(id), LoopTest(id, kind), LoopStep(kind),
                         LoopBody(id, kind, EmitBlock(body, depth + 1, owned))), te2, h2, base)
    decreases k, 0, Loop(id, kind, body), 2
  {
    var x, tb := LoopIndex(id), LoopBody(id, kind, EmitBlock(body, depth + 1, owned));
    var i, d := Lookup(se2, x), S.Stride(p, k, se2, kind);
    var cd := C.Eval(EmitProgram(p), k, te2, h2, LoopStep(kind));
    SimStep(p, k, se2, te2, h2, id, kind, body);
    LookupMatch(se2, te2, h2, x);
    if i.Some? && i.value.VInt? && d.Done? && d.value.VInt? {
      NextEquals(p, k, se2, te2, h2, id, kind, body, tb, d, cd, i.value.n, i.value.n + d.value.n);
      SimOnward(p, k, se, te, base, se2, te2, h2, cd.value.1, i.value.n + d.value.n, id, kind, body, depth, owned, params);
    } else {
      NextS(p, k, Done(S.Next(se2)), id, kind, body, i, d);
      NextC(EmitProgram(p), k, Done(C.Next(te2, h2)), x, LoopTest(id, kind), LoopStep(kind), tb, Lookup(te2, x), cd);
      NextFails(i, d, Lookup(te2, x), cd, h2, te2, h2, base);
    }
  }

  /** The rounds after the counter moved to n. */
  lemma {:induction false} SimOnward(p: Program, k: nat, se: Env<S.Val>, te: Env<C.CVal>, base: nat, se2: Env<S.Val>,
                                     te2: Env<C.CVal>, h2: C.Heap, l: C.Heap, n: int, id: nat, kind: LoopKind, body: Block, depth: nat,
                                     owned: seq<string>, params: set<string>)
    requires GuardedProgram(p) && GuardedBlock(body, depth + 1, owned, params)
    requires se.Inner? && Owners(owned, params, se, te, base) && depth >= 1 && Same(se, se2)
    requires State(se2, te2, h2, base) && Loans(te2, base) <= Loans(te, base) && HeapOk(l) && Keep(h2, l, {})
    requires Lookup(se2, LoopIndex(id)).Some? && Lookup(se2, LoopIndex(id)).value.VInt? && Lookup(te2, LoopIndex(id)).Some?
    ensures var se3, te3 := Store(se2, LoopIndex(id), S.VInt(n)), Store(te2, LoopIndex(id), C.IntVal(n));
            FlowOk(S.Iterate(p, k, se3, id, kind, body),
                   C.Iterate(EmitProgram(p), k, te3, l, LoopIndex(id), LoopTest(id, kind), LoopStep(kind),
                             LoopBody(id, kind, EmitBlock(body, depth + 1, owned))), te2, h2, base)
    decreases k, 0, Loop(id, kind, body), 1
  {
    var x := LoopIndex(id);
    CounterMoves(se, te, se2, te2, h2, base, l, x, n, owned, params);
    var se3, te3 := Store(se2, x, S.VInt(n)), Store(te2, x, C.IntVal(n));
    SimIterate(p, k, se3, te3, l, base, id, kind, body, depth, owned, params);
    FlowTrans(S.Iterate(p, k, se3, id, kind, body),
              C.Iterate(EmitProgram(p), k, te3, l, x, LoopTest(id, kind), LoopStep(kind), LoopBody(id, kind, EmitBlock(body, depth + 1, owned))), te2, h2,
              base, te3, l);
  }

  ghost function FailedC(d: CExprOut): Out<C.CFlow> { if d.Done? then Wrong else d.PropagateFailure() }

  lemma {:induction false} NextFails(i: Option<S.Val>, d: Out<S.Val>, ci: Option<C.CVal>, cd: CExprOut, h2: C.Heap, te: Env<C.CVal>, h: C.Heap, base: nat)
    requires EvalOk(d, cd, h2) && !(i.Some? && i.value.VInt? && d.Done? && d.value.VInt?)
    ensures FlowOk(Failed(d), FailedC(cd), te, h, base)
    ensures d.Done? ==> forall t :: FlowOk(Failed(d), t, te, h, base)
  {
  }

  lemma {:induction false} NextC(code: C.Code, k: nat, tf: Out<C.CFlow>, x: Var, test: CExpr, step: CExpr, tb: CBlock, i: Option<C.CVal>, d: CExprOut)
    requires tf.Done? && tf.value.Next?
    requires i == Lookup(tf.value.env, x) && d == C.Eval(code, k, tf.value.env, tf.value.heap, step)
    ensures CNext(code, k, tf, x, test, step, tb) ==
              if i.Some? && i.value.IntVal? && d.Done? && d.value.0.IntVal?
              then C.Iterate(code, k, Store(tf.value.env, x, C.IntVal(i.value.n + d.value.0.n)), d.value.1, x, test, step, tb)
              else FailedC(d)
  {
  }

  /** What follows a round, when the counter can step. */
  lemma {:induction false} NextEquals(p: Program, k: nat, se2: Env<S.Val>, te2: Env<C.CVal>, h2: C.Heap, id: nat, kind: LoopKind,
                                      body: Block, tb: CBlock, d: Out<S.Val>, cd: CExprOut, i: int, n: int)
    requires Lookup(se2, LoopIndex(id)) == Some(S.VInt(i)) && Lookup(te2, LoopIndex(id)) == Some(C.IntVal(i))
    requires d == S.Stride(p, k, se2, kind) && cd == C.Eval(EmitProgram(p), k, te2, h2, LoopStep(kind))
    requires d.Done? && d.value.VInt? && cd.Done? && cd.value.0 == C.IntVal(d.value.n) && n == i + d.value.n
    ensures SNext(p, k, Done(S.Next(se2)), id, kind, body) == S.Iterate(p, k, Store(se2, LoopIndex(id), S.VInt(n)), id, kind, body)
    ensures CNext(EmitProgram(p), k, Done(C.Next(te2, h2)), LoopIndex(id), LoopTest(id, kind), LoopStep(kind), tb)
              == C.Iterate(EmitProgram(p), k, Store(te2, LoopIndex(id), C.IntVal(n)), cd.value.1, LoopIndex(id), LoopTest(id, kind), LoopStep(kind), tb)
  {
    NextS(p, k, Done(S.Next(se2)), id, kind, body, Some(S.VInt(i)), d);
    NextC(EmitProgram(p), k, Done(C.Next(te2, h2)), LoopIndex(id), LoopTest(id, kind), LoopStep(kind), tb, Some(C.IntVal(i)), cd);
  }

  /** The counter's new value keeps everything else in place. */
  lemma {:induction false} CounterMoves(se: Env<S.Val>, te: Env<C.CVal>, se2: Env<S.Val>, te2: Env<C.CVal>, h2: C.Heap, base: nat,
                                        k: C.Heap, x: Var, n: int, owned: seq<string>, params: set<string>)
    requires State(se2, te2, h2, base) && HeapOk(k) && Keep(h2, k, {}) && Same(se, se2) && Owners(owned, params, se, te, base)
    requires Loans(te2, base) <= Loans(te, base) && Lookup(se2, x).Some? && Lookup(se2, x).value.VInt?
    ensures Lookup(te2, x).Some?
    ensures var se3, te3 := Store(se2, x, S.VInt(n)), Store(te2, x, C.IntVal(n));
            && FlowOk(Done(S.Next(se3)), Done(C.Next(te3, k)), te2, h2, base)
            && Same(se, se3) && Owners(owned, params, se3, te3, base)
  {
    LookupMatch(se2, te2, h2, x);
    var se3, te3 := Store(se2, x, S.VInt(n)), Store(te2, x, C.IntVal(n));
    StoreOk(se2, te2, h2, base, k, x, S.VInt(n), C.IntVal(n));
    StoreSame(se2, x, S.VInt(n));
    SameTrans(se, se2, se3);
    SameIsGrown(se, se3);
    OwnersStay(owned, params, se, te, base, owned, se3, te3);
  }

  lemma {:induction false} SimStep(p: Program, k: nat, se: Env<S.Val>, te: Env<C.CVal>, h: C.Heap, id: nat, kind: LoopKind, body: Block)
    requires Match(se, te, h) && HeapOk(h) && GuardedProgram(p)
    ensures EvalOk(S.Stride(p, k, se, kind), C.Eval(EmitProgram(p), k, te, h, LoopStep(kind)), h)
    decreases k, 0, Loop(id, kind, body), 0
  {
    if kind.Range? { SimEval(p, k, se, te, h, kind.step); }
  }

  lemma {:induction false} SimLoop(p: Program, fuel: nat, se: Env<S.Val>, te: Env<C.CVal>, h: C.Heap, base: nat, id: nat, kind: LoopKind,
                                   body: Block, depth: nat, owned: seq<string>, params: set<string>)
    requires State(se, te, h, base) && GuardedProgram(p) && GuardedBlock(body, depth + 1, owned, params)
    requires Owners(owned, params, se, te, base) && depth >= 1
    ensures FlowOk(S.ExecStmt(p, fuel, se, Loop(id, kind, body)),
                   C.ExecStmt(EmitProgram(p), fuel, te, h, EmitStmt(Loop(id, kind, body), depth, owned)), te, h, base)
    decreases fuel, 0, Loop(id, kind, body), 1
  {
    if kind.Range? { SimEval(p, fuel, se, te, h, kind.from); }
    var i, first := LoopIndex(id), S.Start(p, fuel, se, kind);
    var c := C.Eval(EmitProgram(p), fuel, te, h, LoopStart(kind));
    if first.Done? && first.value.VInt? {
      var se1, te1 := Inner(map[i := first.value], se), Inner(map[i := c.value.0], te);
      CounterOpens(se, te, h, base, c.value.1, i, first.value, c.value.0, owned, params);
      SimIterate(p, fuel, se1, te1, c.value.1, base, id, kind, body, depth, owned, params);
      IterateSame(p, fuel, se1, id, kind, body);
    }
    LoopGlue(p, fuel, se, te, h, base, id, kind, body, EmitBlock(body, depth + 1, owned), first, c);
  }

  /** Both loop statements, from the counter's start and what the rounds do. */
  lemma {:induction false} LoopGlue(p: Program, fuel: nat, se: Env<S.Val>, te: Env<C.CVal>, h: C.Heap, base: nat, id: nat, kind: LoopKind,
                                    body: Block, tb: CBlock, first: Out<S.Val>, c: CExprOut)
    requires HeapOk(h) && first == S.Start(p, fuel, se, kind) && c == C.Eval(EmitProgram(p), fuel, te, h, LoopStart(kind))
    requires EvalOk(first, c, h)
    requires first.Done? && first.value.VInt? ==>
               var i := LoopIndex(id);
               var se1, te1 := Inner(map[i := first.value], se), Inner(map[i := c.value.0], te);
               var s2 := S.Iterate(p, fuel, se1, id, kind, body);
               && Own(te1, base) == Own(te, base) && OwnIn(te, te, h, base) && (s2.Done? && s2.value.Next? ==> s2.value.env.Inner?)
               && FlowOk(s2, C.Iterate(EmitProgram(p), fuel, te1, c.value.1, i, LoopTest(id, kind), LoopStep(kind), LoopBody(id, kind, tb)),
                         te1, c.value.1, base)
    ensures FlowOk(S.ExecStmt(p, fuel, se, Loop(id, kind, body)),
                   C.ExecStmt(EmitProgram(p), fuel, te, h, CFor(LoopIndex(id), LoopStart(kind), LoopTest(id, kind), LoopStep(kind),
                                                                LoopBody(id, kind, tb))), te, h, base)
  {
    var i := LoopIndex(id);
    LoopS(p, fuel, se, id, kind, body, first);
    LoopC(EmitProgram(p), fuel, te, h, i, LoopStart(kind), LoopTest(id, kind), LoopStep(kind), LoopBody(id, kind, tb), c);
    if first.Done? && first.value.VInt? {
      var se1, te1 := Inner(map[i := first.value], se), Inner(map[i := c.value.0], te);
      LeaveLoop(S.Iterate(p, fuel, se1, id, kind, body),
                C.Iterate(EmitProgram(p), fuel, te1, c.value.1, i, LoopTest(id, kind), LoopStep(kind), LoopBody(id, kind, tb)),
                te, te1, h, c.value.1, base);
    } else {
      NextFails(None, first, None, c, h, te, h, base);
    }
  }

  lemma {:induction false} LoopC(code: C.Code, fuel: nat, te: Env<C.CVal>, h: C.Heap, i: Var, start: CExpr, test: CExpr, step: CExpr,
                                 tb: CBlock, c: CExprOut)
    requires c == C.Eval(code, fuel, te, h, start)
    ensures C.ExecStmt(code, fuel, te, h, CFor(i, start, test, step, tb)) ==
              if c.Done? && c.value.0.IntVal?
              then CLeave(C.Iterate(code, fuel, Inner(map[i := c.value.0], te), c.value.1, i, test, step, tb))
              else FailedC(c)
  {
  }

  lemma {:induction false} CounterOpens(se: Env<S.Val>, te: Env<C.CVal>, h: C.Heap, base: nat, k: C.Heap, x: Var, v: S.Val, c: C.CVal,
                                        owned: seq<string>, params: set<string>)
    requires State(se, te, h, base) && HeapOk(k) && Keep(h, k, {}) && Owners(owned, params, se, te, base)
    requires v.VInt? && Rep(v, c, k) && !x.User?
    ensures var se1, te1 := Inner(map[x := v], se), Inner(map[x := c], te);
            && State(se1, te1, k, base) && Owners(owned, params, se1, te1, base)
            && Own(te1, base) == Own(te, base) && OwnIn(te, te, h, base)
  {
    var te1 := Inner(map[x := c], te);
    assert Addrs(te1.vars, base) == {};
    assert Own(te1, base) == Own(te, base);
    OwnLive(se, te, h, base);
    MatchGrow(se, te, h, k);
    OwnersInner(owned, params, se, te, base, map[x := v], te1.vars);
  }

  /** The scope of a loop's counter closes. */
  lemma {:induction false} LeaveLoop(s: Out<S.Flow>, t: Out<C.CFlow>, te: Env<C.CVal>, te1: Env<C.CVal>, h: C.Heap, k: C.Heap, base: nat)
    requires te1.Inner? && te1.outer == te && Own(te1, base) == Own(te, base) && FlowOk(s, t, te1, k, base)
    requires s.Done? && s.value.Next? ==> s.value.env.Inner?
    requires HeapOk(h) && Keep(h, k, {}) && OwnIn(te, te, h, base)
    ensures FlowOk(SLeave(s), CLeave(t), te, h, base)
  {
    LeaveScope(s, t, te, te1, k, base);
    FlowTrans(SLeave(s), CLeave(t), te, h, base, te, k);
  }

  lemma {:induction false} LeaveScope(s: Out<S.Flow>, t: Out<C.CFlow>, te: Env<C.CVal>, te1: Env<C.CVal>, h: C.Heap, base: nat)
    requires te1.Inner? && te1.outer == te && Own(te1, base) == Own(te, base) && FlowOk(s, t, te1, h, base)
    requires s.Done? && s.value.Next? ==> s.value.env.Inner?
    ensures FlowOk(SLeave(s), CLeave(t), te, h, base)
  {
  }

  // ---- blocks ----

  lemma {:induction false} SimStmt(p: Program, fuel: nat, se: Env<S.Val>, te: Env<C.CVal>, h: C.Heap, base: nat, s: Stmt, depth: nat,
                                   owned: seq<string>, params: set<string>)
    requires !s.Free? && State(se, te, h, base) && GuardedProgram(p) && GuardedStmt(s, depth, owned, params)
    requires Owners(owned, params, se, te, base) && depth >= 1
    ensures var t := C.ExecStmt(EmitProgram(p), fuel, te, h, EmitStmt(s, depth, owned));
            FlowOk(S.ExecStmt(p, fuel, se, s), t, te, h, base) && Settled(S.ExecStmt(p, fuel, se, s), t, te, s, base)
    decreases fuel, 0, s, 2
  {
    match s
    case Declare(_, _, _) => SimStore(p, fuel, se, te, h, base, s, depth, owned, params);
    case Assign(_, _, _) => SimStore(p, fuel, se, te, h, base, s, depth, owned, params);
    case AddAssign(_, _, _) => SimStore(p, fuel, se, te, h, base, s, depth, owned, params);
    case Ret(Some(e)) => SimEval(p, fuel, se, te, h, e); SimReturn(p, fuel, se, te, h, base, e, owned, params);
    case Ret(None) => SimReturnVoid(p, fuel, se, te, h, base, owned, params);
    case Discard(e) => SimEval(p, fuel, se, te, h, e); SimDiscard(p, fuel, se, te, h, base, e);
    case If(branches) => SimBranches(p, fuel, se, te, h, base, branches, depth, owned, params);
    case Loop(id, kind, body) => SimLoop(p, fuel, se, te, h, base, id, kind, body, depth, owned, params);
    case Pass => OwnLive(se, te, h, base);
  }

  lemma {:induction false} SimStore(p: Program, fuel: nat, se: Env<S.Val>, te: Env<C.CVal>, h: C.Heap, base: nat, s: Stmt, depth: nat,
                                    owned: seq<string>, params: set<string>)
    requires s.Declare? || s.Assign? || s.AddAssign?
    requires State(se, te, h, base) && GuardedProgram(p) && GuardedStmt(s, depth, owned, params) && LentTo(Loans(te, base), params)
    ensures var t := C.ExecStmt(EmitProgram(p), fuel, te, h, EmitStmt(s, depth, owned));
            FlowOk(S.ExecStmt(p, fuel, se, s), t, te, h, base) && Settled(S.ExecStmt(p, fuel, se, s), t, te, s, base)
    decreases fuel, 0, s, 1
  {
    match s
    case Declare(ty, x, e) => SimEval(p, fuel, se, te, h, e); SimDeclare(p, fuel, se, te, h, base, ty, x, e);
    case Assign(x, ty, e) => SimEval(p, fuel, se, te, h, e); SimAssign(p, fuel, se, te, h, base, x, ty, e, params);
    case AddAssign(x, ty, e) => SimEval(p, fuel, se, te, h, e); SimAddAssign(p, fuel, se, te, h, base, x, ty, e);
  }

  function Stored(s: Stmt): Option<Var> {
    match s case Declare(_, x, _) => Some(User(x)) case Assign(x, _, _) => Some(x.Target()) case AddAssign(x, _, _) => Some(x.Target()) case _ => None
  }

  /** A variable stored to in the function's own scope is no longer on loan. */
  ghost predicate Settled(s: Out<S.Flow>, t: Out<C.CFlow>, te: Env<C.CVal>, stmt: Stmt, base: nat) {
    s.Done? && te.Root? && Stored(stmt).Some? ==> t.Done? && t.value.Next? && Stored(stmt).value !in Loans(t.value.env, base)
  }

  lemma {:induction false} SimInner(p: Program, fuel: nat, se: Env<S.Val>, te: Env<C.CVal>, h: C.Heap, base: nat, b: Block, depth: nat,
                                    owned: seq<string>, params: set<string>)
    requires State(se, te, h, base) && GuardedProgram(p) && GuardedBlock(b, depth + 1, owned, params)
    requires Owners(owned, params, se, te, base) && depth >= 1
    ensures FlowOk(SLeave(S.Exec(p, fuel, Inner(map[], se), b)),
                   CLeave(C.Exec(EmitProgram(p), fuel, Inner(map[], te), h, EmitBlock(b, depth + 1, owned))), te, h, base)
    decreases fuel, 0, b, 2
  {
    ExecGrows(p, fuel, Inner(map[], se), b);
    OwnersInner(owned, params, se, te, base, map[], map[]);
    SimBlock(p, fuel, Inner(map[], se), Inner(map[], te), h, base, b, depth + 1, owned, params);
    PopOk(S.Exec(p, fuel, Inner(map[], se), b),
          C.Exec(EmitProgram(p), fuel, Inner(map[], te), h, EmitBlock(b, depth + 1, owned)), te, h, base);
  }

  lemma {:induction false} SimBranches(p: Program, fuel: nat, se: Env<S.Val>, te: Env<C.CVal>, h: C.Heap, base: nat,
                                       branches: Branches, depth: nat, owned: seq<string>, params: set<string>)
    requires State(se, te, h, base) && GuardedProgram(p) && GuardedBranches(branches, depth, owned, params)
    requires Owners(owned, params, se, te, base) && depth >= 1
    ensures FlowOk(S.ExecBranches(p, fuel, se, branches),
                   C.ExecBranches(EmitProgram(p), fuel, te, h, EmitBranches(branches, depth, owned)), te, h, base)
    decreases fuel, 0, branches, 1
  {
    match branches
    case NoElse => OwnLive(se, te, h, base);
    case Else(b) => SimInner(p, fuel, se, te, h, base, b, depth, owned, params);
    case Arm(test, body, rest) =>
      SimEval(p, fuel, se, te, h, test);
      var t := C.Eval(EmitProgram(p), fuel, te, h, EmitExpr(test));
      var s := S.Eval(p, fuel, se, test);
      if s.Done? && s.value.VBol? {
        MatchGrow(se, te, h, t.value.1);
        if s.value.b {
          SimInner(p, fuel, se, te, t.value.1, base, body, depth, owned, params);
        } else {
          BlockShrinks(body, depth + 1, owned);
          SameRefl(se);
          OwnersStay(owned, params, se, te, base, ListAfterBlock(body, depth + 1, owned), se, te);
          SimBranches(p, fuel, se, te, t.value.1, base, rest, depth, ListAfterBlock(body, depth + 1, owned), params);
        }
      }
      ArmGlue(p, fuel, se, te, h, base, test, body, rest, EmitBlock(body, depth + 1, owned),
              EmitBranches(rest, depth, ListAfterBlock(body, depth + 1, owned)), s, t);
  }

  lemma {:induction false} ArmGlue(p: Program, fuel: nat, se: Env<S.Val>, te: Env<C.CVal>, h: C.Heap, base: nat, test: Expr, body: Block,
                                   rest: Branches, tb: CBlock, tr: CBranches, s: Out<S.Val>, t: CExprOut)
    requires HeapOk(h) && s == S.Eval(p, fuel, se, test) && t == C.Eval(EmitProgram(p), fuel, te, h, EmitExpr(test))
    requires EvalOk(s, t, h)
    requires s.Done? && s.value.VBol? ==>
               if s.value.b then
                 FlowOk(SLeave(S.Exec(p, fuel, Inner(map[], se), body)),
                        CLeave(C.Exec(EmitProgram(p), fuel, Inner(map[], te), t.value.1, tb)), te, t.value.1, base)
               else
                 FlowOk(S.ExecBranches(p, fuel, se, rest), C.ExecBranches(EmitProgram(p), fuel, te, t.value.1, tr), te, t.value.1, base)
    ensures FlowOk(S.ExecBranches(p, fuel, se, Arm(test, body, rest)),
                   C.ExecBranches(EmitProgram(p), fuel, te, h, CArm(EmitExpr(test), tb, tr)), te, h, base)
  {
    if s.Done? && s.value.VBol? {
      if s.value.b {
        FlowTrans(SLeave(S.Exec(p, fuel, Inner(map[], se), body)),
                  CLeave(C.Exec(EmitProgram(p), fuel, Inner(map[], te), t.value.1, tb)), te, h, base, te, t.value.1);
      } else {
        FlowTrans(S.ExecBranches(p, fuel, se, rest),
                  C.ExecBranches(EmitProgram(p), fuel, te, t.value.1, tr), te, h, base, te, t.value.1);
      }
    }
  }

  lemma {:induction false} SimBlock(p: Program, fuel: nat, se: Env<S.Val>, te: Env<C.CVal>, h: C.Heap, base: nat, b: Block,
                                    depth: nat, owned: seq<string>, params: set<string>)
    requires State(se, te, h, base) && GuardedProgram(p) && GuardedBlock(b, depth, owned, params)
    requires Owners(owned, params, se, te, base) && depth >= 1 && (depth == 1 ==> AtTop(se))
    ensures FlowOk(S.Exec(p, fuel, se, b), C.Exec(EmitProgram(p), fuel, te, h, EmitBlock(b, depth, owned)), te, h, base)
    ensures depth == 1 ==> BlockSettled(S.Exec(p, fuel, se, b), C.Exec(EmitProgram(p), fuel, te, h, EmitBlock(b, depth, owned)),
                                        ListAfterBlock(b, depth, owned), params, base)
    decreases fuel, 0, b, 1
  {
    OwnLive(se, te, h, base);
    if b.Then? {
      var s := b.head;
      var flow := S.ExecStmt(p, fuel, se, s);
      if s.Free? {
        SimFree(p, fuel, se, te, h, base, s.target);
        if flow.Done? {
          var d := C.ExecStmt(EmitProgram(p), fuel, te, h, CDrop(s.target.Target()));
          var t := C.ExecStmt(EmitProgram(p), fuel, te, d.value.heap, CAssign(s.target.Target(), CLit("")));
          SimRest(p, fuel, se, te, h, base, b, depth, owned, params, flow, t);
        }
      } else {
        SimStmt(p, fuel, se, te, h, base, s, depth, owned, params);
        SimRest(p, fuel, se, te, h, base, b, depth, owned, params, flow,
                C.ExecStmt(EmitProgram(p), fuel, te, h, EmitStmt(s, depth, owned)));
      }
    }
  }

  /** A finished function body's list is still one of its own locals. */
  ghost predicate BlockSettled(s: Out<S.Flow>, t: Out<C.CFlow>, owned: seq<string>, params: set<string>, base: nat) {
    s.Done? && s.value.Next? ==> t.Done? && t.value.Next? && Owners(owned, params, s.value.env, t.value.env, base)
  }

  ghost function SThen(p: Program, fuel: nat, flow: Out<S.Flow>, rest: Block): Out<S.Flow> {
    if flow.Done? && flow.value.Next? then S.Exec(p, fuel, flow.value.env, rest) else flow
  }

  ghost function CThenRun(code: C.Code, fuel: nat, t: Out<C.CFlow>, rest: CBlock): Out<C.CFlow> {
    if t.Done? && t.value.Next? then C.Exec(code, fuel, t.value.env, t.value.heap, rest) else t
  }

  /** The statements after the first one. */
  lemma {:induction false} SimRest(p: Program, fuel: nat, se: Env<S.Val>, te: Env<C.CVal>, h: C.Heap, base: nat, b: Block, depth: nat,
                                   owned: seq<string>, params: set<string>, flow: Out<S.Flow>, t: Out<C.CFlow>)
    requires b.Then? && State(se, te, h, base) && GuardedProgram(p) && GuardedBlock(b, depth, owned, params)
    requires Owners(owned, params, se, te, base) && depth >= 1 && (depth == 1 ==> AtTop(se))
    requires flow == S.ExecStmt(p, fuel, se, b.head) && FlowOk(flow, t, te, h, base) && Settled(flow, t, te, b.head, base)
    ensures var s2 := SThen(p, fuel, flow, b.tail);
            var t2 := CThenRun(EmitProgram(p), fuel, t, EmitBlock(b.tail, depth, ListAfter(b.head, depth, owned)));
            FlowOk(s2, t2, te, h, base) && (depth == 1 ==> BlockSettled(s2, t2, ListAfterBlock(b, depth, owned), params, base))
    decreases fuel, 0, b, 0
  {
    if flow.Done? && flow.value.Next? {
      OwnersAfter(p, fuel, se, te, b.head, depth, owned, params, base, t.value.env);
      if depth == 1 { StaysTop(p, fuel, se, b.head); }
      SimBlock(p, fuel, flow.value.env, t.value.env, t.value.heap, base, b.tail, depth, ListAfter(b.head, depth, owned), params);
      FlowTrans(SThen(p, fuel, flow, b.tail),
                CThenRun(EmitProgram(p), fuel, t, EmitBlock(b.tail, depth, ListAfter(b.head, depth, owned))),
                te, h, base, t.value.env, t.value.heap);
    }
  }

  /** The list after a statement still names what the call owns. */
  lemma {:induction false} OwnersAfter(p: Program, fuel: nat, se: Env<S.Val>, te: Env<C.CVal>, s: Stmt, depth: nat, owned: seq<string>,
                                       params: set<string>, base: nat, te': Env<C.CVal>)
    requires Owners(owned, params, se, te, base) && depth >= 1 && (depth == 1 ==> AtTop(se) && te.Root?)
    requires S.ExecStmt(p, fuel, se, s).Done? && S.ExecStmt(p, fuel, se, s).value.Next?
    requires Loans(te', base) <= Loans(te, base)
    requires te.Root? && Stored(s).Some? ==> Stored(s).value !in Loans(te', base)
    ensures Owners(ListAfter(s, depth, owned), params, S.ExecStmt(p, fuel, se, s).value.env, te', base)
  {
    StmtListed(p, fuel, se, s, depth, owned);
    if depth > 1 || s.If? || s.Loop? || s.Free? {
      ListShrinks(s, depth, owned);
    } else if s.Assign? || s.AddAssign? {
      TopTarget(p, fuel, se, s);
    }
  }

  /** At the top a stored name is a user's. */
  lemma {:induction false} TopTarget(p: Program, fuel: nat, se: Env<S.Val>, s: Stmt)
    requires AtTop(se) && (s.Assign? || s.AddAssign?) && S.ExecStmt(p, fuel, se, s).Done?
    ensures s.target.Target() == User(s.target.text)
  {
    assert Lookup(se, s.target.Target()).Some?;
  }

  // ---- whole functions ----

  /** A finished function body, with the drops emitted when its text does not end in ret. */
  lemma {:induction false} SimBody(p: Program, fuel: nat, se: Env<S.Val>, te: Env<C.CVal>, h: C.Heap, base: nat, fn: Fn)
    requires State(se, te, h, base) && AtTop(se)
    requires FlowOk(S.Exec(p, fuel, se, fn.body), C.Exec(EmitProgram(p), fuel, te, h, EmitBlock(fn.body, 1, [])), te, h, base)
    requires BlockSettled(S.Exec(p, fuel, se, fn.body), C.Exec(EmitProgram(p), fuel, te, h, EmitBlock(fn.body, 1, [])),
                          ListAfterBlock(fn.body, 1, []), ParamNames(fn.params), base)
    ensures var s := S.Exec(p, fuel, se, fn.body);
            var t := C.Exec(EmitProgram(p), fuel, te, h, EmitFn(fn).body);
            && (s.Done? && s.value.Next? ==>
                  t.Done? && t.value.Next? && HeapOk(t.value.heap) && Keep(h, t.value.heap, Own(te, base)))
            && (!(s.Done? && s.value.Next?) ==> FlowOk(s, t, te, h, base))
  {
    var code := EmitProgram(p);
    var s := S.Exec(p, fuel, se, fn.body);
    var t := C.Exec(code, fuel, te, h, EmitBlock(fn.body, 1, []));
    if EndsWithReturn(fn.body) {
      if s.Done? { EndsReturning(p, fuel, se, fn.body); }
    } else {
      var owned := ListAfterBlock(fn.body, 1, []);
      var names := Drops(owned, None);
      ExecAppend(code, fuel, te, h, EmitBlock(fn.body, 1, []), DropBlock(names));
      if s.Done? && s.value.Next? {
        DropsListed(owned, None);
        ListedDroppable(s.value.env, t.value.env, t.value.heap, names, base);
        DropNamesExact(t.value.env, t.value.heap, names);
        ExecDrops(code, fuel, t.value.env, t.value.heap, names);
      }
    }
  }

  /** Every call of every program: the generated function ends as the by-value one does. It
      touches no block that was there before, and its result is new. */
  lemma {:induction false} SimRun(p: Program, fuel: nat, h: C.Heap, f: string, vs: seq<S.Val>, cs: seq<C.CVal>)
    requires GuardedProgram(p) && HeapOk(h) && AllRep(vs, cs, h)
    ensures var s, t := S.Run(p, fuel, f, vs), C.Run(EmitProgram(p), fuel, h, f, cs);
            EvalOk(s, t, h) && (s.Done? ==> FreshOut(t, h))
    decreases fuel, 1
  {
    if f in p && S.ArgsFit(p[f].params, vs) {
      var fn := p[f];
      var se, te := Root(Bind(fn.params, vs)), Root(Bind(fn.params, cs));
      EntryOk(fn.params, vs, cs, h);
      assert GuardedFn(p[f]);
      SimBlock(p, fuel, se, te, h, h.next, fn.body, 1, [], ParamNames(fn.params));
      SimBody(p, fuel, se, te, h, h.next, fn);
      RunGlue(p, fuel, h, f, vs, cs);
    }
  }

  /** At entry everything is on loan. */
  lemma {:induction false} EntryOk(params: seq<Param>, vs: seq<S.Val>, cs: seq<C.CVal>, h: C.Heap)
    requires |params| == |cs| && AllRep(vs, cs, h) && HeapOk(h)
    ensures var se, te := Root(Bind(params, vs)), Root(Bind(params, cs));
            State(se, te, h, h.next) && AtTop(se) && Owners([], ParamNames(params), se, te, h.next) && Own(te, h.next) == {}
  {
    BindMatch(params, vs, cs, h);
  }

  lemma {:induction false} RunGlue(p: Program, fuel: nat, h: C.Heap, f: string, vs: seq<S.Val>, cs: seq<C.CVal>)
    requires f in p && S.ArgsFit(p[f].params, vs) && |vs| == |cs|
    requires Own(Root(Bind(p[f].params, cs)), h.next) == {}
    requires var se, te := Root(Bind(p[f].params, vs)), Root(Bind(p[f].params, cs));
             var s := S.Exec(p, fuel, se, p[f].body);
             var t := C.Exec(EmitProgram(p), fuel, te, h, EmitFn(p[f]).body);
             && (s.Done? && s.value.Next? ==>
                   t.Done? && t.value.Next? && HeapOk(t.value.heap) && Keep(h, t.value.heap, Own(te, h.next)))
             && (!(s.Done? && s.value.Next?) ==> FlowOk(s, t, te, h, h.next))
    ensures var s, t := S.Run(p, fuel, f, vs), C.Run(EmitProgram(p), fuel, h, f, cs);
            EvalOk(s, t, h) && (s.Done? ==> FreshOut(t, h))
  {
  }
}
