/** Facts about runs of the by-value interpreter alone: a run keeps the type of every
    variable in scope, and the emitter's drop list keeps naming live STR locals. */
module LoweringSource {
  import opened Wrappers
  import opened CasterAst
  import opened ByValue
  import E = Emit

  ghost predicate SameTypes(m: map<Var, Val>, n: map<Var, Val>) {
    m.Keys == n.Keys && forall x :: x in m ==> TypeOf(m[x]) == TypeOf(n[x])
  }

  ghost predicate Same(e: Env<Val>, f: Env<Val>) {
    SameTypes(e.vars, f.vars) && (e.Root? <==> f.Root?) && (e.Inner? ==> Same(e.outer, f.outer))
  }

  /** f is e after some statements: new names only in the innermost scope, and a name that
      hides an outer one has its type. */
  ghost predicate Grown(e: Env<Val>, f: Env<Val>) {
    && (e.Root? <==> f.Root?)
    && (forall x :: x in e.vars ==> x in f.vars && TypeOf(e.vars[x]) == TypeOf(f.vars[x]))
    && (e.Inner? ==>
          && Same(e.outer, f.outer)
          && forall x :: x in f.vars && x !in e.vars && Lookup(e.outer, x).Some? ==>
               TypeOf(Lookup(e.outer, x).value) == TypeOf(f.vars[x]))
  }

  lemma {:induction false} SameLookup(e: Env<Val>, f: Env<Val>, x: Var)
    requires Same(e, f)
    ensures Lookup(e, x).Some? <==> Lookup(f, x).Some?
    ensures Lookup(e, x).Some? ==> TypeOf(Lookup(e, x).value) == TypeOf(Lookup(f, x).value)
  {
    if e.Inner? { SameLookup(e.outer, f.outer, x); }
  }

  lemma {:induction false} GrownLookup(e: Env<Val>, f: Env<Val>, x: Var)
    requires Grown(e, f)
    ensures Lookup(e, x).Some? ==> Lookup(f, x).Some? && TypeOf(Lookup(e, x).value) == TypeOf(Lookup(f, x).value)
  {
    if e.Inner? { SameLookup(e.outer, f.outer, x); }
  }

  lemma {:induction false} SameRefl(e: Env<Val>)
    ensures Same(e, e) && Grown(e, e)
  {
    if e.Inner? { SameRefl(e.outer); }
  }

  lemma {:induction false} SameTrans(e: Env<Val>, f: Env<Val>, g: Env<Val>)
    requires Same(e, f) && Same(f, g)
    ensures Same(e, g)
  {
    if e.Inner? { SameTrans(e.outer, f.outer, g.outer); }
  }

  lemma {:induction false} GrownTrans(e: Env<Val>, f: Env<Val>, g: Env<Val>)
    requires Grown(e, f) && Grown(f, g)
    ensures Grown(e, g)
  {
    if e.Inner? {
      SameTrans(e.outer, f.outer, g.outer);
      forall x | x in g.vars && x !in e.vars && Lookup(e.outer, x).Some?
        ensures TypeOf(Lookup(e.outer, x).value) == TypeOf(g.vars[x])
      {
        SameLookup(e.outer, f.outer, x);
      }
    }
  }

  lemma {:induction false} SameIsGrown(e: Env<Val>, f: Env<Val>)
    requires Same(e, f)
    ensures Grown(e, f)
  {
  }

  lemma {:induction false} StoreSame(e: Env<Val>, x: Var, v: Val)
    requires Lookup(e, x).Some? && TypeOf(Lookup(e, x).value) == TypeOf(v)
    ensures Same(e, Store(e, x, v)) && Grown(e, Store(e, x, v))
  {
    SameRefl(e);
    if x !in e.vars { StoreSame(e.outer, x, v); }
  }

  // ---- runs ----

  lemma {:induction false} ExecGrows(p: Program, fuel: nat, env: Env<Val>, b: Block)
    ensures Exec(p, fuel, env, b).Done? && Exec(p, fuel, env, b).value.Next? ==>
              Grown(env, Exec(p, fuel, env, b).value.env)
    decreases fuel, 0, b, 1
  {
    SameRefl(env);
    if b.Then? {
      var flow := ExecStmt(p, fuel, env, b.head);
      if flow.Done? && flow.value.Next? {
        StmtGrows(p, fuel, env, b.head);
        ExecGrows(p, fuel, flow.value.env, b.tail);
        var last := Exec(p, fuel, flow.value.env, b.tail);
        if last.Done? && last.value.Next? { GrownTrans(env, flow.value.env, last.value.env); }
      }
    }
  }

  lemma {:induction false} StmtGrows(p: Program, fuel: nat, env: Env<Val>, s: Stmt)
    ensures ExecStmt(p, fuel, env, s).Done? && ExecStmt(p, fuel, env, s).value.Next? ==>
              && Grown(env, ExecStmt(p, fuel, env, s).value.env)
              && (!s.Declare? ==> Same(env, ExecStmt(p, fuel, env, s).value.env))
    decreases fuel, 0, s, 1
  {
    SameRefl(env);
    var flow := ExecStmt(p, fuel, env, s);
    if flow.Done? && flow.value.Next? {
      match s
      case Assign(x, ty, e) => StoreSame(env, x.Target(), Eval(p, fuel, env, e).value);
      case AddAssign(x, ty, e) =>
        StoreSame(env, x.Target(), Apply(if ty == STR then Join else Plus, Lookup(env, x.Target()).value, Eval(p, fuel, env, e).value).value);
      case Free(x) => StoreSame(env, x.Target(), VStr(""));
      case If(branches) => BranchesGrow(p, fuel, env, branches);
      case Loop(id, kind, body) =>
        IterateSame(p, fuel, Inner(map[LoopIndex(id) := Start(p, fuel, env, kind).value], env), id, kind, body);
        SameIsGrown(env, flow.value.env);
      case _ =>
    }
  }

  lemma {:induction false} BranchesGrow(p: Program, fuel: nat, env: Env<Val>, branches: Branches)
    ensures ExecBranches(p, fuel, env, branches).Done? && ExecBranches(p, fuel, env, branches).value.Next? ==>
              Same(env, ExecBranches(p, fuel, env, branches).value.env)
              && Grown(env, ExecBranches(p, fuel, env, branches).value.env)
    decreases fuel, 0, branches, 1
  {
    SameRefl(env);
    match branches
    case NoElse =>
    case Else(b) => ExecGrows(p, fuel, Inner(map[], env), b);
    case Arm(test, body, rest) =>
      ExecGrows(p, fuel, Inner(map[], env), body);
      BranchesGrow(p, fuel, env, rest);
  }

  lemma {:induction false} IterateSame(p: Program, fuel: nat, env: Env<Val>, id: nat, kind: LoopKind, body: Block)
    requires env.Inner?
    ensures Iterate(p, fuel, env, id, kind, body).Done? && Iterate(p, fuel, env, id, kind, body).value.Next? ==>
              Same(env, Iterate(p, fuel, env, id, kind, body).value.env)
    decreases fuel, 0, Loop(id, kind, body), 0
  {
    SameRefl(env);
    if fuel > 0 {
      var k := fuel - 1;
      IterateS(p, k, env, id, kind, body);
      var round := Enter(p, k, env, id, kind);
      if round.Done? && round.value.Some? {
        ExecGrows(p, k, Inner(round.value.value, env), body);
        NextSame(p, k, env, SLeave(Exec(p, k, Inner(round.value.value, env), body)), id, kind, body);
      }
    }
  }

  lemma {:induction false} NextSame(p: Program, k: nat, env: Env<Val>, sf: Out<Flow>, id: nat, kind: LoopKind, body: Block)
    requires env.Inner? && (sf.Done? && sf.value.Next? ==> Same(env, sf.value.env))
    ensures var o := SNext(p, k, sf, id, kind, body);
            o.Done? && o.value.Next? ==> Same(env, o.value.env)
    decreases k, 0, Loop(id, kind, body), 1
  {
    if sf.Done? && sf.value.Next? {
      var after := sf.value.env;
      var i, d := Lookup(after, LoopIndex(id)), Stride(p, k, after, kind);
      if i.Some? && i.value.VInt? && d.Done? && d.value.VInt? {
        var again := Store(after, LoopIndex(id), VInt(i.value.n + d.value.n));
        StoreSame(after, LoopIndex(id), VInt(i.value.n + d.value.n));
        SameTrans(env, after, again);
        IterateSame(p, k, again, id, kind, body);
        var last := Iterate(p, k, again, id, kind, body);
        if last.Done? && last.value.Next? { SameTrans(env, again, last.value.env); }
      }
    }
  }

  // ---- one round of a loop ----

  ghost function SLeave(s: Out<Flow>): Out<Flow> { if s.Done? then Done(Leave(s.value)) else s }

  /** What follows a finished round: the counter steps and the loop goes on. */
  ghost function SNext(p: Program, k: nat, sf: Out<Flow>, id: nat, kind: LoopKind, body: Block): Out<Flow> {
    if !sf.Done? || sf.value.Returned? then sf else
    var d := Stride(p, k, sf.value.env, kind);
    if !d.Done? then d.PropagateFailure() else
    var i := Lookup(sf.value.env, LoopIndex(id));
    if i.None? || !i.value.VInt? || !d.value.VInt? then Wrong else
    Iterate(p, k, Store(sf.value.env, LoopIndex(id), VInt(i.value.n + d.value.n)), id, kind, body)
  }

  lemma {:induction false} IterateS(p: Program, k: nat, se: Env<Val>, id: nat, kind: LoopKind, body: Block)
    ensures Iterate(p, k + 1, se, id, kind, body) ==
              var round := Enter(p, k, se, id, kind);
              if !round.Done? then round.PropagateFailure()
              else if round.value.None? then Done(Next(se))
              else SNext(p, k, SLeave(Exec(p, k, Inner(round.value.value, se), body)), id, kind, body)
  {
  }

  ghost function Failed(d: Out<Val>): Out<Flow> { if d.Done? then Wrong else d.PropagateFailure() }

  lemma {:induction false} NextS(p: Program, k: nat, sf: Out<Flow>, id: nat, kind: LoopKind, body: Block, i: Option<Val>, d: Out<Val>)
    requires sf.Done? && sf.value.Next?
    requires i == Lookup(sf.value.env, LoopIndex(id)) && d == Stride(p, k, sf.value.env, kind)
    ensures SNext(p, k, sf, id, kind, body) ==
              if i.Some? && i.value.VInt? && d.Done? && d.value.VInt?
              then Iterate(p, k, Store(sf.value.env, LoopIndex(id), VInt(i.value.n + d.value.n)), id, kind, body)
              else Failed(d)
  {
  }

  lemma {:induction false} LoopS(p: Program, fuel: nat, se: Env<Val>, id: nat, kind: LoopKind, body: Block, first: Out<Val>)
    requires first == Start(p, fuel, se, kind)
    ensures ExecStmt(p, fuel, se, Loop(id, kind, body)) ==
              if first.Done? && first.value.VInt? then SLeave(Iterate(p, fuel, Inner(map[LoopIndex(id) := first.value], se), id, kind, body))
              else Failed(first)
  {
  }

  // ---- the drop list along a run ----

  ghost predicate NoDup(xs: seq<string>) { forall i, j :: 0 <= i < j < |xs| ==> xs[i] != xs[j] }

  /** Every listed name is listed once and is bound, innermost, to a string. */
  ghost predicate Listed(owned: seq<string>, env: Env<Val>) {
    NoDup(owned) &&
    forall x :: x in owned ==> Lookup(env, User(x)).Some? && Lookup(env, User(x)).value.VStr?
  }

  /** The function's own scope holds user names only. */
  ghost predicate AtTop(env: Env<Val>) { env.Root? && forall x :: x in env.vars ==> x.User? }

  ghost predicate Within(xs: seq<string>, ys: seq<string>) { NoDup(xs) && forall x :: x in xs ==> x in ys }

  lemma {:induction false} RemoveWithin(owned: seq<string>, x: string)
    requires NoDup(owned)
    ensures Within(E.OwnedRemove(owned, x), owned)
    ensures x !in E.OwnedRemove(owned, x)
    ensures forall y :: y in owned && y != x ==> y in E.OwnedRemove(owned, x)
  {
    if owned != [] && owned[0] != x {
      RemoveWithin(owned[1..], x);
      var rest := E.OwnedRemove(owned[1..], x);
      assert forall k :: 0 <= k < |owned[1..]| ==> owned[1..][k] == owned[k + 1] && owned[0] != owned[k + 1];
      forall j | 0 <= j < |rest| ensures rest[j] != owned[0] {
        assert rest[j] in owned[1..];
      }
      assert forall y :: y in owned ==> y == owned[0] || y in owned[1..];
    } else if owned != [] {
      assert forall y :: y in owned ==> y == owned[0] || y in owned[1..];
    }
  }

  /** Below the function's own block the list only loses names. */
  lemma {:induction false} ListShrinks(s: Stmt, depth: nat, owned: seq<string>)
    requires NoDup(owned) && (depth > 1 || s.If? || s.Loop? || s.Free?) && depth >= 1
    ensures Within(E.ListAfter(s, depth, owned), owned)
    decreases s, 1
  {
    match s
    case Free(x) => RemoveWithin(owned, x.text);
    case If(branches) => BranchesShrink(branches, depth, owned);
    case Loop(_, _, body) => BlockShrinks(body, depth + 1, owned);
    case _ =>
  }

  lemma {:induction false} BlockShrinks(b: Block, depth: nat, owned: seq<string>)
    requires NoDup(owned) && depth > 1
    ensures Within(E.ListAfterBlock(b, depth, owned), owned)
    decreases b, 0
  {
    if b.Then? {
      ListShrinks(b.head, depth, owned);
      BlockShrinks(b.tail, depth, E.ListAfter(b.head, depth, owned));
    }
  }

  lemma {:induction false} BranchesShrink(branches: Branches, depth: nat, owned: seq<string>)
    requires NoDup(owned) && depth >= 1
    ensures Within(E.ListAfterBranches(branches, depth, owned), owned)
    decreases branches, 0
  {
    match branches
    case NoElse =>
    case Else(b) => BlockShrinks(b, depth + 1, owned);
    case Arm(_, body, rest) =>
      BlockShrinks(body, depth + 1, owned);
      BranchesShrink(rest, depth, E.ListAfterBlock(body, depth + 1, owned));
  }

  lemma {:induction false} ListedStays(owned: seq<string>, env: Env<Val>, later: seq<string>, env': Env<Val>)
    requires Listed(owned, env) && Within(later, owned) && Grown(env, env')
    ensures Listed(later, env')
  {
    forall x | x in later
      ensures Lookup(env', User(x)).Some? && Lookup(env', User(x)).value.VStr?
    {
      GrownLookup(env, env', User(x));
      var _ := TypeOf(Lookup(env', User(x)).value);
    }
  }

  /** After any statement that completes, the list names live STR locals. */
  lemma {:induction false} StmtListed(p: Program, fuel: nat, env: Env<Val>, s: Stmt, depth: nat, owned: seq<string>)
    requires Listed(owned, env) && depth >= 1
    requires ExecStmt(p, fuel, env, s).Done? && ExecStmt(p, fuel, env, s).value.Next?
    requires depth == 1 ==> AtTop(env)
    ensures Listed(E.ListAfter(s, depth, owned), ExecStmt(p, fuel, env, s).value.env)
  {
    var env' := ExecStmt(p, fuel, env, s).value.env;
    StmtGrows(p, fuel, env, s);
    if depth > 1 || s.If? || s.Loop? || s.Free? {
      ListShrinks(s, depth, owned);
      ListedStays(owned, env, E.ListAfter(s, depth, owned), env');
    } else {
      ListedStays(owned, env, owned, env');
      if s.Declare? || s.Assign? || s.AddAssign? {
        var x := if s.Declare? then s.name else s.target.text;
        StoredType(p, fuel, env, s, x);
      }
    }
  }

  lemma {:induction false} StoredType(p: Program, fuel: nat, env: Env<Val>, s: Stmt, x: string)
    requires ExecStmt(p, fuel, env, s).Done? && ExecStmt(p, fuel, env, s).value.Next?
    requires s.Declare? || s.Assign? || s.AddAssign?
    requires if s.Declare? then s.name == x else s.target.Target() == User(x)
    ensures var v := Lookup(ExecStmt(p, fuel, env, s).value.env, User(x)); v.Some? && TypeOf(v.value) == s.ty
  {
    if !s.Declare? {
      StmtGrows(p, fuel, env, s);
      SameLookup(env, ExecStmt(p, fuel, env, s).value.env, User(x));
    }
  }

  /** Statements of the function's own block leave its scope the innermost. */
  lemma {:induction false} StaysTop(p: Program, fuel: nat, se: Env<Val>, s: Stmt)
    requires AtTop(se) && ExecStmt(p, fuel, se, s).Done? && ExecStmt(p, fuel, se, s).value.Next?
    ensures AtTop(ExecStmt(p, fuel, se, s).value.env)
  {
    StmtGrows(p, fuel, se, s);
  }
}
