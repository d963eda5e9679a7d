/** The emitted exchange sort, and the theorem for whole chains. */
module CollectionSort {
  import opened Wrappers
  import opened Collections
  import opened CollectionLoops
  import opened CollectionProof

  ghost predicate Sorting(e: Env, env: Env, id: nat, vs: seq<Val>, o: nat, j: nat) {
    && SameUsers(e, env) && Elems(e, Gen(Result, id)) == Some(vs)
    && Gen(OuterIndex, id) in e && e[Gen(OuterIndex, id)] == I(o)
    && Gen(InnerIndex, id) in e && e[Gen(InnerIndex, id)] == I(j)
  }

  lemma {:induction false} TakeKeyRuns(e: Env, env: Env, id: nat, vs: seq<Val>, at: Name, p: nat, x: Name, key: Body, rounds: nat)
    requires SameUsers(e, env) && Elems(e, Gen(Result, id)) == Some(vs) && NoIndex(key)
    requires at in e && e[at] == I(p) && p < |vs|
    ensures Exec(TakeKey(id, at, x, key), e, rounds)
            == SetTo(e[Gen(Element, id) := Ptr(Gen(Result, id), p)], x, BodyVal(key, vs[p], 0, env))
  {
    var e1 := e[Gen(Element, id) := Ptr(Gen(Result, id), p)];
    assert Eval(Var(at), e, rounds) == Some(I(p));
    assert Exec(Point(Gen(Element, id), Gen(Result, id), Var(at)), e, rounds) == Fine(e1);
    BodyEmits(key, id, e1, env, Gen(Result, id), vs, p, 0, rounds);
    assert Exec(Set(x, EmitBody(key, id)), e1, rounds) == SetTo(e1, x, BodyVal(key, vs[p], 0, env));
  }

  lemma {:induction false} SwapRuns(e: Env, env: Env, id: nat, vs: seq<Val>, o: nat, j: nat, rounds: nat)
    requires Sorting(e, env, id, vs, o, j) && o < |vs| && j < |vs|
    ensures var run := Exec(SwapSlots(id), e, rounds); run.Fine? && Sorting(run.env, env, id, Exchange(vs, o, j), o, j)
  {
    var out, t := Gen(Result, id), Gen(Temp, id);
    var oi, ji := Var(Gen(OuterIndex, id)), Var(Gen(InnerIndex, id));
    var e1 := e[t := vs[o]];
    assert Eval(oi, e, rounds) == Some(I(o));
    assert Exec(Set(t, At(out, oi)), e, rounds) == Fine(e1);
    var mid := vs[o := vs[j]];
    var e2 := e1[out := A(mid)];
    assert Eval(oi, e1, rounds) == Some(I(o)) && Eval(ji, e1, rounds) == Some(I(j));
    assert Eval(At(out, ji), e1, rounds) == Some(vs[j]);
    var first, second := Store(out, oi, At(out, ji)), Store(out, ji, Var(t));
    assert Exec(first, e1, rounds) == Fine(e2);
    assert Eval(ji, e2, rounds) == Some(I(j)) && Eval(Var(t), e2, rounds) == Some(vs[o]);
    assert Exec(second, e2, rounds) == Fine(e2[out := A(mid[j := vs[o]])]);
    assert Exec(Then(first, second), e1, rounds) == Fine(e2[out := A(mid[j := vs[o]])]);
  }

  ghost predicate RoundSorts(run: Run, env: Env, id: nat, vs: seq<Val>, o: nat, j: nat, swap: Option<bool>)
    requires o < |vs| && j < |vs|
  {
    if swap.None? then run.Bad? else run.Fine? && Sorting(run.env, env, id, if swap.value then Exchange(vs, o, j) else vs, o, j)
  }

  lemma {:induction false} SortRound(e: Env, env: Env, id: nat, vs: seq<Val>, o: nat, j: nat, key: Body, desc: bool, rounds: nat)
    requires Sorting(e, env, id, vs, o, j) && o < |vs| && j < |vs| && NoIndex(key)
    ensures RoundSorts(Exec(SortBody(id, key, desc), e, rounds), env, id, vs, o, j, Swaps(vs[o], vs[j], key, desc, env))
  {
    var ln, rn := Gen(LeftKey, id), Gen(RightKey, id);
    var l, r := BodyVal(key, vs[o], 0, env), BodyVal(key, vs[j], 0, env);
    TakeKeyRuns(e, env, id, vs, Gen(OuterIndex, id), o, ln, key, rounds);
    if l.Some? {
      var e1 := e[Gen(Element, id) := Ptr(Gen(Result, id), o)][ln := l.value];
      TakeKeyRuns(e1, env, id, vs, Gen(InnerIndex, id), j, rn, key, rounds);
      if r.Some? {
        var e2 := e1[Gen(Element, id) := Ptr(Gen(Result, id), j)][rn := r.value];
        CompareRuns(e2, env, id, vs, o, j, l.value, r.value, desc, rounds);
      }
    }
  }

  lemma {:induction false} CompareRuns(e: Env, env: Env, id: nat, vs: seq<Val>, o: nat, j: nat, l: Val, r: Val, desc: bool, rounds: nat)
    requires Sorting(e, env, id, vs, o, j) && o < |vs| && j < |vs|
    requires Gen(LeftKey, id) in e && e[Gen(LeftKey, id)] == l && Gen(RightKey, id) in e && e[Gen(RightKey, id)] == r
    ensures var test := Op2(if desc then Greater else Less, Var(Gen(RightKey, id)), Var(Gen(LeftKey, id)));
      RoundSorts(Exec(When(test, SwapSlots(id)), e, rounds), env, id, vs, o, j, Truth(Apply(if desc then Greater else Less, r, l)))
  {
    var test := Op2(if desc then Greater else Less, Var(Gen(RightKey, id)), Var(Gen(LeftKey, id)));
    assert Eval(Var(Gen(RightKey, id)), e, rounds) == Some(r) && Eval(Var(Gen(LeftKey, id)), e, rounds) == Some(l);
    assert Eval(test, e, rounds) == Apply(if desc then Greater else Less, r, l);
    SwapRuns(e, env, id, vs, o, j, rounds);
  }

  /** One round of a loop over the result whose body leaves the counter alone. */
  lemma {:induction false} RoundStep(i: Name, e: Env, id: nat, vs: seq<Val>, k: nat, body: CStmt, rounds: nat, left: nat, run: Run)
    requires Elems(e, Gen(Result, id)) == Some(vs) && i in e && e[i] == I(k) && k < |vs| && left > 0
    requires run == Exec(body, e, rounds) && (run.Bad? || (run.Fine? && i in run.env && run.env[i] == I(k)))
    ensures Loop(i, Gen(Result, id), body, e, rounds, left)
            == if run.Bad? then Bad else Loop(i, Gen(Result, id), body, run.env[i := I(k + 1)], rounds, left - 1)
  {
  }

  lemma {:induction false} InnerMoves(e: Env, env: Env, id: nat, vs: seq<Val>, o: nat, j: nat)
    requires Sorting(e, env, id, vs, o, j)
    ensures Sorting(e[Gen(InnerIndex, id) := I(j + 1)], env, id, vs, o, j + 1)
  {
  }

  lemma {:induction false} InnerLoops(e: Env, env: Env, id: nat, vs: seq<Val>, o: nat, j: nat, key: Body, desc: bool, rounds: nat, left: nat)
    requires Sorting(e, env, id, vs, o, j) && o < |vs| && j <= |vs| && NoIndex(key) && left >= |vs| - j
    ensures var run := Loop(Gen(InnerIndex, id), Gen(Result, id), SortBody(id, key, desc), e, rounds, left);
      var out := SortInner(vs, o, j, key, desc, env);
      if out.None? then run.Bad? else run.Fine? && Sorting(run.env, env, id, out.value, o, |vs|)
    decreases |vs| - j
  {
    if j < |vs| {
      SortRound(e, env, id, vs, o, j, key, desc, rounds);
      var swap, run := Swaps(vs[o], vs[j], key, desc, env), Exec(SortBody(id, key, desc), e, rounds);
      RoundStep(Gen(InnerIndex, id), e, id, vs, j, SortBody(id, key, desc), rounds, left, run);
      if swap.Some? {
        var next := if swap.value then Exchange(vs, o, j) else vs;
        InnerMoves(run.env, env, id, next, o, j);
        InnerLoops(run.env[Gen(InnerIndex, id) := I(j + 1)], env, id, next, o, j + 1, key, desc, rounds, left - 1);
      }
    }
  }

  ghost predicate OuterAt(e: Env, env: Env, id: nat, vs: seq<Val>, o: nat) {
    && SameUsers(e, env) && Elems(e, Gen(Result, id)) == Some(vs)
    && Gen(OuterIndex, id) in e && e[Gen(OuterIndex, id)] == I(o)
  }

  function InnerFor(id: nat, key: Body, desc: bool): CStmt {
    For(Gen(InnerIndex, id), Op2(Add, Var(Gen(OuterIndex, id)), Const(I(1))), Gen(Result, id), SortBody(id, key, desc))
  }

  lemma {:induction false} InnerForRuns(e: Env, env: Env, id: nat, vs: seq<Val>, o: nat, key: Body, desc: bool, rounds: nat)
    requires OuterAt(e, env, id, vs, o) && o < |vs| <= rounds && NoIndex(key)
    ensures var run := Exec(InnerFor(id, key, desc), e, rounds);
      var out := SortInner(vs, o, o + 1, key, desc, env);
      if out.None? then run.Bad? else run.Fine? && OuterAt(run.env, env, id, out.value, o)
  {
    assert Eval(Var(Gen(OuterIndex, id)), e, rounds) == Some(I(o));
    assert Eval(Op2(Add, Var(Gen(OuterIndex, id)), Const(I(1))), e, rounds) == Some(I(o + 1));
    InnerLoops(e[Gen(InnerIndex, id) := I(o + 1)], env, id, vs, o, o + 1, key, desc, rounds, rounds);
  }

  lemma {:induction false} OuterMoves(e: Env, env: Env, id: nat, vs: seq<Val>, o: nat)
    requires OuterAt(e, env, id, vs, o)
    ensures OuterAt(e[Gen(OuterIndex, id) := I(o + 1)], env, id, vs, o + 1)
  {
  }

  lemma {:induction false} OuterLoops(e: Env, env: Env, id: nat, vs: seq<Val>, o: nat, key: Body, desc: bool, rounds: nat, left: nat)
    requires OuterAt(e, env, id, vs, o) && o <= |vs| <= rounds && NoIndex(key) && left >= |vs| - o
    ensures var run := Loop(Gen(OuterIndex, id), Gen(Result, id), InnerFor(id, key, desc), e, rounds, left);
      var out := SortFrom(vs, o, key, desc, env);
      if out.None? then run.Bad? else run.Fine? && Elems(run.env, Gen(Result, id)) == Some(out.value)
    decreases |vs| - o
  {
    if o < |vs| {
      InnerForRuns(e, env, id, vs, o, key, desc, rounds);
      var run, inner := Exec(InnerFor(id, key, desc), e, rounds), SortInner(vs, o, o + 1, key, desc, env);
      RoundStep(Gen(OuterIndex, id), e, id, vs, o, InnerFor(id, key, desc), rounds, left, run);
      if inner.Some? {
        OuterMoves(run.env, env, id, inner.value, o);
        OuterLoops(run.env[Gen(OuterIndex, id) := I(o + 1)], env, id, inner.value, o + 1, key, desc, rounds, left - 1);
      }
    }
  }

  lemma {:induction false} SortRuns(id: nat, of: CExp, key: Body, desc: bool, env: Env, rounds: nat)
    requires NoIndex(key) && var vs := AsArray(Eval(of, env, rounds)); vs.Some? ==> |vs.value| <= rounds
    ensures var vs := AsArray(Eval(of, env, rounds));
      AsArray(Eval(Method(id, of, Var(Gen(Source, id)), SortLoop(id, key, desc)), env, rounds))
      == if vs.None? then None else SortFrom(vs.value, 0, key, desc, env)
  {
    var v, zero, loop := Eval(of, env, rounds), Var(Gen(Source, id)), SortLoop(id, key, desc);
    if v.None? {
      MethodNeedsSource(id, of, zero, loop, env, rounds);
    } else {
      var e2 := env[Gen(Source, id) := v.value][Gen(Result, id) := v.value];
      assert Eval(zero, env[Gen(Source, id) := v.value], rounds) == v;
      MethodStarts(id, of, zero, loop, v.value, v.value, env, rounds);
      SortLoopRuns(e2, env, id, key, desc, rounds);
    }
  }

  lemma {:induction false} SortLoopRuns(e: Env, env: Env, id: nat, key: Body, desc: bool, rounds: nat)
    requires NoIndex(key) && SameUsers(e, env) && Gen(Result, id) in e
    requires var vs := Elems(e, Gen(Result, id)); vs.Some? ==> |vs.value| <= rounds
    ensures var run := Exec(SortLoop(id, key, desc), e, rounds);
      var vs := Elems(e, Gen(Result, id));
      var out := if vs.None? then None else SortFrom(vs.value, 0, key, desc, env);
      if out.None? then run.Bad? else run.Fine? && Elems(run.env, Gen(Result, id)) == out
  {
    var e1 := e[Gen(OuterIndex, id) := I(0)];
    var vs := Elems(e, Gen(Result, id));
    assert Exec(SortLoop(id, key, desc), e, rounds)
        == Loop(Gen(OuterIndex, id), Gen(Result, id), InnerFor(id, key, desc), e1, rounds, rounds);
    if vs.Some? { OuterLoops(e1, env, id, vs.value, 0, key, desc, rounds, rounds); }
  }

  // ---- chains ----

  /** Sort keys do not name the index: sorting declares none. */
  predicate WellFormed(c: Chain) {
    match c
    case From(_) => true
    case Filt(d, _) => WellFormed(d)
    case Upd(d, _) => WellFormed(d)
    case Group(d, _) => WellFormed(d)
    case Sort(d, key, _) => WellFormed(d) && NoIndex(key)
  }

  /** No variable holds an array longer than the rounds a loop may take. */
  ghost predicate Roomy(env: Env, rounds: nat) { forall x :: x in env && env[x].A? ==> |env[x].items| <= rounds }

  lemma {:induction false} FiltShrinks(vs: seq<Val>, k: nat, t: Body, env: Env)
    requires k <= |vs|
    ensures FiltFrom(vs, k, t, env).Some? ==> |FiltFrom(vs, k, t, env).value| <= |vs| - k
    decreases |vs| - k
  {
    if k < |vs| { FiltShrinks(vs, k + 1, t, env); }
  }

  lemma {:induction false} UpdKeepsLength(vs: seq<Val>, k: nat, b: Body, env: Env)
    requires k <= |vs|
    ensures UpdFrom(vs, k, b, env).Some? ==> |UpdFrom(vs, k, b, env).value| == |vs| - k
    decreases |vs| - k
  {
    if k < |vs| { UpdKeepsLength(vs, k + 1, b, env); }
  }

  lemma {:induction false} GroupShrinks(vs: seq<Val>, k: nat, rows: seq<Val>, key: Body, env: Env)
    requires k <= |vs|
    ensures GroupFrom(vs, k, rows, key, env).Some? ==> |GroupFrom(vs, k, rows, key, env).value| <= |rows| + |vs| - k
    decreases |vs| - k
  {
    if k < |vs| {
      var v := BodyVal(key, vs[k], k, env);
      if v.Some? && Place(rows, v.value, vs[k]).Some? { GroupShrinks(vs, k + 1, Place(rows, v.value, vs[k]).value, key, env); }
    }
  }

  lemma {:induction false} MeaningFits(c: Chain, env: Env, rounds: nat)
    requires Roomy(env, rounds)
    ensures Meaning(c, env).Some? ==> |Meaning(c, env).value| <= rounds
  {
    if !c.From? {
      MeaningFits(c.of, env, rounds);
      var vs := Meaning(c.of, env);
      if vs.Some? {
        match c
        case Filt(_, t) => FiltShrinks(vs.value, 0, t, env);
        case Upd(_, b) => UpdKeepsLength(vs.value, 0, b, env);
        case Group(_, key) => GroupShrinks(vs.value, 0, [], key, env);
        case Sort(_, _, _) =>
      }
    }
  }

  /** Compiling a chain preserves its meaning: the emitted loops give the same array, and get
      stuck exactly when the meaning is undefined. */
  lemma {:induction false} ChainRuns(c: Chain, id: nat, env: Env, rounds: nat)
    requires WellFormed(c) && Roomy(env, rounds)
    ensures AsArray(Eval(EmitChain(c, id), env, rounds)) == Meaning(c, env)
    decreases c
  {
    if !c.From? {
      ChainRuns(c.of, id + 1, env, rounds);
      MeaningFits(c.of, env, rounds);
      var of, vs := EmitChain(c.of, id + 1), Meaning(c.of, env);
      match c
      case Filt(_, t) =>
        MethodRuns(Filters(t), id, of, A([]), env, rounds);
        if vs.Some? { FiltersFold(vs.value, 0, [], t, env); StartEmpty(FiltFrom(vs.value, 0, t, env)); }
      case Upd(_, b) =>
        MethodRuns(Updates(b), id, of, A([]), env, rounds);
        if vs.Some? { UpdatesFold(vs.value, 0, [], b, env); StartEmpty(UpdFrom(vs.value, 0, b, env)); }
      case Group(_, key) =>
        MethodRuns(Groups(key), id, of, A([]), env, rounds);
        if vs.Some? { GroupsFold(vs.value, 0, [], key, env); }
      case Sort(_, key, desc) =>
        SortRuns(id, of, key, desc, env, rounds);
    }
  }

  lemma {:induction false} StartEmpty(vs: Option<seq<Val>>)
    ensures Prepend([], vs) == vs
  {
    if vs.Some? { assert [] + vs.value == vs.value; }
  }

  /** Compiler correctness for collection queries: for every chain and every way to end it. */
  lemma {:induction false} QueryRuns(q: Query, env: Env, rounds: nat)
    requires WellFormed(q.of) && Roomy(env, rounds)
    ensures q.Items? ==> AsArray(Eval(EmitQuery(q), env, rounds)) == Meaning(q.of, env)
    ensures !q.Items? ==> Eval(EmitQuery(q), env, rounds) == Answer(q, env)
  {
    match q
    case Items(c) => ChainRuns(c, 0, env, rounds);
    case Any(c, t) =>
      ChainRuns(c, 1, env, rounds);
      MeaningFits(c, env, rounds);
      MethodRuns(Tests(t), 0, EmitChain(c, 1), B(false), env, rounds);
      if Meaning(c, env).Some? { TestsFold(Meaning(c, env).value, 0, t, env); }
    case Agg(c, zero, steps) =>
      ChainRuns(c, 1, env, rounds);
      MeaningFits(c, env, rounds);
      MethodRuns(Adds(steps), 0, EmitChain(c, 1), zero, env, rounds);
      if Meaning(c, env).Some? { AddsFold(Meaning(c, env).value, 0, zero, steps, env); }
  }
}
