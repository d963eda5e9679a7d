/** The emitted loops compute what the methods mean. */
module CollectionProof {
  import opened Wrappers
  import opened Collections
  import opened CollectionLoops

  // ---- one element ----

  /** The program's own variables have the values they had. */
  ghost predicate SameUsers(e: Env, env: Env) {
    forall x: string :: (User(x) in e <==> User(x) in env) && (User(x) in env ==> e[User(x)] == env[User(x)])
  }

  /** Inside the loop numbered id over vs, at element k with the result so far. */
  ghost predicate Looping(e: Env, env: Env, id: nat, vs: seq<Val>, k: int, acc: Val) {
    && SameUsers(e, env)
    && Gen(Source, id) in e && e[Gen(Source, id)] == A(vs)
    && Gen(Index, id) in e && e[Gen(Index, id)] == I(k)
    && Gen(Result, id) in e && e[Gen(Result, id)] == acc
  }

  ghost predicate Pointing(e: Env, id: nat, arr: Name, k: int) { Gen(Element, id) in e && e[Gen(Element, id)] == Ptr(arr, k) }

  lemma {:induction false} BodyEmits(b: Body, id: nat, e: Env, env: Env, arr: Name, vs: seq<Val>, at: int, k: int, rounds: nat)
    requires SameUsers(e, env) && Pointing(e, id, arr, at) && Elems(e, arr) == Some(vs) && 0 <= at < |vs|
    requires NoIndex(b) || (Gen(Index, id) in e && e[Gen(Index, id)] == I(k))
    ensures Eval(EmitBody(b, id), e, rounds) == BodyVal(b, vs[at], k, env)
  {
    match b
    case Bin(_, l, r) =>
      BodyEmits(l, id, e, env, arr, vs, at, k, rounds);
      BodyEmits(r, id, e, env, arr, vs, at, k, rounds);
    case Not(x) => BodyEmits(x, id, e, env, arr, vs, at, k, rounds);
    case And(l, r) =>
      BodyEmits(l, id, e, env, arr, vs, at, k, rounds);
      BodyEmits(r, id, e, env, arr, vs, at, k, rounds);
    case Or(l, r) =>
      BodyEmits(l, id, e, env, arr, vs, at, k, rounds);
      BodyEmits(r, id, e, env, arr, vs, at, k, rounds);
    case Key(row) => BodyEmits(row, id, e, env, arr, vs, at, k, rounds);
    case Rows(row) => BodyEmits(row, id, e, env, arr, vs, at, k, rounds);
    case _ =>
  }

  predicate NoIndex(b: Body) {
    match b
    case Ix => false
    case Bin(_, l, r) => NoIndex(l) && NoIndex(r)
    case Not(x) => NoIndex(x)
    case And(l, r) => NoIndex(l) && NoIndex(r)
    case Or(l, r) => NoIndex(l) && NoIndex(r)
    case Key(row) => NoIndex(row)
    case Rows(row) => NoIndex(row)
    case _ => true
  }

  // ---- one round ----

  /** What the element at k does to the result; true says that the loop stops there. */
  function RoundOf(kind: Kind, vs: seq<Val>, k: nat, acc: Val, env: Env): Option<(bool, Val)>
    requires k < |vs|
  {
    match kind
    case Filters(t) =>
      var b := Truth(BodyVal(t, vs[k], k, env));
      if b.None? || !acc.A? then None else Some((false, if b.value then A(acc.items + [vs[k]]) else acc))
    case Updates(v) =>
      var r := BodyVal(v, vs[k], k, env);
      if r.None? || !acc.A? then None else Some((false, A(acc.items + [r.value])))
    case Tests(t) =>
      var b := Truth(BodyVal(t, vs[k], k, env));
      if b.None? then None else Some((b.value, if b.value then B(true) else acc))
    case Adds(steps) =>
      var r := StepsVal(acc, steps, vs[k], k, env);
      if r.None? then None else Some((false, r.value))
    case Groups(key) =>
      var v := BodyVal(key, vs[k], k, env);
      if v.None? || !acc.A? then None else
      var r := Place(acc.items, v.value, vs[k]);
      if r.None? then None else Some((false, A(r.value)))
  }

  ghost predicate RoundDone(run: Run, env: Env, id: nat, vs: seq<Val>, k: int, r: Option<(bool, Val)>) {
    match r
    case None => run.Bad?
    case Some((true, acc)) => run.Broke? && SameUsers(run.env, env) && Gen(Result, id) in run.env && run.env[Gen(Result, id)] == acc
    case Some((false, acc)) => run.Fine? && Looping(run.env, env, id, vs, k, acc)
  }

  /** Results that fit the kind: arrays are collected in arrays, groups in few enough rows. */
  ghost predicate Fits(kind: Kind, acc: Val, k: int) {
    match kind
    case Filters(_) => acc.A?
    case Updates(_) => acc.A?
    case Groups(_) => acc.A? && |acc.items| <= k
    case _ => true
  }

  ghost predicate Ready(e: Env, env: Env, id: nat, vs: seq<Val>, k: int, acc: Val) {
    Looping(e, env, id, vs, k, acc) && 0 <= k < |vs| && Pointing(e, id, Gen(Source, id), k)
  }

  lemma {:induction false} BodyReady(b: Body, e: Env, env: Env, id: nat, vs: seq<Val>, k: int, acc: Val, rounds: nat)
    requires Ready(e, env, id, vs, k, acc)
    ensures Eval(EmitBody(b, id), e, rounds) == BodyVal(b, vs[k], k, env)
    ensures Eval(Deref(Gen(Element, id)), e, rounds) == Some(vs[k])
  {
    BodyEmits(b, id, e, env, Gen(Source, id), vs, k, k, rounds);
  }

  lemma {:induction false} SimpleRound(kind: Kind, e: Env, env: Env, id: nat, vs: seq<Val>, k: nat, acc: Val, rounds: nat)
    requires Ready(e, env, id, vs, k, acc) && Fits(kind, acc, k) && (kind.Filters? || kind.Updates? || kind.Tests?)
    ensures RoundDone(Exec(EmitKind(kind, id), e, rounds), env, id, vs, k, RoundOf(kind, vs, k, acc, env))
  {
    match kind
    case Filters(t) => BodyReady(t, e, env, id, vs, k, acc, rounds);
    case Updates(b) => BodyReady(b, e, env, id, vs, k, acc, rounds);
    case Tests(t) =>
      BodyReady(t, e, env, id, vs, k, acc, rounds);
      var put := Set(Gen(Result, id), Const(B(true)));
      assert Exec(put, e, rounds) == Fine(e[Gen(Result, id) := B(true)]);
      assert Exec(Then(put, Break), e, rounds) == Broke(e[Gen(Result, id) := B(true)]);
  }

  lemma {:induction false} AddsRound(steps: seq<Step>, e: Env, env: Env, id: nat, vs: seq<Val>, k: nat, acc: Val, rounds: nat)
    requires Ready(e, env, id, vs, k, acc)
    ensures var r := StepsVal(acc, steps, vs[k], k, env);
      var run := Exec(EmitSteps(steps, id), e, rounds);
      if r.None? then run.Bad? else run.Fine? && Ready(run.env, env, id, vs, k, r.value)
    decreases |steps|
  {
    if steps != [] {
      var s := steps[0];
      StepRuns(s, e, env, id, vs, k, acc, rounds);
      var run := Exec(EmitStep(s, id), e, rounds);
      if run.Fine? { AddsRound(steps[1..], run.env, env, id, vs, k, run.env[Gen(Result, id)], rounds); }
    }
  }

  lemma {:induction false} StepRuns(s: Step, e: Env, env: Env, id: nat, vs: seq<Val>, k: nat, acc: Val, rounds: nat)
    requires Ready(e, env, id, vs, k, acc)
    ensures var run := Exec(EmitStep(s, id), e, rounds);
      var t := if s.test.None? then Some(true) else Truth(BodyVal(s.test.value, vs[k], k, env));
      var next := Apply2(if s.minus then Sub else Add, Some(acc), BodyVal(s.value, vs[k], k, env));
      if t.None? || (t.value && next.None?) then run.Bad?
      else run.Fine? && Ready(run.env, env, id, vs, k, if t.value then next.value else acc)
  {
    BodyReady(s.value, e, env, id, vs, k, acc, rounds);
    var result := Gen(Result, id);
    var sum := Op2(if s.minus then Sub else Add, Var(result), EmitBody(s.value, id));
    assert Eval(Var(result), e, rounds) == Some(acc);
    assert Exec(Set(result, sum), e, rounds) == SetTo(e, result, Eval(sum, e, rounds));
    if s.test.Some? { BodyReady(s.test.value, e, env, id, vs, k, acc, rounds); }
  }

  // ---- groups ----

  /** Searching the rows from j on for the key. */
  ghost predicate Searching(e: Env, env: Env, id: nat, vs: seq<Val>, k: nat, rows: seq<Val>, j: nat, key: Val) {
    && Ready(e, env, id, vs, k, A(rows)) && j <= |rows|
    && Gen(KeyOf, id) in e && e[Gen(KeyOf, id)] == key
    && Gen(Found, id) in e && e[Gen(Found, id)] == B(false)
    && Gen(GroupIndex, id) in e && e[Gen(GroupIndex, id)] == I(j)
  }

  lemma {:induction false} FindRound(e: Env, env: Env, id: nat, vs: seq<Val>, k: nat, rows: seq<Val>, j: nat, key: Val, rounds: nat)
    requires Searching(e, env, id, vs, k, rows, j, key) && j < |rows|
    ensures var run := Exec(FindBody(id), e, rounds);
      var same := if rows[j].Row? then Truth(Apply(Equal, rows[j].key, key)) else None;
      if same.None? then run.Bad?
      else if same.value then run == Broke(e[Gen(Result, id) := A(rows[j := Row(rows[j].key, rows[j].rows + [vs[k]])])][Gen(Found, id) := B(true)])
      else run == Fine(e)
  {
    var out, g := Gen(Result, id), Gen(GroupIndex, id);
    assert Eval(Var(g), e, rounds) == Some(I(j));
    assert Eval(At(out, Var(g)), e, rounds) == Some(rows[j]);
    assert Eval(KeyField(At(out, Var(g))), e, rounds) == if rows[j].Row? then Some(rows[j].key) else None;
    assert Eval(Var(Gen(KeyOf, id)), e, rounds) == Some(key);
    assert Eval(Op2(Equal, KeyField(At(out, Var(g))), Var(Gen(KeyOf, id))), e, rounds)
        == if rows[j].Row? then Apply(Equal, rows[j].key, key) else None;
    if rows[j].Row? {
      var e1 := e[out := A(rows[j := Row(rows[j].key, rows[j].rows + [vs[k]])])];
      assert Eval(Deref(Gen(Element, id)), e, rounds) == Some(vs[k]);
      var append := AppendInRow(out, Var(g), Deref(Gen(Element, id)));
      assert Exec(append, e, rounds) == Fine(e1);
      var put := Set(Gen(Found, id), Const(B(true)));
      assert Exec(put, e1, rounds) == Fine(e1[Gen(Found, id) := B(true)]);
      assert Exec(Then(put, Break), e1, rounds) == Broke(e1[Gen(Found, id) := B(true)]);
      assert Exec(Then(append, Then(put, Break)), e, rounds) == Broke(e1[Gen(Found, id) := B(true)]);
    }
  }

  lemma {:induction false} FindLoop(e: Env, env: Env, id: nat, vs: seq<Val>, k: nat, rows: seq<Val>, j: nat, key: Val, rounds: nat, left: nat)
    requires Searching(e, env, id, vs, k, rows, j, key) && left >= |rows| - j
    ensures var run := Loop(Gen(GroupIndex, id), Gen(Result, id), FindBody(id), e, rounds, left);
      match FindRow(rows, j, key)
      case None => run.Bad?
      case Some(None) => run.Fine? && Searching(run.env, env, id, vs, k, rows, |rows|, key)
      case Some(Some(at)) =>
        && run.Fine? && Ready(run.env, env, id, vs, k, A(rows[at := Row(rows[at].key, rows[at].rows + [vs[k]])]))
        && Gen(Found, id) in run.env && run.env[Gen(Found, id)] == B(true)
    decreases |rows| - j
  {
    if j < |rows| {
      FindRound(e, env, id, vs, k, rows, j, key, rounds);
      var run := Exec(FindBody(id), e, rounds);
      if run.Fine? {
        FindLoop(e[Gen(GroupIndex, id) := I(j + 1)], env, id, vs, k, rows, j + 1, key, rounds, left - 1);
      }
    }
  }

  lemma {:induction false} NewRowRuns(e: Env, env: Env, id: nat, vs: seq<Val>, k: nat, rows: seq<Val>, key: Val, rounds: nat)
    requires Searching(e, env, id, vs, k, rows, |rows|, key)
    ensures var run := Exec(NewRow(id), e, rounds);
      run.Fine? && Ready(run.env, env, id, vs, k, A(rows + [Row(key, [vs[k]])]))
  {
    var row := Gen(NewGroup, id);
    assert Eval(Var(Gen(KeyOf, id)), e, rounds) == Some(key);
    var e1 := e[row := Row(key, [])];
    assert Exec(Set(row, EmptyRow(Var(Gen(KeyOf, id)))), e, rounds) == Fine(e1);
    assert Eval(Deref(Gen(Element, id)), e1, rounds) == Some(vs[k]);
    assert [] + [vs[k]] == [vs[k]];
    var e2 := e1[row := Row(key, [vs[k]])];
    assert Exec(GrowRow(row, Deref(Gen(Element, id))), e1, rounds) == Fine(e2);
    assert Exec(Append(Gen(Result, id), Var(row)), e2, rounds) == Fine(e2[Gen(Result, id) := A(rows + [Row(key, [vs[k]])])]);
  }

  lemma {:induction false} GroupsRound(key: Body, e: Env, env: Env, id: nat, vs: seq<Val>, k: nat, acc: Val, rounds: nat)
    requires Ready(e, env, id, vs, k, acc) && Fits(Groups(key), acc, k) && |vs| <= rounds
    ensures RoundDone(Exec(GroupBody(id, key), e, rounds), env, id, vs, k, RoundOf(Groups(key), vs, k, acc, env))
  {
    BodyReady(key, e, env, id, vs, k, acc, rounds);
    var v := BodyVal(key, vs[k], k, env);
    var rows := acc.items;
    var put := Set(Gen(KeyOf, id), EmitBody(key, id));
    assert Exec(put, e, rounds) == SetTo(e, Gen(KeyOf, id), v);
    if v.Some? {
      var e1 := e[Gen(KeyOf, id) := v.value];
      var e2 := e1[Gen(Found, id) := B(false)];
      var e3 := e2[Gen(GroupIndex, id) := I(0)];
      FindLoop(e3, env, id, vs, k, rows, 0, v.value, rounds, rounds);
      var run := Loop(Gen(GroupIndex, id), Gen(Result, id), FindBody(id), e3, rounds, rounds);
      if FindRow(rows, 0, v.value) == Some(None) { NewRowRuns(run.env, env, id, vs, k, rows, v.value, rounds); }
      GroupParts(key, e, e1, e2, e3, id, run, rounds);
    }
  }

  /** The group body, statement by statement. */
  lemma {:induction false} GroupParts(key: Body, e: Env, e1: Env, e2: Env, e3: Env, id: nat, run: Run, rounds: nat)
    requires Exec(Set(Gen(KeyOf, id), EmitBody(key, id)), e, rounds) == Fine(e1)
    requires e2 == e1[Gen(Found, id) := B(false)] && e3 == e2[Gen(GroupIndex, id) := I(0)]
    requires run == Loop(Gen(GroupIndex, id), Gen(Result, id), FindBody(id), e3, rounds, rounds) && !run.Broke?
    requires run.Fine? ==> Gen(Found, id) in run.env && run.env[Gen(Found, id)].B?
    ensures Exec(GroupBody(id, key), e, rounds)
            == if run.Bad? then Bad else if run.env[Gen(Found, id)] == B(true) then run else Exec(NewRow(id), run.env, rounds)
  {
    var loop := For(Gen(GroupIndex, id), Const(I(0)), Gen(Result, id), FindBody(id));
    var when := When(NotC(Var(Gen(Found, id))), NewRow(id));
    assert Exec(loop, e2, rounds) == run;
    if run.Fine? {
      assert Eval(Var(Gen(Found, id)), run.env, rounds) == Some(run.env[Gen(Found, id)]);
      assert Exec(when, run.env, rounds) == if run.env[Gen(Found, id)] == B(true) then run else Exec(NewRow(id), run.env, rounds);
    }
    assert Exec(Then(loop, when), e2, rounds) == if run.Fine? then Exec(when, run.env, rounds) else run;
    var found := Set(Gen(Found, id), Const(B(false)));
    assert Exec(found, e1, rounds) == Fine(e2);
    assert Exec(Then(found, Then(loop, when)), e1, rounds) == Exec(Then(loop, when), e2, rounds);
  }

  // ---- the loop over the source ----

  lemma {:induction false} RoundRuns(kind: Kind, e: Env, env: Env, id: nat, vs: seq<Val>, k: nat, acc: Val, rounds: nat)
    requires Ready(e, env, id, vs, k, acc) && Fits(kind, acc, k) && |vs| <= rounds
    ensures RoundDone(Exec(EmitKind(kind, id), e, rounds), env, id, vs, k, RoundOf(kind, vs, k, acc, env))
    ensures var r := RoundOf(kind, vs, k, acc, env); r.Some? && !r.value.0 ==> Fits(kind, r.value.1, k + 1)
  {
    match kind
    case Adds(steps) => AddsRound(steps, e, env, id, vs, k, acc, rounds);
    case Groups(key) => GroupsRound(key, e, env, id, vs, k, acc, rounds);
    case _ => SimpleRound(kind, e, env, id, vs, k, acc, rounds);
  }

  function FoldFrom(kind: Kind, vs: seq<Val>, k: nat, acc: Val, env: Env): Option<Val>
    requires k <= |vs|
    decreases |vs| - k
  {
    if k == |vs| then Some(acc) else
    match RoundOf(kind, vs, k, acc, env)
    case None => None
    case Some((stop, next)) => if stop then Some(next) else FoldFrom(kind, vs, k + 1, next, env)
  }

  function EachBody(kind: Kind, id: nat): CStmt {
    Then(Point(Gen(Element, id), Gen(Source, id), Var(Gen(Index, id))), EmitKind(kind, id))
  }

  lemma {:induction false} PointRuns(kind: Kind, e: Env, env: Env, id: nat, vs: seq<Val>, k: nat, acc: Val, rounds: nat)
    requires Looping(e, env, id, vs, k, acc) && k < |vs|
    ensures var e1 := e[Gen(Element, id) := Ptr(Gen(Source, id), k)];
      Ready(e1, env, id, vs, k, acc) && Exec(EachBody(kind, id), e, rounds) == Exec(EmitKind(kind, id), e1, rounds)
  {
    assert Eval(Var(Gen(Index, id)), e, rounds) == Some(I(k));
  }

  lemma {:induction false} EachLoops(kind: Kind, e: Env, env: Env, id: nat, vs: seq<Val>, k: nat, acc: Val, rounds: nat, left: nat)
    requires Looping(e, env, id, vs, k, acc) && k <= |vs| <= rounds && Fits(kind, acc, k) && left >= |vs| - k
    ensures var run := Loop(Gen(Index, id), Gen(Source, id), EachBody(kind, id), e, rounds, left);
      match FoldFrom(kind, vs, k, acc, env)
      case None => run.Bad?
      case Some(v) => run.Fine? && Gen(Result, id) in run.env && run.env[Gen(Result, id)] == v
    decreases |vs| - k
  {
    if k < |vs| {
      PointRuns(kind, e, env, id, vs, k, acc, rounds);
      RoundRuns(kind, e[Gen(Element, id) := Ptr(Gen(Source, id), k)], env, id, vs, k, acc, rounds);
      var run := Exec(EachBody(kind, id), e, rounds);
      var r := RoundOf(kind, vs, k, acc, env);
      if r.Some? && !r.value.0 {
        EachLoops(kind, run.env[Gen(Index, id) := I(k + 1)], env, id, vs, k + 1, r.value.1, rounds, left - 1);
      }
    }
  }

  /** Evaluate the source, start the result; what is left is the loop. */
  lemma {:induction false} MethodStarts(id: nat, of: CExp, zero: CExp, loop: CStmt, v: Val, z: Val, env: Env, rounds: nat)
    requires Eval(of, env, rounds) == Some(v) && Eval(zero, env[Gen(Source, id) := v], rounds) == Some(z)
    ensures var run := Exec(loop, env[Gen(Source, id) := v][Gen(Result, id) := z], rounds);
      Eval(Method(id, of, zero, loop), env, rounds)
      == if run.Fine? && Gen(Result, id) in run.env then Some(run.env[Gen(Result, id)]) else None
  {
    var setSource, setResult := Set(Gen(Source, id), of), Set(Gen(Result, id), zero);
    var e1 := env[Gen(Source, id) := v];
    var e2 := e1[Gen(Result, id) := z];
    assert Exec(setSource, env, rounds) == Fine(e1);
    assert Exec(setResult, e1, rounds) == Fine(e2);
    assert Exec(Then(setResult, loop), e1, rounds) == Exec(loop, e2, rounds);
    assert Exec(Then(setSource, Then(setResult, loop)), env, rounds) == Exec(loop, e2, rounds);
  }

  lemma {:induction false} MethodNeedsSource(id: nat, of: CExp, zero: CExp, loop: CStmt, env: Env, rounds: nat)
    requires Eval(of, env, rounds) == None
    ensures Eval(Method(id, of, zero, loop), env, rounds) == None
  {
    assert Exec(Set(Gen(Source, id), of), env, rounds) == Bad;
  }

  /** A whole method over a source that is an array, or is not. */
  lemma {:induction false} MethodRuns(kind: Kind, id: nat, of: CExp, zero: Val, env: Env, rounds: nat)
    requires var vs := AsArray(Eval(of, env, rounds)); vs.Some? ==> |vs.value| <= rounds
    requires Fits(kind, zero, 0)
    ensures var vs := AsArray(Eval(of, env, rounds));
      Eval(Method(id, of, Const(zero), Each(id, EmitKind(kind, id))), env, rounds)
      == if vs.None? then None else FoldFrom(kind, vs.value, 0, zero, env)
  {
    var v := Eval(of, env, rounds);
    var each := Each(id, EmitKind(kind, id));
    if v.None? {
      MethodNeedsSource(id, of, Const(zero), each, env, rounds);
    } else {
      var e2 := env[Gen(Source, id) := v.value][Gen(Result, id) := zero];
      var e3 := e2[Gen(Index, id) := I(0)];
      MethodStarts(id, of, Const(zero), each, v.value, zero, env, rounds);
      assert Exec(each, e2, rounds) == Loop(Gen(Index, id), Gen(Source, id), EachBody(kind, id), e3, rounds, rounds);
      if v.value.A? { EachLoops(kind, e3, env, id, v.value.items, 0, zero, rounds, rounds); }
    }
  }

  // ---- the loop is the meaning ----

  function Wrapped(vs: Option<seq<Val>>): Option<Val> { if vs.None? then None else Some(A(vs.value)) }

  lemma {:induction false} FiltersFold(vs: seq<Val>, k: nat, out: seq<Val>, t: Body, env: Env)
    requires k <= |vs|
    ensures FoldFrom(Filters(t), vs, k, A(out), env) == Wrapped(Prepend(out, FiltFrom(vs, k, t, env)))
    decreases |vs| - k
  {
    if k < |vs| {
      var b := Truth(BodyVal(t, vs[k], k, env));
      if b.Some? {
        var kept := if b.value then [vs[k]] else [];
        FiltersFold(vs, k + 1, out + kept, t, env);
        var rest := FiltFrom(vs, k + 1, t, env);
        assert out + [] == out;
        if rest.Some? { assert (out + kept) + rest.value == out + (kept + rest.value); }
      }
    } else {
      assert out + [] == out;
    }
  }

  lemma {:induction false} UpdatesFold(vs: seq<Val>, k: nat, out: seq<Val>, b: Body, env: Env)
    requires k <= |vs|
    ensures FoldFrom(Updates(b), vs, k, A(out), env) == Wrapped(Prepend(out, UpdFrom(vs, k, b, env)))
    decreases |vs| - k
  {
    if k < |vs| {
      var v := BodyVal(b, vs[k], k, env);
      if v.Some? {
        UpdatesFold(vs, k + 1, out + [v.value], b, env);
        var rest := UpdFrom(vs, k + 1, b, env);
        if rest.Some? { assert (out + [v.value]) + rest.value == out + ([v.value] + rest.value); }
      }
    } else {
      assert out + [] == out;
    }
  }

  lemma {:induction false} TestsFold(vs: seq<Val>, k: nat, t: Body, env: Env)
    requires k <= |vs|
    ensures FoldFrom(Tests(t), vs, k, B(false), env)
            == var r := AnyFrom(vs, k, t, env); if r.None? then None else Some(B(r.value))
    decreases |vs| - k
  {
    if k < |vs| { TestsFold(vs, k + 1, t, env); }
  }

  lemma {:induction false} AddsFold(vs: seq<Val>, k: nat, acc: Val, steps: seq<Step>, env: Env)
    requires k <= |vs|
    ensures FoldFrom(Adds(steps), vs, k, acc, env) == AggFrom(vs, k, acc, steps, env)
    decreases |vs| - k
  {
    if k < |vs| {
      var next := StepsVal(acc, steps, vs[k], k, env);
      if next.Some? { AddsFold(vs, k + 1, next.value, steps, env); }
    }
  }

  lemma {:induction false} GroupsFold(vs: seq<Val>, k: nat, rows: seq<Val>, key: Body, env: Env)
    requires k <= |vs|
    ensures FoldFrom(Groups(key), vs, k, A(rows), env) == Wrapped(GroupFrom(vs, k, rows, key, env))
    decreases |vs| - k
  {
    if k < |vs| {
      var v := BodyVal(key, vs[k], k, env);
      if v.Some? {
        var next := Place(rows, v.value, vs[k]);
        if next.Some? { GroupsFold(vs, k + 1, next.value, key, env); }
      }
    }
  }
}
