/** The loops that collection methods are emitted as, and a machine that runs them. */
module CollectionLoops {
  import opened Wrappers
  import opened Collections

  datatype CExp =
    | Const(v: Val)
    | Var(x: Name)
    | Deref(p: Name)
    | At(arr: Name, at: CExp)
    | KeyField(row: CExp)
    | ValField(row: CExp)
    | EmptyRow(key: CExp)
    | Op2(op: Op, l: CExp, r: CExp)
    | NotC(inner: CExp)
    | AndC(l: CExp, r: CExp)
    | OrC(l: CExp, r: CExp)
    | Block(body: CStmt, result: Name)

  datatype CStmt =
    | Skip
    | Then(first: CStmt, second: CStmt)
    | Set(x: Name, e: CExp)
    | Point(p: Name, arr: Name, index: CExp)
    | Append(x: Name, e: CExp)
    | GrowRow(x: Name, e: CExp)
    | AppendInRow(x: Name, index: CExp, e: CExp)
    | Store(arr: Name, index: CExp, e: CExp)
    | Truncate(arr: Name, len: CExp)
    | When(test: CExp, body: CStmt)
    | Break
    | For(i: Name, start: CExp, bound: Name, body: CStmt)

  datatype Run = Fine(env: Env) | Broke(env: Env) | Bad

  function AsArray(v: Option<Val>): Option<seq<Val>> { if v.Some? && v.value.A? then Some(v.value.items) else None }

  function Elems(env: Env, x: Name): Option<seq<Val>> { if x in env then AsArray(Some(env[x])) else None }

  function Slot(env: Env, x: Name, at: Option<Val>): Option<nat> {
    var items := Elems(env, x);
    if items.Some? && at.Some? && at.value.I? && 0 <= at.value.n < |items.value| then Some(at.value.n) else None
  }

  /** `rounds` bounds the iterations of any one loop. */
  function Eval(e: CExp, env: Env, rounds: nat): Option<Val>
    decreases e, 0, 0
  {
    match e
    case Const(v) => Some(v)
    case Var(x) => if x in env then Some(env[x]) else None
    case Deref(p) =>
      if p !in env || !env[p].Ptr? then None else
      var at := Slot(env, env[p].arr, Some(I(env[p].at)));
      if at.None? then None else Some(Elems(env, env[p].arr).value[at.value])
    case At(arr, index) =>
      var at := Slot(env, arr, Eval(index, env, rounds));
      if at.None? then None else Some(Elems(env, arr).value[at.value])
    case KeyField(row) => KeyOfRow(Eval(row, env, rounds))
    case ValField(row) => RowsOfRow(Eval(row, env, rounds))
    case EmptyRow(key) => var v := Eval(key, env, rounds); if v.None? then None else Some(Row(v.value, []))
    case Op2(op, l, r) => Apply2(op, Eval(l, env, rounds), Eval(r, env, rounds))
    case NotC(x) => Negate(Eval(x, env, rounds))
    case AndC(l, r) => Shortcut(Eval(l, env, rounds), Eval(r, env, rounds), false)
    case OrC(l, r) => Shortcut(Eval(l, env, rounds), Eval(r, env, rounds), true)
    case Block(body, result) =>
      var out := Exec(body, env, rounds);
      if out.Fine? && result in out.env then Some(out.env[result]) else None
  }

  function SetTo(env: Env, x: Name, v: Option<Val>): Run { if v.None? then Bad else Fine(env[x := v.value]) }

  function Exec(s: CStmt, env: Env, rounds: nat): Run
    decreases s, 0, 0
  {
    match s
    case Skip => Fine(env)
    case Then(a, b) => var r := Exec(a, env, rounds); if r.Fine? then Exec(b, r.env, rounds) else r
    case Set(x, e) => SetTo(env, x, Eval(e, env, rounds))
    case Point(p, arr, index) =>
      var at := Slot(env, arr, Eval(index, env, rounds));
      if at.None? then Bad else Fine(env[p := Ptr(arr, at.value)])
    case Append(x, e) =>
      var items, v := Elems(env, x), Eval(e, env, rounds);
      if items.None? || v.None? then Bad else Fine(env[x := A(items.value + [v.value])])
    case GrowRow(x, e) =>
      var v := Eval(e, env, rounds);
      if v.None? || x !in env || !env[x].Row? then Bad else Fine(env[x := Row(env[x].key, env[x].rows + [v.value])])
    case AppendInRow(x, index, e) =>
      var at, v := Slot(env, x, Eval(index, env, rounds)), Eval(e, env, rounds);
      if at.None? || v.None? then Bad else
      var row := Elems(env, x).value[at.value];
      if !row.Row? then Bad else Fine(env[x := A(Elems(env, x).value[at.value := Row(row.key, row.rows + [v.value])])])
    case Store(arr, index, e) =>
      var at, v := Slot(env, arr, Eval(index, env, rounds)), Eval(e, env, rounds);
      if at.None? || v.None? then Bad else Fine(env[arr := A(Elems(env, arr).value[at.value := v.value])])
    case Truncate(arr, len) =>
      var items, n := Elems(env, arr), Eval(len, env, rounds);
      if items.None? || n.None? || !n.value.I? || !(0 <= n.value.n <= |items.value|) then Bad
      else Fine(env[arr := A(items.value[..n.value.n])])
    case When(test, body) =>
      var t := Truth(Eval(test, env, rounds));
      if t.None? then Bad else if t.value then Exec(body, env, rounds) else Fine(env)
    case Break => Broke(env)
    case For(i, start, bound, body) =>
      var k := Eval(start, env, rounds);
      if k.None? then Bad else Loop(i, bound, body, env[i := k.value], rounds, rounds)
  }

  /** The rest of a loop: test the bound, run the body, count. */
  function Loop(i: Name, bound: Name, body: CStmt, env: Env, rounds: nat, left: nat): Run
    decreases body, 1, left
  {
    var items := Elems(env, bound);
    if items.None? || i !in env || !env[i].I? then Bad
    else if env[i].n >= |items.value| then Fine(env)
    else if left == 0 then Bad
    else
      match Exec(body, env, rounds)
      case Bad => Bad
      case Broke(e) => Fine(e)
      case Fine(e) =>
        if i !in e || !e[i].I? then Bad
        else Loop(i, bound, body, e[i := I(e[i].n + 1)], rounds, left - 1)
  }

  // ---- emission ----

  function EmitBody(b: Body, id: nat): CExp {
    match b
    case E => Deref(Gen(Element, id))
    case Ix => Var(Gen(Index, id))
    case Lit(v) => Const(v)
    case Outer(x) => Var(User(x))
    case Bin(op, l, r) => Op2(op, EmitBody(l, id), EmitBody(r, id))
    case Not(x) => NotC(EmitBody(x, id))
    case And(l, r) => AndC(EmitBody(l, id), EmitBody(r, id))
    case Or(l, r) => OrC(EmitBody(l, id), EmitBody(r, id))
    case Key(row) => KeyField(EmitBody(row, id))
    case Rows(row) => ValField(EmitBody(row, id))
  }

  /** for (i = 0; i < source.len; i++) { e = &source.data[i]; ... } */
  function Each(id: nat, body: CStmt): CStmt {
    For(Gen(Index, id), Const(I(0)), Gen(Source, id),
        Then(Point(Gen(Element, id), Gen(Source, id), Var(Gen(Index, id))), body))
  }

  /** ({ source = of; result = zero; loop; result; }) */
  function Method(id: nat, of: CExp, zero: CExp, loop: CStmt): CExp {
    Block(Then(Set(Gen(Source, id), of), Then(Set(Gen(Result, id), zero), loop)), Gen(Result, id))
  }

  function FindBody(id: nat): CStmt {
    var rows, g := Gen(Result, id), Gen(GroupIndex, id);
    When(Op2(Equal, KeyField(At(rows, Var(g))), Var(Gen(KeyOf, id))),
         Then(AppendInRow(rows, Var(g), Deref(Gen(Element, id))), Then(Set(Gen(Found, id), Const(B(true))), Break)))
  }

  function NewRow(id: nat): CStmt {
    var row := Gen(NewGroup, id);
    Then(Set(row, EmptyRow(Var(Gen(KeyOf, id)))), Then(GrowRow(row, Deref(Gen(Element, id))), Append(Gen(Result, id), Var(row))))
  }

  function GroupBody(id: nat, key: Body): CStmt {
    Then(Set(Gen(KeyOf, id), EmitBody(key, id)),
    Then(Set(Gen(Found, id), Const(B(false))),
    Then(For(Gen(GroupIndex, id), Const(I(0)), Gen(Result, id), FindBody(id)),
         When(NotC(Var(Gen(Found, id))), NewRow(id)))))
  }

  function EmitStep(s: Step, id: nat): CStmt {
    var result := Gen(Result, id);
    var add := Set(result, Op2(if s.minus then Sub else Add, Var(result), EmitBody(s.value, id)));
    if s.test.None? then add else When(EmitBody(s.test.value, id), add)
  }

  function EmitSteps(steps: seq<Step>, id: nat): CStmt {
    if steps == [] then Skip else Then(EmitStep(steps[0], id), EmitSteps(steps[1..], id))
  }

  /** What a loop over the source does with each element. */
  datatype Kind = Filters(test: Body) | Updates(value: Body) | Tests(test: Body) | Adds(steps: seq<Step>) | Groups(key: Body)

  function EmitKind(kind: Kind, id: nat): CStmt {
    var result := Gen(Result, id);
    match kind
    case Filters(t) => When(EmitBody(t, id), Append(result, Deref(Gen(Element, id))))
    case Updates(b) => Append(result, EmitBody(b, id))
    case Tests(t) => When(EmitBody(t, id), Then(Set(result, Const(B(true))), Break))
    case Adds(steps) => EmitSteps(steps, id)
    case Groups(key) => GroupBody(id, key)
  }

  /** The key of the slot `at` names, left in `x`. */
  function TakeKey(id: nat, at: Name, x: Name, key: Body): CStmt {
    Then(Point(Gen(Element, id), Gen(Result, id), Var(at)), Set(x, EmitBody(key, id)))
  }

  function SwapSlots(id: nat): CStmt {
    var out, o, j, t := Gen(Result, id), Gen(OuterIndex, id), Gen(InnerIndex, id), Gen(Temp, id);
    Then(Set(t, At(out, Var(o))), Then(Store(out, Var(o), At(out, Var(j))), Store(out, Var(j), Var(t))))
  }

  function SortBody(id: nat, key: Body, desc: bool): CStmt {
    var l, r := Gen(LeftKey, id), Gen(RightKey, id);
    Then(TakeKey(id, Gen(OuterIndex, id), l, key),
    Then(TakeKey(id, Gen(InnerIndex, id), r, key),
         When(Op2(if desc then Greater else Less, Var(r), Var(l)), SwapSlots(id))))
  }

  function SortLoop(id: nat, key: Body, desc: bool): CStmt {
    var out, o := Gen(Result, id), Gen(OuterIndex, id);
    For(o, Const(I(0)), out,
        For(Gen(InnerIndex, id), Op2(Add, Var(o), Const(I(1))), out, SortBody(id, key, desc)))
  }

  /** The source chain is emitted into the declaration of this loop's source. */
  function EmitChain(c: Chain, id: nat): CExp {
    match c
    case From(x) => Var(User(x))
    case Filt(d, t) => Method(id, EmitChain(d, id + 1), Const(A([])), Each(id, EmitKind(Filters(t), id)))
    case Upd(d, b) => Method(id, EmitChain(d, id + 1), Const(A([])), Each(id, EmitKind(Updates(b), id)))
    case Group(d, key) => Method(id, EmitChain(d, id + 1), Const(A([])), Each(id, EmitKind(Groups(key), id)))
    case Sort(d, key, desc) => Method(id, EmitChain(d, id + 1), Var(Gen(Source, id)), SortLoop(id, key, desc))
  }

  function EmitQuery(q: Query): CExp {
    match q
    case Items(c) => EmitChain(c, 0)
    case Any(c, t) => Method(0, EmitChain(c, 1), Const(B(false)), Each(0, EmitKind(Tests(t), 0)))
    case Agg(c, zero, steps) => Method(0, EmitChain(c, 1), Const(zero), Each(0, EmitKind(Adds(steps), 0)))
  }

  /** target = &x; for each slot: move the element down when it passes; target->len = write; */
  function EmitFiltInPlace(x: string, test: Body): CStmt {
    var i, w := Gen(Index, 0), Gen(WriteIndex, 0);
    Then(Set(w, Const(I(0))),
    Then(For(i, Const(I(0)), User(x), Then(Point(Gen(Element, 0), User(x), Var(i)), When(EmitBody(test, 0), KeepSlot(x)))),
         Truncate(User(x), Var(w))))
  }

  function KeepSlot(x: string): CStmt {
    var i, w := Gen(Index, 0), Gen(WriteIndex, 0);
    Then(When(NotC(Op2(Equal, Var(w), Var(i))), Store(User(x), Var(w), At(User(x), Var(i)))), Set(w, Op2(Add, Var(w), Const(I(1)))))
  }

  function EmitUpdInPlace(x: string, value: Body): CStmt {
    var i := Gen(Index, 0);
    For(i, Const(I(0)), User(x), Then(Point(Gen(Element, 0), User(x), Var(i)), Store(User(x), Var(i), EmitBody(value, 0))))
  }
}
