/** Collection methods on arrays: what a chain of them means, element by element. */
module Collections {
  import opened Wrappers
  import opened TextOrder

  /** A variable of the program, or one the emitter makes for the loop numbered `id`. */
  datatype Name = User(name: string) | Gen(role: Role, id: nat)

  datatype Role = Source | Result | Index | Element | KeyOf | Found | GroupIndex | NewGroup
                | OuterIndex | InnerIndex | LeftKey | RightKey | Temp | WriteIndex

  /** Row is one group: a key and the array of its elements. Ptr is the address of a slot. */
  datatype Val = I(n: int) | B(b: bool) | S(s: string) | A(items: seq<Val>) | Row(key: Val, rows: seq<Val>) | Ptr(arr: Name, at: int)

  type Env = map<Name, Val>

  datatype Op = Add | Sub | Mul | Div | Less | Greater | Equal

  /** The body of a method: `e` is the element and `i` its index. A group's row has the fields
      `key` and `val`. */
  datatype Body =
    | E
    | Ix
    | Lit(v: Val)
    | Outer(name: string)
    | Bin(op: Op, l: Body, r: Body)
    | Not(b: Body)
    | And(l: Body, r: Body)
    | Or(l: Body, r: Body)
    | Key(row: Body)
    | Rows(row: Body)

  datatype Chain =
    | From(name: string)
    | Filt(of: Chain, test: Body)
    | Upd(of: Chain, value: Body)
    | Group(of: Chain, key: Body)
    | Sort(of: Chain, key: Body, desc: bool)

  datatype Step = Step(minus: bool, value: Body, test: Option<Body>)

  /** What a chain ends in: the array itself, or one value. */
  datatype Query = Items(of: Chain) | Any(of: Chain, test: Body) | Agg(of: Chain, zero: Val, steps: seq<Step>)

  // ---- values ----

  /** Division as C does it, towards zero. */
  function Quotient(x: int, y: int): int
    requires y != 0
  {
    if x >= 0 then x / y else -(-x / y)
  }

  function Apply(op: Op, l: Val, r: Val): Option<Val> {
    match (op, l, r)
    case (Add, I(x), I(y)) => Some(I(x + y))
    case (Add, S(x), S(y)) => Some(S(x + y))
    case (Sub, I(x), I(y)) => Some(I(x - y))
    case (Mul, I(x), I(y)) => Some(I(x * y))
    case (Div, I(x), I(y)) => if y == 0 then None else Some(I(Quotient(x, y)))
    case (Less, I(x), I(y)) => Some(B(x < y))
    case (Less, S(x), S(y)) => Some(B(Compare(x, y) < 0))
    case (Greater, I(x), I(y)) => Some(B(x > y))
    case (Greater, S(x), S(y)) => Some(B(Compare(x, y) > 0))
    case (Equal, I(x), I(y)) => Some(B(x == y))
    case (Equal, S(x), S(y)) => Some(B(x == y))
    case (Equal, B(x), B(y)) => Some(B(x == y))
    case _ => None
  }

  function Apply2(op: Op, l: Option<Val>, r: Option<Val>): Option<Val> {
    if l.None? || r.None? then None else Apply(op, l.value, r.value)
  }

  function Negate(v: Option<Val>): Option<Val> { if v.Some? && v.value.B? then Some(B(!v.value.b)) else None }

  /** `&&` stops at false and `||` at true: the right side is then not looked at. */
  function Shortcut(l: Option<Val>, r: Option<Val>, stop: bool): Option<Val> {
    if l.None? || !l.value.B? then None
    else if l.value.b == stop then l
    else if r.Some? && r.value.B? then r else None
  }

  function KeyOfRow(v: Option<Val>): Option<Val> { if v.Some? && v.value.Row? then Some(v.value.key) else None }

  function RowsOfRow(v: Option<Val>): Option<Val> { if v.Some? && v.value.Row? then Some(A(v.value.rows)) else None }

  function Truth(v: Option<Val>): Option<bool> { if v.Some? && v.value.B? then Some(v.value.b) else None }

  function BodyVal(b: Body, e: Val, i: int, env: Env): Option<Val> {
    match b
    case E => Some(e)
    case Ix => Some(I(i))
    case Lit(v) => Some(v)
    case Outer(x) => if User(x) in env then Some(env[User(x)]) else None
    case Bin(op, l, r) => Apply2(op, BodyVal(l, e, i, env), BodyVal(r, e, i, env))
    case Not(x) => Negate(BodyVal(x, e, i, env))
    case And(l, r) => Shortcut(BodyVal(l, e, i, env), BodyVal(r, e, i, env), false)
    case Or(l, r) => Shortcut(BodyVal(l, e, i, env), BodyVal(r, e, i, env), true)
    case Key(row) => KeyOfRow(BodyVal(row, e, i, env))
    case Rows(row) => RowsOfRow(BodyVal(row, e, i, env))
  }

  // ---- what each method means ----

  function Prepend(front: seq<Val>, rest: Option<seq<Val>>): Option<seq<Val>> { if rest.None? then None else Some(front + rest.value) }

  /** The elements from index k on that pass. */
  function FiltFrom(vs: seq<Val>, k: nat, test: Body, env: Env): Option<seq<Val>>
    requires k <= |vs|
    decreases |vs| - k
  {
    if k == |vs| then Some([]) else
    var t := Truth(BodyVal(test, vs[k], k, env));
    if t.None? then None else Prepend(if t.value then [vs[k]] else [], FiltFrom(vs, k + 1, test, env))
  }

  function UpdFrom(vs: seq<Val>, k: nat, value: Body, env: Env): Option<seq<Val>>
    requires k <= |vs|
    decreases |vs| - k
  {
    if k == |vs| then Some([]) else
    var v := BodyVal(value, vs[k], k, env);
    if v.None? then None else Prepend([v.value], UpdFrom(vs, k + 1, value, env))
  }

  /** Stops at the first element that passes. */
  function AnyFrom(vs: seq<Val>, k: nat, test: Body, env: Env): Option<bool>
    requires k <= |vs|
    decreases |vs| - k
  {
    if k == |vs| then Some(false) else
    var t := Truth(BodyVal(test, vs[k], k, env));
    if t.None? then None else if t.value then Some(true) else AnyFrom(vs, k + 1, test, env)
  }

  function StepsVal(acc: Val, steps: seq<Step>, e: Val, i: int, env: Env): Option<Val>
    decreases |steps|
  {
    if steps == [] then Some(acc) else
    var s := steps[0];
    var t := if s.test.None? then Some(true) else Truth(BodyVal(s.test.value, e, i, env));
    if t.None? then None
    else if !t.value then StepsVal(acc, steps[1..], e, i, env)
    else
      var next := Apply2(if s.minus then Sub else Add, Some(acc), BodyVal(s.value, e, i, env));
      if next.None? then None else StepsVal(next.value, steps[1..], e, i, env)
  }

  function AggFrom(vs: seq<Val>, k: nat, acc: Val, steps: seq<Step>, env: Env): Option<Val>
    requires k <= |vs|
    decreases |vs| - k
  {
    if k == |vs| then Some(acc) else
    var next := StepsVal(acc, steps, vs[k], k, env);
    if next.None? then None else AggFrom(vs, k + 1, next.value, steps, env)
  }

  /** The first row from j on that has the key. */
  function FindRow(rows: seq<Val>, j: nat, key: Val): (r: Option<Option<nat>>)
    requires j <= |rows|
    ensures r.Some? && r.value.Some? ==> j <= r.value.value < |rows| && rows[r.value.value].Row?
    decreases |rows| - j
  {
    if j == |rows| then Some(None)
    else if !rows[j].Row? then None
    else
      var same := Truth(Apply(Equal, rows[j].key, key));
      if same.None? then None else if same.value then Some(Some(j)) else FindRow(rows, j + 1, key)
  }

  /** Adds e to the row with the key, or as a new last row. */
  function Place(rows: seq<Val>, key: Val, e: Val): Option<seq<Val>> {
    match FindRow(rows, 0, key)
    case None => None
    case Some(None) => Some(rows + [Row(key, [e])])
    case Some(Some(j)) => Some(rows[j := Row(rows[j].key, rows[j].rows + [e])])
  }

  function GroupFrom(vs: seq<Val>, k: nat, rows: seq<Val>, key: Body, env: Env): Option<seq<Val>>
    requires k <= |vs|
    decreases |vs| - k
  {
    if k == |vs| then Some(rows) else
    var v := BodyVal(key, vs[k], k, env);
    if v.None? then None else
    var next := Place(rows, v.value, vs[k]);
    if next.None? then None else GroupFrom(vs, k + 1, next.value, key, env)
  }

  /** A later y is to be exchanged with an earlier x. */
  function Exchanged(x: Val, y: Val, desc: bool): Option<bool> { Truth(Apply(if desc then Greater else Less, y, x)) }

  function SwapsKeys(left: Option<Val>, right: Option<Val>, desc: bool): Option<bool> {
    if left.None? || right.None? then None else Exchanged(left.value, right.value, desc)
  }

  /** Whether the sort exchanges an earlier l with a later r. */
  function Swaps(l: Val, r: Val, key: Body, desc: bool, env: Env): Option<bool> {
    SwapsKeys(BodyVal(key, l, 0, env), BodyVal(key, r, 0, env), desc)
  }

  function Exchange(vs: seq<Val>, o: nat, j: nat): seq<Val>
    requires o < |vs| && j < |vs|
  {
    vs[o := vs[j]][j := vs[o]]
  }

  function SortInner(vs: seq<Val>, o: nat, j: nat, key: Body, desc: bool, env: Env): Option<seq<Val>>
    requires o < |vs| && j <= |vs|
    ensures SortInner(vs, o, j, key, desc, env).Some? ==> |SortInner(vs, o, j, key, desc, env).value| == |vs|
    decreases |vs| - j
  {
    if j == |vs| then Some(vs) else
    var swap := Swaps(vs[o], vs[j], key, desc, env);
    if swap.None? then None else SortInner(if swap.value then Exchange(vs, o, j) else vs, o, j + 1, key, desc, env)
  }

  function SortFrom(vs: seq<Val>, o: nat, key: Body, desc: bool, env: Env): Option<seq<Val>>
    requires o <= |vs|
    ensures SortFrom(vs, o, key, desc, env).Some? ==> |SortFrom(vs, o, key, desc, env).value| == |vs|
    decreases |vs| - o
  {
    if o == |vs| then Some(vs) else
    var inner := SortInner(vs, o, o + 1, key, desc, env);
    if inner.None? then None else SortFrom(inner.value, o + 1, key, desc, env)
  }

  function Meaning(c: Chain, env: Env): Option<seq<Val>> {
    match c
    case From(x) => if User(x) in env && env[User(x)].A? then Some(env[User(x)].items) else None
    case Filt(d, t) => var vs := Meaning(d, env); if vs.None? then None else FiltFrom(vs.value, 0, t, env)
    case Upd(d, b) => var vs := Meaning(d, env); if vs.None? then None else UpdFrom(vs.value, 0, b, env)
    case Group(d, k) => var vs := Meaning(d, env); if vs.None? then None else GroupFrom(vs.value, 0, [], k, env)
    case Sort(d, k, desc) => var vs := Meaning(d, env); if vs.None? then None else SortFrom(vs.value, 0, k, desc, env)
  }

  function Answer(q: Query, env: Env): Option<Val> {
    var vs := Meaning(q.of, env);
    if vs.None? then None else
    match q
    case Items(_) => Some(A(vs.value))
    case Any(_, t) => var r := AnyFrom(vs.value, 0, t, env); if r.None? then None else Some(B(r.value))
    case Agg(_, zero, steps) => AggFrom(vs.value, 0, zero, steps, env)
  }
}
