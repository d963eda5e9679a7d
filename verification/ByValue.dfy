/** The meaning of the fragment: strings are plain values, every name holds its own,
    and FREE leaves the empty string behind. There is no heap. */
module ByValue {
  import opened Wrappers
  import opened CasterAst

  datatype Val = VStr(s: string) | VInt(n: int) | VBol(b: bool) | VNul

  datatype Flow = Next(env: Env<Val>) | Returned(v: Val)

  function TypeOf(v: Val): Ty {
    match v case VStr(_) => STR case VInt(_) => INT case VBol(_) => BOL case VNul => NUL
  }

  function Apply(op: BinOp, a: Val, b: Val): Out<Val> {
    match (op, a, b)
    case (Join, VStr(s), VStr(t)) => Done(VStr(s + t))
    case (Eq, VStr(s), VStr(t)) => Done(VBol(s == t))
    case (Plus, VInt(m), VInt(n)) => Done(VInt(m + n))
    case (Minus, VInt(m), VInt(n)) => Done(VInt(m - n))
    case (Less, VInt(m), VInt(n)) => Done(VBol(m < n))
    case (Equal, VInt(m), VInt(n)) => Done(VBol(m == n))
    case _ => Wrong
  }

  function ApplyAt(a: Val, k: Val): Out<Val> {
    if !a.VStr? || !k.VInt? then Wrong
    else if 0 <= k.n < |a.s| then Done(VStr([a.s[k.n]])) else Abort
  }

  function Eval(p: Program, fuel: nat, env: Env<Val>, e: Expr): Out<Val>
    decreases fuel, 0, e
  {
    match e
    case StrLit(s) => Done(VStr(s))
    case IntLit(n) => Done(VInt(n))
    case BolLit(b) => Done(VBol(b))
    case Ref(x, ty) =>
      var v := Lookup(env, x.Target());
      if v.Some? && TypeOf(v.value) == ty then Done(v.value) else Wrong
    case Binary(op, l, r) =>
      var a :- Eval(p, fuel, env, l);
      var b :- Eval(p, fuel, env, r);
      Apply(op, a, b)
    case CharAt(o, i) =>
      var a :- Eval(p, fuel, env, o);
      var k :- Eval(p, fuel, env, i);
      ApplyAt(a, k)
    case Len(o) =>
      var a :- Eval(p, fuel, env, o);
      if a.VStr? then Done(VInt(|a.s|)) else Wrong
    case Not(a) =>
      var v :- Eval(p, fuel, env, a);
      if v.VBol? then Done(VBol(!v.b)) else Wrong
    case And(l, r) =>
      var a :- Eval(p, fuel, env, l);
      if !a.VBol? then Wrong else if !a.b then Done(a) else
      var b :- Eval(p, fuel, env, r);
      if b.VBol? then Done(b) else Wrong
    case Or(l, r) =>
      var a :- Eval(p, fuel, env, l);
      if !a.VBol? then Wrong else if a.b then Done(a) else
      var b :- Eval(p, fuel, env, r);
      if b.VBol? then Done(b) else Wrong
    case Cond(ty, t, y, n) =>
      var c :- Eval(p, fuel, env, t);
      if !c.VBol? then Wrong else
      var v :- Eval(p, fuel, env, if c.b then y else n);
      if TypeOf(v) == ty then Done(v) else Wrong
    case Call(f, args) =>
      var vs :- EvalArgs(p, fuel, env, args);
      if fuel == 0 then OutOfFuel else Run(p, fuel - 1, f, vs)
  }

  function EvalArgs(p: Program, fuel: nat, env: Env<Val>, args: Args): Out<seq<Val>>
    decreases fuel, 0, args
  {
    match args
    case NoArgs => Done([])
    case Arg(e, rest) =>
      var v :- Eval(p, fuel, env, e);
      var vs :- EvalArgs(p, fuel, env, rest);
      Done([v] + vs)
  }

  predicate ArgsFit(params: seq<Param>, vals: seq<Val>) {
    |params| == |vals| && forall i :: 0 <= i < |params| ==> TypeOf(vals[i]) == params[i].ty
  }

  /** Calls a function by name on values. */
  function Run(p: Program, fuel: nat, f: string, vals: seq<Val>): Out<Val>
    decreases fuel, 1
  {
    if f !in p || !ArgsFit(p[f].params, vals) then Wrong else
    var flow :- Exec(p, fuel, Root(Bind(p[f].params, vals)), p[f].body);
    match flow
    case Returned(v) => if TypeOf(v) == p[f].ret then Done(v) else Wrong
    case Next(_) => if p[f].ret == NUL then Done(VNul) else FellOff
  }

  /** A declaration may hide an outer local only when the type stays the same: the
      generated C drops a hidden local by its bare name. */
  predicate MayDeclare(env: Env<Val>, x: Var, ty: Ty) {
    x !in env.vars &&
    (Lookup(env, x).Some? ==> TypeOf(Lookup(env, x).value) == ty)
  }

  function Exec(p: Program, fuel: nat, env: Env<Val>, b: Block): Out<Flow>
    decreases fuel, 0, b, 1
  {
    match b
    case End => Done(Next(env))
    case Then(s, rest) =>
      var flow :- ExecStmt(p, fuel, env, s);
      if flow.Next? then Exec(p, fuel, flow.env, rest) else Done(flow)
  }

  function ExecStmt(p: Program, fuel: nat, env: Env<Val>, s: Stmt): Out<Flow>
    decreases fuel, 0, s, 1
  {
    match s
    case Declare(ty, x, e) =>
      var v :- Eval(p, fuel, env, e);
      if TypeOf(v) == ty && ty != NUL && MayDeclare(env, User(x), ty) then
        Done(Next(Put(env, User(x), v)))
      else Wrong
    case Assign(x, ty, e) =>
      var v :- Eval(p, fuel, env, e);
      var was := Lookup(env, x.Target());
      if was.Some? && TypeOf(was.value) == ty == TypeOf(v) then Done(Next(Store(env, x.Target(), v))) else Wrong
    case AddAssign(x, ty, e) =>
      var was := Lookup(env, x.Target());
      if was.None? || TypeOf(was.value) != ty then Wrong else
      var v :- Eval(p, fuel, env, e);
      var sum :- Apply(if ty == STR then Join else Plus, was.value, v);
      Done(Next(Store(env, x.Target(), sum)))
    case Free(x) =>
      var was := Lookup(env, x.Target());
      if was.Some? && was.value.VStr? then Done(Next(Store(env, x.Target(), VStr("")))) else Wrong
    case Ret(None) => Done(Returned(VNul))
    case Ret(Some(e)) =>
      var v :- Eval(p, fuel, env, e);
      Done(Returned(v))
    case Discard(e) =>
      var _ :- Eval(p, fuel, env, e);
      Done(Next(env))
    case If(branches) => ExecBranches(p, fuel, env, branches)
    case Loop(id, kind, body) =>
      var first :- Start(p, fuel, env, kind);
      if !first.VInt? then Wrong else
      var flow :- Iterate(p, fuel, Inner(map[LoopIndex(id) := first], env), id, kind, body);
      Done(Leave(flow))
    case Pass => Done(Next(env))
  }

  /** Closes the innermost scope. */
  function Leave(flow: Flow): Flow {
    if flow.Next? && flow.env.Inner? then Next(flow.env.outer) else flow
  }

  function ExecBranches(p: Program, fuel: nat, env: Env<Val>, branches: Branches): Out<Flow>
    decreases fuel, 0, branches, 1
  {
    match branches
    case NoElse => Done(Next(env))
    case Else(b) =>
      var flow :- Exec(p, fuel, Inner(map[], env), b);
      Done(Leave(flow))
    case Arm(test, body, rest) =>
      var c :- Eval(p, fuel, env, test);
      if !c.VBol? then Wrong
      else if c.b then
        var flow :- Exec(p, fuel, Inner(map[], env), body);
        Done(Leave(flow))
      else ExecBranches(p, fuel, env, rest)
  }

  /** What a loop's counter starts from. */
  function Start(p: Program, fuel: nat, env: Env<Val>, kind: LoopKind): Out<Val>
    decreases fuel, 0, kind, 0
  {
    if kind.Range? then Eval(p, fuel, env, kind.from) else Done(VInt(0))
  }

  /** What it grows by after a round. */
  function Stride(p: Program, fuel: nat, env: Env<Val>, kind: LoopKind): Out<Val>
    decreases fuel, 0, kind, 0
  {
    if kind.Range? then Eval(p, fuel, env, kind.step) else Done(VInt(1))
  }

  /** Whether another round runs, and the variables it starts with. */
  function Enter(p: Program, fuel: nat, env: Env<Val>, id: nat, kind: LoopKind): Out<Option<map<Var, Val>>>
    decreases fuel, 0, kind, 0
  {
    var i := Lookup(env, LoopIndex(id));
    if i.None? || !i.value.VInt? then Wrong else
    match kind
    case Count(n) =>
      var v :- Eval(p, fuel, env, n);
      if !v.VInt? then Wrong else Done(if i.value.n < v.n then Some(map[]) else None)
    case Range(_, to, step) =>
      var d :- Eval(p, fuel, env, step);
      if !d.VInt? then Wrong else
      var v :- Eval(p, fuel, env, to);
      if !v.VInt? then Wrong
      else Done(if (if d.n >= 0 then i.value.n < v.n else v.n < i.value.n) then Some(map[]) else None)
    case While(t) =>
      var v :- Eval(p, fuel, env, t);
      if !v.VBol? then Wrong else Done(if v.b then Some(map[]) else None)
    case Text(t) =>
      var v :- Eval(p, fuel, env, t);
      if !v.VStr? then Wrong
      else if i.value.n >= |v.s| then Done(None)
      else if i.value.n < 0 then Abort
      else Done(Some(map[LoopChar(id) := VStr([v.s[i.value.n]])]))
  }

  /** Rounds of a loop: the bound, test, text or step is evaluated again in every round. */
  function Iterate(p: Program, fuel: nat, env: Env<Val>, id: nat, kind: LoopKind, body: Block): Out<Flow>
    decreases fuel, 0, Loop(id, kind, body), 0
  {
    if fuel == 0 then OutOfFuel else
    var round :- Enter(p, fuel - 1, env, id, kind);
    if round.None? then Done(Next(env)) else
    var flow :- Exec(p, fuel - 1, Inner(round.value, env), body);
    if flow.Returned? then Done(flow) else
    var after := Leave(flow).env;
    var d :- Stride(p, fuel - 1, after, kind);
    var i := Lookup(after, LoopIndex(id));
    if i.None? || !i.value.VInt? || !d.VInt? then Wrong else
    Iterate(p, fuel - 1, Store(after, LoopIndex(id), VInt(i.value.n + d.n)), id, kind, body)
  }
}
