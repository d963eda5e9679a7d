/** Generated C over an explicit allocation heap. A string is either static text or a
    pointer to an owned block; reading or freeing a block that is not live is a fault. */
module Machine {
  import opened Wrappers
  import opened CasterAst
  import opened Emit

  datatype CVal = Static(text: string) | Owned(addr: nat) | IntVal(n: int) | BoolVal(b: bool) | Void

  /** Addresses are never handed out twice, so a stale pointer can never look live. */
  datatype Heap = Heap(next: nat, live: map<nat, string>)

  datatype CFlow = Next(env: Env<CVal>, heap: Heap) | Returned(v: CVal, heap: Heap)

  predicate IsText(v: CVal) { v.Static? || v.Owned? }

  function Read(h: Heap, v: CVal): Out<string> {
    match v
    case Static(s) => Done(s)
    case Owned(a) => if a in h.live then Done(h.live[a]) else Fault
    case _ => Wrong
  }

  function Alloc(h: Heap, s: string): (CVal, Heap) {
    (Owned(h.next), Heap(h.next + 1, h.live[h.next := s]))
  }

  /** flx_drop_str: frees an owned block, ignores static text. */
  function DropValue(h: Heap, v: CVal): Out<Heap> {
    match v
    case Static(_) => Done(h)
    case Owned(a) => if a in h.live then Done(h.(live := h.live - {a})) else Fault
    case _ => Wrong
  }

  function Apply(h: Heap, op: BinOp, a: CVal, b: CVal): Out<(CVal, Heap)> {
    match (op, a, b)
    case (Join, _, _) =>
      var s :- Read(h, a);
      var t :- Read(h, b);
      Done(Alloc(h, s + t))
    case (Eq, _, _) =>
      var s :- Read(h, a);
      var t :- Read(h, b);
      Done((BoolVal(s == t), h))
    case (Plus, IntVal(m), IntVal(n)) => Done((IntVal(m + n), h))
    case (Minus, IntVal(m), IntVal(n)) => Done((IntVal(m - n), h))
    case (Less, IntVal(m), IntVal(n)) => Done((BoolVal(m < n), h))
    case (Equal, IntVal(m), IntVal(n)) => Done((BoolVal(m == n), h))
    case _ => Wrong
  }

  /** flx_str_char_at. */
  function ApplyAt(h: Heap, a: CVal, k: CVal): Out<(CVal, Heap)> {
    var s :- Read(h, a);
    if !k.IntVal? then Wrong
    else if 0 <= k.n < |s| then Done(Alloc(h, [s[k.n]])) else Abort
  }

  type Code = map<string, CFn>

  function Eval(p: Code, fuel: nat, env: Env<CVal>, h: Heap, e: CExpr): Out<(CVal, Heap)>
    decreases fuel, 0, e
  {
    match e
    case CLit(s) => Done((Static(s), h))
    case CInt(n) => Done((IntVal(n), h))
    case CBool(b) => Done((BoolVal(b), h))
    case CVar(x) =>
      var v := Lookup(env, x);
      if v.Some? then Done((v.value, h)) else Wrong
    case CBinary(op, l, r) =>
      var (a, h1) :- Eval(p, fuel, env, h, l);
      var (b, h2) :- Eval(p, fuel, env, h1, r);
      Apply(h2, op, a, b)
    case CCharAt(o, i) =>
      var (a, h1) :- Eval(p, fuel, env, h, o);
      var (k, h2) :- Eval(p, fuel, env, h1, i);
      ApplyAt(h2, a, k)
    case CLen(o) =>
      var (a, h1) :- Eval(p, fuel, env, h, o);
      var s :- Read(h1, a);
      Done((IntVal(|s|), h1))
    case CNot(a) =>
      var (v, h1) :- Eval(p, fuel, env, h, a);
      if v.BoolVal? then Done((BoolVal(!v.b), h1)) else Wrong
    case CAnd(l, r) =>
      var (a, h1) :- Eval(p, fuel, env, h, l);
      if !a.BoolVal? then Wrong else if !a.b then Done((a, h1)) else
      var (b, h2) :- Eval(p, fuel, env, h1, r);
      if b.BoolVal? then Done((b, h2)) else Wrong
    case COr(l, r) =>
      var (a, h1) :- Eval(p, fuel, env, h, l);
      if !a.BoolVal? then Wrong else if a.b then Done((a, h1)) else
      var (b, h2) :- Eval(p, fuel, env, h1, r);
      if b.BoolVal? then Done((b, h2)) else Wrong
    case CCond(t, y, n) =>
      var (c, h1) :- Eval(p, fuel, env, h, t);
      if !c.BoolVal? then Wrong else Eval(p, fuel, env, h1, if c.b then y else n)
    case CCopy(a) =>
      var (v, h1) :- Eval(p, fuel, env, h, a);
      var s :- Read(h1, v);
      Done(Alloc(h1, s))
    case CCall(f, args) =>
      var (vs, h1) :- EvalArgs(p, fuel, env, h, args);
      if fuel == 0 then OutOfFuel else Run(p, fuel - 1, h1, f, vs)
  }

  function EvalArgs(p: Code, fuel: nat, env: Env<CVal>, h: Heap, args: CArgs): Out<(seq<CVal>, Heap)>
    decreases fuel, 0, args
  {
    match args
    case CNoArgs => Done(([], h))
    case CArg(e, rest) =>
      var (v, h1) :- Eval(p, fuel, env, h, e);
      var (vs, h2) :- EvalArgs(p, fuel, env, h1, rest);
      Done(([v] + vs, h2))
  }

  /** Calls a generated function; a non-void function that runs off its end has no value. */
  function Run(p: Code, fuel: nat, h: Heap, f: string, vals: seq<CVal>): Out<(CVal, Heap)>
    decreases fuel, 1
  {
    if f !in p || |p[f].params| != |vals| then Wrong else
    var flow :- Exec(p, fuel, Root(Bind(p[f].params, vals)), h, p[f].body);
    match flow
    case Returned(v, h1) => Done((v, h1))
    case Next(_, h1) => if p[f].ret == NUL then Done((Void, h1)) else FellOff
  }

  function DropNames(env: Env<CVal>, h: Heap, names: seq<string>): Out<Heap>
    decreases names
  {
    if names == [] then Done(h) else
    var v := Lookup(env, User(names[0]));
    if v.None? then Wrong else
    var h1 :- DropValue(h, v.value);
    DropNames(env, h1, names[1..])
  }

  function Leave(flow: CFlow): CFlow {
    if flow.Next? && flow.env.Inner? then Next(flow.env.outer, flow.heap) else flow
  }

  function Exec(p: Code, fuel: nat, env: Env<CVal>, h: Heap, b: CBlock): Out<CFlow>
    decreases fuel, 0, b, 1
  {
    match b
    case CEnd => Done(Next(env, h))
    case CThen(s, rest) =>
      var flow :- ExecStmt(p, fuel, env, h, s);
      if flow.Next? then Exec(p, fuel, flow.env, flow.heap, rest) else Done(flow)
  }

  function ExecStmt(p: Code, fuel: nat, env: Env<CVal>, h: Heap, s: CStmt): Out<CFlow>
    decreases fuel, 0, s, 1
  {
    match s
    case CDeclare(x, _, e) =>
      var (v, h1) :- Eval(p, fuel, env, h, e);
      if x in env.vars then Wrong else Done(Next(Put(env, x, v), h1))
    case CAssign(x, e) =>
      var (v, h1) :- Eval(p, fuel, env, h, e);
      if Lookup(env, x).None? then Wrong else Done(Next(Store(env, x, v), h1))
    case CDrop(x) =>
      var v := Lookup(env, x);
      if v.None? then Wrong else
      var h1 :- DropValue(h, v.value);
      Done(Next(env, h1))
    case CReturn(e, drops) =>
      var (v, h1) :- Eval(p, fuel, env, h, e);
      var h2 :- DropNames(env, h1, drops);
      Done(Returned(v, h2))
    case CReturnVoid(drops) =>
      var h1 :- DropNames(env, h, drops);
      Done(Returned(Void, h1))
    case CExprStmt(e) =>
      var (_, h1) :- Eval(p, fuel, env, h, e);
      Done(Next(env, h1))
    case CIf(branches) => ExecBranches(p, fuel, env, h, branches)
    case CFor(i, start, test, step, body) =>
      var (first, h1) :- Eval(p, fuel, env, h, start);
      if !first.IntVal? then Wrong else
      var flow :- Iterate(p, fuel, Inner(map[i := first], env), h1, i, test, step, body);
      Done(Leave(flow))
    case CEmpty => Done(Next(env, h))
  }

  function ExecBranches(p: Code, fuel: nat, env: Env<CVal>, h: Heap, branches: CBranches): Out<CFlow>
    decreases fuel, 0, branches, 1
  {
    match branches
    case CNoElse => Done(Next(env, h))
    case CElse(b) =>
      var flow :- Exec(p, fuel, Inner(map[], env), h, b);
      Done(Leave(flow))
    case CArm(test, body, rest) =>
      var (c, h1) :- Eval(p, fuel, env, h, test);
      if !c.BoolVal? then Wrong
      else if c.b then
        var flow :- Exec(p, fuel, Inner(map[], env), h1, body);
        Done(Leave(flow))
      else ExecBranches(p, fuel, env, h1, rest)
  }

  function Iterate(p: Code, fuel: nat, env: Env<CVal>, h: Heap, i: Var, test: CExpr, step: CExpr, body: CBlock): Out<CFlow>
    decreases fuel, 0, body, 2
  {
    if fuel == 0 then OutOfFuel else
    var (c, h1) :- Eval(p, fuel - 1, env, h, test);
    if !c.BoolVal? then Wrong else
    if !c.b then Done(Next(env, h1)) else
    var flow :- Exec(p, fuel - 1, Inner(map[], env), h1, body);
    if flow.Returned? then Done(flow) else
    var after := Leave(flow);
    var (d, h2) :- Eval(p, fuel - 1, after.env, after.heap, step);
    var k := Lookup(after.env, i);
    if k.None? || !k.value.IntVal? || !d.IntVal? then Wrong else
    Iterate(p, fuel - 1, Store(after.env, i, IntVal(k.value.n + d.n)), h2, i, test, step, body)
  }
}
