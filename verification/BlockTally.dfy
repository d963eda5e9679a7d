/** Blocks counted along a by-value run, without a heap: for each variable whether it holds a
    block, and how many more blocks there are after than before. */
module BlockTally {
  import opened Wrappers
  import opened CasterAst
  import S = ByValue
  import opened Emit
  import opened LoweringSource

  /** Of an expression: blocks gained, and whether its value is a block. */
  datatype Cost = Cost(made: int, block: bool)

  /** Of statements: which variables hold blocks afterwards, blocks gained, and whether a
      returned value is a block. */
  datatype Tally = Tally(bits: Env<bool>, made: int, block: bool)

  function One(b: bool): int { if b then 1 else 0 }

  function Bit(be: Env<bool>, x: Var): bool { Lookup(be, x) == Some(true) }

  function SetBit(be: Env<bool>, x: Var, b: bool): Env<bool> { if Lookup(be, x).Some? then Store(be, x, b) else be }

  /** How many of the names hold a block. */
  function Held(be: Env<bool>, names: seq<string>): nat {
    if names == [] then 0 else One(Bit(be, User(names[0]))) + Held(be, names[1..])
  }

  function IsTrue(v: Out<S.Val>): bool { v == Done(S.VBol(true)) }

  function EvalTally(p: Program, fuel: nat, se: Env<S.Val>, be: Env<bool>, e: Expr): Cost
    decreases fuel, 0, e, 0
  {
    match e
    case StrLit(_) => Cost(0, false)
    case IntLit(_) => Cost(0, false)
    case BolLit(_) => Cost(0, false)
    case Ref(x, ty) => Cost(0, ty == STR && Bit(be, x.Target()))
    case Binary(op, l, r) =>
      Cost(EvalTally(p, fuel, se, be, l).made + EvalTally(p, fuel, se, be, r).made + One(op == Join), op == Join)
    case CharAt(o, i) => Cost(EvalTally(p, fuel, se, be, o).made + EvalTally(p, fuel, se, be, i).made + 1, true)
    case Len(a) => Cost(EvalTally(p, fuel, se, be, a).made, false)
    case Not(a) => Cost(EvalTally(p, fuel, se, be, a).made, false)
    case And(l, r) =>
      Cost(EvalTally(p, fuel, se, be, l).made + if IsTrue(S.Eval(p, fuel, se, l)) then EvalTally(p, fuel, se, be, r).made else 0, false)
    case Or(l, r) =>
      Cost(EvalTally(p, fuel, se, be, l).made + if IsTrue(S.Eval(p, fuel, se, l)) then 0 else EvalTally(p, fuel, se, be, r).made, false)
    case Cond(ty, t, y, n) =>
      var picked := if IsTrue(S.Eval(p, fuel, se, t)) then EvalTally(p, fuel, se, be, y) else EvalTally(p, fuel, se, be, n);
      Cost(EvalTally(p, fuel, se, be, t).made + picked.made, ty == STR && picked.block)
    case Call(f, args) =>
      var vs := S.EvalArgs(p, fuel, se, args);
      if fuel == 0 || !vs.Done? then Cost(0, false) else
      var run := RunTally(p, fuel - 1, f, vs.value, ArgBits(p, fuel, se, be, args));
      Cost(ArgsTally(p, fuel, se, be, args) + run.made, run.block)
  }

  /** A copy of a text read is one more block. */
  function Copied(c: Cost, e: Expr, ty: Ty): Cost { if ShouldCopy(e) && ty == STR then Cost(c.made + 1, true) else c }

  function ArgType(e: Expr): Ty { if ShouldCopy(e) then CheckedType(e) else NUL }

  function ArgsTally(p: Program, fuel: nat, se: Env<S.Val>, be: Env<bool>, args: Args): int
    decreases fuel, 0, args, 0
  {
    match args
    case NoArgs => 0
    case Arg(e, rest) => Copied(EvalTally(p, fuel, se, be, e), e, ArgType(e)).made + ArgsTally(p, fuel, se, be, rest)
  }

  function ArgBits(p: Program, fuel: nat, se: Env<S.Val>, be: Env<bool>, args: Args): seq<bool>
    decreases fuel, 0, args, 0
  {
    match args
    case NoArgs => []
    case Arg(e, rest) => [Copied(EvalTally(p, fuel, se, be, e), e, ArgType(e)).block] + ArgBits(p, fuel, se, be, rest)
  }

  function RunTally(p: Program, fuel: nat, f: string, vs: seq<S.Val>, bits: seq<bool>): Cost
    decreases fuel, 1
  {
    if f !in p || !S.ArgsFit(p[f].params, vs) || |bits| != |vs| then Cost(0, false) else
    var fn := p[f];
    var se, be := Root(Bind(fn.params, vs)), Root(Bind(fn.params, bits));
    var t := ExecTally(p, fuel, se, be, fn.body, 1, []);
    var flow := S.Exec(p, fuel, se, fn.body);
    if flow.Done? && flow.value.Returned? then Cost(t.made, fn.ret == STR && t.block)
    else Cost(t.made - Held(t.bits, Drops(ListAfterBlock(fn.body, 1, []), None)), false)
  }

  function ExecTally(p: Program, fuel: nat, se: Env<S.Val>, be: Env<bool>, b: Block, depth: nat, owned: seq<string>): Tally
    decreases fuel, 0, b, 1
  {
    match b
    case End => Tally(be, 0, false)
    case Then(s, rest) =>
      var t := StmtTally(p, fuel, se, be, s, depth, owned);
      var flow := S.ExecStmt(p, fuel, se, s);
      if flow.Done? && flow.value.Next? then
        var u := ExecTally(p, fuel, flow.value.env, t.bits, rest, depth, ListAfter(s, depth, owned));
        Tally(u.bits, t.made + u.made, u.block)
      else t
  }

  function StmtTally(p: Program, fuel: nat, se: Env<S.Val>, be: Env<bool>, s: Stmt, depth: nat, owned: seq<string>): Tally
    decreases fuel, 0, s, 1
  {
    match s
    case Declare(ty, x, e) =>
      var c := Copied(EvalTally(p, fuel, se, be, e), e, ty);
      Tally(Put(be, User(x), c.block), c.made, false)
    case Assign(x, ty, e) =>
      var c := Copied(EvalTally(p, fuel, se, be, e), e, ty);
      Tally(SetBit(be, x.Target(), c.block), c.made, false)
    case AddAssign(x, ty, e) =>
      Tally(SetBit(be, x.Target(), ty == STR), EvalTally(p, fuel, se, be, e).made + One(ty == STR), false)
    case Free(x) => Tally(SetBit(be, x.Target(), false), -One(Bit(be, x.Target())), false)
    case Ret(None) => Tally(be, -(Held(be, Drops(owned, None)) as int), false)
    case Ret(Some(e)) =>
      var c := EvalTally(p, fuel, se, be, e);
      var r := if ReturnIsBorrowed(e, owned) then Copied(c, e, ArgType(e)) else c;
      Tally(be, r.made - Held(be, ReturnDrops(e, owned)), r.block)
    case Discard(e) => Tally(be, EvalTally(p, fuel, se, be, e).made, false)
    case If(branches) => BranchTally(p, fuel, se, be, branches, depth, owned)
    case Loop(id, kind, body) =>
      var first := S.Start(p, fuel, se, kind);
      var made := if kind.Range? then EvalTally(p, fuel, se, be, kind.from).made else 0;
      if !first.Done? then Tally(be, made, false) else
      var i := LoopIndex(id);
      var t := IterateTally(p, fuel, Inner(map[i := first.value], se), Inner(map[i := false], be), id, kind, body, depth, owned);
      Tally(Outer(t.bits), made + t.made, t.block)
    case Pass => Tally(be, 0, false)
  }

  function Outer(be: Env<bool>): Env<bool> { if be.Inner? then be.outer else be }

  function BranchTally(p: Program, fuel: nat, se: Env<S.Val>, be: Env<bool>, branches: Branches, depth: nat, owned: seq<string>): Tally
    decreases fuel, 0, branches, 1
  {
    match branches
    case NoElse => Tally(be, 0, false)
    case Else(b) => ScopeTally(p, fuel, se, be, map[], map[], b, depth, owned)
    case Arm(test, body, rest) =>
      var made := EvalTally(p, fuel, se, be, test).made;
      var t := if IsTrue(S.Eval(p, fuel, se, test)) then ScopeTally(p, fuel, se, be, map[], map[], body, depth, owned)
               else BranchTally(p, fuel, se, be, rest, depth, ListAfterBlock(body, depth + 1, owned));
      Tally(t.bits, made + t.made, t.block)
  }

  /** A nested block; the bits are those left when its scope has closed. */
  function ScopeTally(p: Program, fuel: nat, se: Env<S.Val>, be: Env<bool>, m: map<Var, S.Val>, bits: map<Var, bool>, b: Block,
                      depth: nat, owned: seq<string>): Tally
    decreases fuel, 0, b, 2
  {
    var t := ExecTally(p, fuel, Inner(m, se), Inner(bits, be), b, depth + 1, owned);
    Tally(Outer(t.bits), t.made, t.block)
  }

  /** What the test of one round costs. */
  function TestTally(p: Program, fuel: nat, se: Env<S.Val>, be: Env<bool>, kind: LoopKind): int
    decreases fuel, 0, kind, 0
  {
    match kind
    case Count(n) => EvalTally(p, fuel, se, be, n).made
    case Range(_, to, step) => EvalTally(p, fuel, se, be, step).made + EvalTally(p, fuel, se, be, to).made
    case While(t) => EvalTally(p, fuel, se, be, t).made
    case Text(t) => EvalTally(p, fuel, se, be, t).made
  }

  /** One round: its test, a text loop's character, the body, and the character's drop. */
  function RoundTally(p: Program, fuel: nat, se: Env<S.Val>, be: Env<bool>, id: nat, kind: LoopKind, m: map<Var, S.Val>, body: Block,
                      depth: nat, owned: seq<string>): Tally
    decreases fuel, 0, body, 3
  {
    if !kind.Text? then ScopeTally(p, fuel, se, be, m, map[], body, depth, owned) else
    var t := ExecTally(p, fuel, Inner(m, se), Inner(map[LoopChar(id) := true], be), body, depth + 1, owned);
    var flow := S.Exec(p, fuel, Inner(m, se), body);
    Tally(Outer(t.bits), t.made + if flow.Done? && flow.value.Next? then -One(Bit(t.bits, LoopChar(id))) else 0, t.block)
  }

  /** The copied character, made inside the round's scope. */
  function CharTally(p: Program, fuel: nat, se: Env<S.Val>, be: Env<bool>, kind: LoopKind): int
    decreases fuel, 0, kind, 0
  {
    if kind.Text? then EvalTally(p, fuel, Inner(map[], se), Inner(map[], be), kind.text).made + 1 else 0
  }

  function StrideTally(p: Program, fuel: nat, se: Env<S.Val>, be: Env<bool>, kind: LoopKind): int
    decreases fuel, 0, kind, 0
  {
    if kind.Range? then EvalTally(p, fuel, se, be, kind.step).made else 0
  }

  function IterateTally(p: Program, fuel: nat, se: Env<S.Val>, be: Env<bool>, id: nat, kind: LoopKind, body: Block,
                        depth: nat, owned: seq<string>): Tally
    decreases fuel, 0, Loop(id, kind, body), 0
  {
    if fuel == 0 then Tally(be, 0, false) else
    var k := fuel - 1;
    var test := TestTally(p, k, se, be, kind);
    var round := S.Enter(p, k, se, id, kind);
    if !round.Done? || round.value.None? then Tally(be, test, false) else
    var m := round.value.value;
    var t := RoundTally(p, k, se, be, id, kind, m, body, depth, owned);
    var made := test + CharTally(p, k, se, be, kind) + t.made;
    var flow := S.Exec(p, k, Inner(m, se), body);
    if !flow.Done? || flow.value.Returned? then Tally(t.bits, made, t.block) else
    NextTally(p, k, S.Leave(flow.value).env, t.bits, made, id, kind, body, depth, owned)
  }

  /** After a round: the step, and the rounds that follow. */
  function NextTally(p: Program, k: nat, se: Env<S.Val>, be: Env<bool>, made: int, id: nat, kind: LoopKind, body: Block,
                     depth: nat, owned: seq<string>): Tally
    decreases k, 0, Loop(id, kind, body), 1
  {
    var x := LoopIndex(id);
    var i, d := Lookup(se, x), S.Stride(p, k, se, kind);
    if i.None? || !i.value.VInt? || !d.Done? || !d.value.VInt? then Tally(be, made, false) else
    var t := IterateTally(p, k, Store(se, x, S.VInt(i.value.n + d.value.n)), SetBit(be, x, false), id, kind, body, depth, owned);
    Tally(t.bits, made + StrideTally(p, k, se, be, kind) + t.made, t.block)
  }

  lemma {:induction false} NextCost(p: Program, k: nat, se: Env<S.Val>, be: Env<bool>, made: int, n: int, id: nat, kind: LoopKind, body: Block,
                                    depth: nat, owned: seq<string>)
    requires var i, d := Lookup(se, LoopIndex(id)), S.Stride(p, k, se, kind);
             i.Some? && i.value.VInt? && d.Done? && d.value.VInt? && n == i.value.n + d.value.n
    ensures var t := IterateTally(p, k, Store(se, LoopIndex(id), S.VInt(n)), SetBit(be, LoopIndex(id), false), id, kind, body, depth, owned);
            NextTally(p, k, se, be, made, id, kind, body, depth, owned)
              == t.(made := made + StrideTally(p, k, se, be, kind) + t.made)
  {
  }

  lemma {:induction false} LoopTally(p: Program, fuel: nat, se: Env<S.Val>, be: Env<bool>, id: nat, kind: LoopKind, body: Block, depth: nat,
                                     owned: seq<string>, first: Out<S.Val>, made: int)
    requires first == S.Start(p, fuel, se, kind) && made == if kind.Range? then EvalTally(p, fuel, se, be, kind.from).made else 0
    ensures first.Done? ==>
              var i := LoopIndex(id);
              var t := IterateTally(p, fuel, Inner(map[i := first.value], se), Inner(map[i := false], be), id, kind, body, depth, owned);
              StmtTally(p, fuel, se, be, Loop(id, kind, body), depth, owned) == Tally(Outer(t.bits), made + t.made, t.block)
  {
  }

  /** A round with its character. */
  ghost function RoundCost(p: Program, k: nat, se: Env<S.Val>, be: Env<bool>, id: nat, kind: LoopKind, m: map<Var, S.Val>, body: Block,
                           depth: nat, owned: seq<string>): Tally
  {
    var t := RoundTally(p, k, se, be, id, kind, m, body, depth, owned);
    t.(made := CharTally(p, k, se, be, kind) + t.made)
  }

  ghost function TurnCost(p: Program, k: nat, se: Env<S.Val>, be: Env<bool>, id: nat, kind: LoopKind, m: map<Var, S.Val>, body: Block,
                          depth: nat, owned: seq<string>): Tally
  {
    var c := RoundCost(p, k, se, be, id, kind, m, body, depth, owned);
    c.(made := TestTally(p, k, se, be, kind) + c.made)
  }

  ghost function AfterRound(p: Program, k: nat, sf: Out<S.Flow>, c: Tally, id: nat, kind: LoopKind, body: Block, depth: nat,
                            owned: seq<string>): Tally
  {
    if sf.Done? && sf.value.Next? then NextTally(p, k, sf.value.env, c.bits, c.made, id, kind, body, depth, owned) else c
  }

  lemma {:induction false} IterateRests(p: Program, k: nat, se: Env<S.Val>, be: Env<bool>, id: nat, kind: LoopKind, body: Block, depth: nat,
                                        owned: seq<string>)
    requires S.Enter(p, k, se, id, kind) == Done(None)
    ensures S.Iterate(p, k + 1, se, id, kind, body) == Done(S.Next(se))
    ensures IterateTally(p, k + 1, se, be, id, kind, body, depth, owned) == Tally(be, TestTally(p, k, se, be, kind), false)
  {
  }

  lemma {:induction false} IterateUnfolds(p: Program, k: nat, se: Env<S.Val>, be: Env<bool>, id: nat, kind: LoopKind, m: map<Var, S.Val>,
                                          body: Block, depth: nat, owned: seq<string>)
    requires S.Enter(p, k, se, id, kind) == Done(Some(m))
    requires S.Exec(p, k, Inner(m, se), body).Done?
    ensures IterateTally(p, k + 1, se, be, id, kind, body, depth, owned) ==
              AfterRound(p, k, SLeave(S.Exec(p, k, Inner(m, se), body)), TurnCost(p, k, se, be, id, kind, m, body, depth, owned),
                         id, kind, body, depth, owned)
  {
  }
}
