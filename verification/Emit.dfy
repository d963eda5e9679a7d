/** The emitter of the fragment: copies on assignment and argument passing, the list of
    locals the generated function must drop, and the drops in front of every return. */
module Emit {
  import opened Wrappers
  import opened CasterAst

  /** Generated C expressions. */
  datatype CExpr =
    | CLit(s: string)
    | CInt(n: int)
    | CBool(b: bool)
    | CVar(x: Var)
    | CBinary(op: BinOp, left: CExpr, right: CExpr)
    | CCharAt(text: CExpr, index: CExpr)
    | CLen(text: CExpr)
    | CNot(e: CExpr)
    | CAnd(left: CExpr, right: CExpr)
    | COr(left: CExpr, right: CExpr)
    | CCond(test: CExpr, yes: CExpr, no: CExpr)
    | CCopy(e: CExpr)
    | CCall(fn: string, args: CArgs)

  datatype CArgs = CNoArgs | CArg(head: CExpr, tail: CArgs)

  /** Generated C statements. `CReturn` is the three-part text of a return: the value is
      stored in a temporary, the listed locals are dropped, the temporary is returned. */
  datatype CStmt =
    | CDeclare(x: Var, ty: Ty, init: CExpr)
    | CAssign(x: Var, value: CExpr)
    | CDrop(x: Var)
    | CReturn(value: CExpr, drops: seq<string>)
    | CReturnVoid(drops: seq<string>)
    | CExprStmt(e: CExpr)
    | CIf(branches: CBranches)
    | CFor(i: Var, start: CExpr, test: CExpr, step: CExpr, body: CBlock)
    | CEmpty

  datatype CBlock = CEnd | CThen(head: CStmt, tail: CBlock)

  datatype CBranches = CNoElse | CElse(otherwise: CBlock) | CArm(test: CExpr, body: CBlock, rest: CBranches)

  datatype CFn = CFn(params: seq<Param>, ret: Ty, body: CBlock)

  function Append(b: CBlock, more: CBlock): CBlock {
    match b case CEnd => more case CThen(s, rest) => CThen(s, Append(rest, more))
  }

  // ---- expressions ----

  /** Values that are read out of another owner: names and indexed reads. */
  predicate ShouldCopy(e: Expr) { e.Ref? || e.CharAt? }

  predicate InitializerMayOwn(e: Expr) { !e.Ref? && !e.CharAt? }

  predicate AssignmentMayOwn(ty: Ty, e: Expr) { ty == STR && (ShouldCopy(e) || InitializerMayOwn(e)) }

  function HeapCopy(ty: Ty, c: CExpr): CExpr { if ty == STR then CCopy(c) else c }

  function CheckedType(e: Expr): Ty
    requires ShouldCopy(e)
  {
    if e.Ref? then e.ty else STR
  }

  function EmitExpr(e: Expr): CExpr
    decreases e, 0
  {
    match e
    case StrLit(s) => CLit(s)
    case IntLit(n) => CInt(n)
    case BolLit(b) => CBool(b)
    case Ref(x, _) => CVar(x.Target())
    case Binary(op, l, r) => CBinary(op, EmitExpr(l), EmitExpr(r))
    case CharAt(o, i) => CCharAt(EmitExpr(o), EmitExpr(i))
    case Len(o) => CLen(EmitExpr(o))
    case Not(a) => CNot(EmitExpr(a))
    case And(l, r) => CAnd(EmitExpr(l), EmitExpr(r))
    case Or(l, r) => COr(EmitExpr(l), EmitExpr(r))
    case Cond(_, t, y, n) => CCond(EmitExpr(t), EmitExpr(y), EmitExpr(n))
    case Call(f, args) => CCall(f, EmitArgs(args))
  }

  function EmitArg(e: Expr): CExpr
    decreases e, 1
  {
    if ShouldCopy(e) then HeapCopy(CheckedType(e), EmitExpr(e)) else EmitExpr(e)
  }

  function EmitArgs(args: Args): CArgs
    decreases args, 0
  {
    match args case NoArgs => CNoArgs case Arg(e, rest) => CArg(EmitArg(e), EmitArgs(rest))
  }

  function EmitAssigned(ty: Ty, e: Expr): CExpr {
    if ShouldCopy(e) then HeapCopy(ty, EmitExpr(e)) else EmitExpr(e)
  }

  // ---- the owned-local list ----

  function OwnedAdd(owned: seq<string>, x: string, ty: Ty): seq<string> {
    if ty != STR || x in owned then owned else owned + [x]
  }

  function OwnedRemove(owned: seq<string>, x: string): seq<string> {
    if owned == [] then []
    else if owned[0] == x then owned[1..]
    else [owned[0]] + OwnedRemove(owned[1..], x)
  }

  /** A returned listed local is moved out instead of copied. */
  predicate ReturnsOwned(e: Expr, owned: seq<string>) { e.Ref? && e.name.text in owned }

  predicate ReturnIsBorrowed(e: Expr, owned: seq<string>) {
    if e.Ref? then !ReturnsOwned(e, owned) else e.CharAt?
  }

  function EmitReturned(e: Expr, owned: seq<string>): CExpr {
    if ReturnIsBorrowed(e, owned) then HeapCopy(CheckedType(e), EmitExpr(e)) else EmitExpr(e)
  }

  /** Drops run from the newest local to the oldest. */
  function Drops(owned: seq<string>, skip: Option<string>): seq<string> {
    if owned == [] then []
    else
      var last := owned[|owned| - 1];
      (if skip == Some(last) then [] else [last]) + Drops(owned[..|owned| - 1], skip)
  }

  function ReturnDrops(e: Expr, owned: seq<string>): seq<string> {
    Drops(owned, if ReturnsOwned(e, owned) then Some(e.name.text) else None)
  }

  // ---- statements; depth 1 is the function's own block ----

  function ListAdd(depth: nat, owned: seq<string>, x: string, ty: Ty): seq<string> {
    if depth == 1 then OwnedAdd(owned, x, ty) else owned
  }

  /** The list after a statement's text has been produced. */
  function ListAfter(s: Stmt, depth: nat, owned: seq<string>): seq<string>
    decreases s, 1
  {
    match s
    case Declare(ty, x, e) => if AssignmentMayOwn(ty, e) then ListAdd(depth, owned, x, ty) else owned
    case Assign(x, ty, e) => if AssignmentMayOwn(ty, e) then ListAdd(depth, owned, x.text, ty) else owned
    case AddAssign(x, ty, _) => ListAdd(depth, owned, x.text, ty)
    case Free(x) => OwnedRemove(owned, x.text)
    case If(branches) => ListAfterBranches(branches, depth, owned)
    case Loop(_, _, body) => ListAfterBlock(body, depth + 1, owned)
    case _ => owned
  }

  function ListAfterBlock(b: Block, depth: nat, owned: seq<string>): seq<string>
    decreases b, 0
  {
    match b case End => owned case Then(s, rest) => ListAfterBlock(rest, depth, ListAfter(s, depth, owned))
  }

  function ListAfterBranches(branches: Branches, depth: nat, owned: seq<string>): seq<string>
    decreases branches, 0
  {
    match branches
    case NoElse => owned
    case Else(b) => ListAfterBlock(b, depth + 1, owned)
    case Arm(_, body, rest) => ListAfterBranches(rest, depth, ListAfterBlock(body, depth + 1, owned))
  }

  function EmitAddAssign(x: NameRef, ty: Ty, e: Expr): CStmt {
    CAssign(x.Target(), CBinary(if ty == STR then Join else Plus, CVar(x.Target()), EmitExpr(e)))
  }

  function LoopStart(kind: LoopKind): CExpr { if kind.Range? then EmitExpr(kind.from) else CInt(0) }

  function LoopStep(kind: LoopKind): CExpr { if kind.Range? then EmitExpr(kind.step) else CInt(1) }

  /** A range goes up or down as its step says, asked again before each round. */
  function LoopTest(id: nat, kind: LoopKind): CExpr {
    match kind
    case Count(n) => CBinary(Less, CVar(LoopIndex(id)), EmitExpr(n))
    case Range(_, to, step) =>
      CCond(CNot(CBinary(Less, EmitExpr(step), CInt(0))),
            CBinary(Less, CVar(LoopIndex(id)), EmitExpr(to)), CBinary(Less, EmitExpr(to), CVar(LoopIndex(id))))
    case While(t) => EmitExpr(t)
    case Text(t) => CBinary(Less, CVar(LoopIndex(id)), CLen(EmitExpr(t)))
  }

  /** A text loop copies the character out at the top of each round and drops it at the end. */
  function LoopBody(id: nat, kind: LoopKind, body: CBlock): CBlock {
    if kind.Text? then
      CThen(CDeclare(LoopChar(id), STR, CCharAt(EmitExpr(kind.text), CVar(LoopIndex(id)))),
            Append(body, CThen(CDrop(LoopChar(id)), CEnd)))
    else body
  }

  function EmitBlock(b: Block, depth: nat, owned: seq<string>): CBlock
    decreases b, 0
  {
    match b
    case End => CEnd
    case Then(s, rest) =>
      var after := EmitBlock(rest, depth, ListAfter(s, depth, owned));
      if s.Free? then CThen(CDrop(s.target.Target()), CThen(CAssign(s.target.Target(), CLit("")), after))
      else CThen(EmitStmt(s, depth, owned), after)
  }

  function EmitStmt(s: Stmt, depth: nat, owned: seq<string>): CStmt
    requires !s.Free?
    decreases s, 1
  {
    match s
    case Declare(ty, x, e) => CDeclare(User(x), ty, EmitAssigned(ty, e))
    case Assign(x, ty, e) => CAssign(x.Target(), EmitAssigned(ty, e))
    case AddAssign(x, ty, e) => EmitAddAssign(x, ty, e)
    case Ret(None) => CReturnVoid(Drops(owned, None))
    case Ret(Some(e)) => CReturn(EmitReturned(e, owned), ReturnDrops(e, owned))
    case Discard(e) => CExprStmt(EmitExpr(e))
    case If(branches) => CIf(EmitBranches(branches, depth, owned))
    case Loop(id, kind, body) =>
      CFor(LoopIndex(id), LoopStart(kind), LoopTest(id, kind), LoopStep(kind),
           LoopBody(id, kind, EmitBlock(body, depth + 1, owned)))
    case Pass => CEmpty
  }

  function EmitBranches(branches: Branches, depth: nat, owned: seq<string>): CBranches
    decreases branches, 0
  {
    match branches
    case NoElse => CNoElse
    case Else(b) => CElse(EmitBlock(b, depth + 1, owned))
    case Arm(t, body, rest) =>
      CArm(EmitExpr(t), EmitBlock(body, depth + 1, owned),
           EmitBranches(rest, depth, ListAfterBlock(body, depth + 1, owned)))
  }

  function DropBlock(names: seq<string>): CBlock {
    if names == [] then CEnd else CThen(CDrop(User(names[0])), DropBlock(names[1..]))
  }

  predicate EndsWithReturn(b: Block) {
    b.Then? && (if b.tail == End then b.head.Ret? else EndsWithReturn(b.tail))
  }

  function EmitFn(fn: Fn): CFn {
    var body := EmitBlock(fn.body, 1, []);
    CFn(fn.params, fn.ret,
        if EndsWithReturn(fn.body) then body
        else Append(body, DropBlock(Drops(ListAfterBlock(fn.body, 1, []), None))))
  }

  function EmitProgram(p: Program): map<string, CFn> {
    map f | f in p :: EmitFn(p[f])
  }
}
