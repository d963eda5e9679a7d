/** Where a conditional value may hand a name's block to a second owner: the emitter copies a
    bare name or an indexed read that is stored or returned, and nothing else. */
module LoweringGuard {
  import opened Wrappers
  import opened CasterAst
  import opened Emit
  import opened LoweringHeap

  /** The names whose own block may be the value of e. */
  function Leaves(e: Expr): set<Var>
    decreases e, 1
  {
    if e.Ref? && e.ty == STR then {e.name.Target()} else CondLeaves(e)
  }

  /** Of those, the ones a conditional value picks, which are not copied. */
  function CondLeaves(e: Expr): set<Var>
    decreases e, 0
  {
    if e.Cond? then Leaves(e.yes) + Leaves(e.no) else {}
  }

  predicate IsParameter(x: Var, params: set<string>) { x.User? && x.name in params }

  /** A local of the cleanup list or a parameter: its block does not go with a returned value. */
  predicate Stays(x: Var, owned: seq<string>, params: set<string>) { x.User? && (x.name in owned || x.name in params) }

  /** What each position asks of its value: a declared variable takes no name's block; an
      assigned one takes none but a local's own; a returned one is not the block of a listed
      local or a parameter. The analyzer itself refuses to FREE a parameter. Operands,
      arguments, tests, loop texts and values thrown away are unrestricted. */
  predicate GuardedStmt(s: Stmt, depth: nat, owned: seq<string>, params: set<string>)
    decreases s, 1
  {
    match s
    case Declare(ty, _, e) => ty == STR ==> CondLeaves(e) == {}
    case Assign(x, ty, e) => ty == STR ==> forall y :: y in CondLeaves(e) ==> y == x.Target() && !IsParameter(y, params)
    case Ret(Some(e)) => forall y :: y in CondLeaves(e) ==> !Stays(y, owned, params)
    case Free(x) => !IsParameter(x.Target(), params)
    case If(branches) => GuardedBranches(branches, depth, owned, params)
    case Loop(_, _, body) => GuardedBlock(body, depth + 1, owned, params)
    case _ => true
  }

  predicate GuardedBlock(b: Block, depth: nat, owned: seq<string>, params: set<string>)
    decreases b, 0
  {
    b.Then? ==>
      GuardedStmt(b.head, depth, owned, params) && GuardedBlock(b.tail, depth, ListAfter(b.head, depth, owned), params)
  }

  predicate GuardedBranches(branches: Branches, depth: nat, owned: seq<string>, params: set<string>)
    decreases branches, 0
  {
    match branches
    case NoElse => true
    case Else(b) => GuardedBlock(b, depth + 1, owned, params)
    case Arm(_, b, rest) =>
      GuardedBlock(b, depth + 1, owned, params) && GuardedBranches(rest, depth, ListAfterBlock(b, depth + 1, owned), params)
  }

  predicate GuardedFn(fn: Fn) { GuardedBlock(fn.body, 1, [], ParamNames(fn.params)) }

  predicate GuardedProgram(p: Program) { forall f {:trigger GuardedFn(p[f])} :: f in p ==> GuardedFn(p[f]) }

  // ---- what the guard never refuses ----

  /** No conditional value is declared, assigned or returned, and no parameter is freed. */
  predicate PlainStmt(s: Stmt, params: set<string>)
    decreases s, 1
  {
    match s
    case Declare(_, _, e) => !e.Cond?
    case Assign(_, _, e) => !e.Cond?
    case Ret(Some(e)) => !e.Cond?
    case Free(x) => !(x.Target().User? && x.Target().name in params)
    case If(branches) => PlainBranches(branches, params)
    case Loop(_, _, body) => PlainBlock(body, params)
    case _ => true
  }

  predicate PlainBlock(b: Block, params: set<string>)
    decreases b, 0
  {
    b.Then? ==> PlainStmt(b.head, params) && PlainBlock(b.tail, params)
  }

  predicate PlainBranches(branches: Branches, params: set<string>)
    decreases branches, 0
  {
    match branches
    case NoElse => true
    case Else(b) => PlainBlock(b, params)
    case Arm(_, b, rest) => PlainBlock(b, params) && PlainBranches(rest, params)
  }

  lemma {:induction false} PlainIsGuarded(b: Block, depth: nat, owned: seq<string>, params: set<string>)
    requires PlainBlock(b, params)
    ensures GuardedBlock(b, depth, owned, params)
    decreases b, 0
  {
    if b.Then? {
      PlainStmtGuarded(b.head, depth, owned, params);
      PlainIsGuarded(b.tail, depth, ListAfter(b.head, depth, owned), params);
    }
  }

  lemma {:induction false} PlainStmtGuarded(s: Stmt, depth: nat, owned: seq<string>, params: set<string>)
    requires PlainStmt(s, params)
    ensures GuardedStmt(s, depth, owned, params)
    decreases s, 1
  {
    match s
    case If(branches) => PlainBranchesGuarded(branches, depth, owned, params);
    case Loop(_, _, body) => PlainIsGuarded(body, depth + 1, owned, params);
    case _ =>
  }

  lemma {:induction false} PlainBranchesGuarded(branches: Branches, depth: nat, owned: seq<string>, params: set<string>)
    requires PlainBranches(branches, params)
    ensures GuardedBranches(branches, depth, owned, params)
    decreases branches, 0
  {
    match branches
    case NoElse =>
    case Else(b) => PlainIsGuarded(b, depth + 1, owned, params);
    case Arm(_, b, rest) =>
      PlainIsGuarded(b, depth + 1, owned, params);
      PlainBranchesGuarded(rest, depth, ListAfterBlock(b, depth + 1, owned), params);
  }

  /** Every program without conditional values in those positions meets the guard. */
  lemma {:induction false} PlainProgramIsGuarded(p: Program)
    requires forall f :: f in p ==> PlainBlock(p[f].body, ParamNames(p[f].params))
    ensures GuardedProgram(p)
  {
    forall f | f in p ensures GuardedFn(p[f]) { PlainIsGuarded(p[f].body, 1, [], ParamNames(p[f].params)); }
  }
}
