/** A class of functions, read off the text, whose calls lose no block: each condition rules
    out one way of losing found in `BlockLosses`. */
module BalancedCalls {
  import opened Wrappers
  import opened CasterAst
  import S = ByValue
  import opened Emit
  import opened LoweringSource
  import opened LoweringSteps
  import opened BlockTally
  import opened BlockLosses

  // ---- expressions ----

  /** Evaluating e makes no block. */
  predicate Quiet(p: Program, e: Expr)
    decreases e
  {
    match e
    case Binary(op, l, r) => op != Join && Quiet(p, l) && Quiet(p, r)
    case CharAt(_, _) => false
    case Len(a) => Quiet(p, a)
    case Not(a) => Quiet(p, a)
    case And(l, r) => Quiet(p, l) && Quiet(p, r)
    case Or(l, r) => Quiet(p, l) && Quiet(p, r)
    case Cond(_, t, y, n) => Quiet(p, t) && Quiet(p, y) && Quiet(p, n)
    case Call(f, args) => f in p && p[f].ret != STR && QuietArgs(p, args)
    case _ => true
  }

  /** Nor does passing the arguments: no text name among them is copied. */
  predicate QuietArgs(p: Program, args: Args)
    decreases args
  {
    args.Arg? ==> Quiet(p, args.head) && (args.head.Ref? ==> args.head.ty != STR) && QuietArgs(p, args.tail)
  }

  /** Evaluating e makes its own value at most. */
  predicate OneBlock(p: Program, e: Expr)
    decreases e
  {
    match e
    case Ref(_, ty) => ty != STR
    case Binary(_, l, r) => Quiet(p, l) && Quiet(p, r)
    case Call(_, args) => QuietArgs(p, args)
    case Cond(_, t, y, n) => Quiet(p, t) && OneBlock(p, y) && OneBlock(p, n)
    case _ => Quiet(p, e)
  }

  /** A value that is stored or returned: a name is copied or moved. */
  predicate Storable(p: Program, e: Expr) { e.Ref? || OneBlock(p, e) }

  /** The value is static text on every path. */
  predicate Bare(e: Expr) { e.StrLit? || (e.Cond? && Bare(e.yes) && Bare(e.no)) }

  predicate MayOwn(ty: Ty, e: Expr) { ty == STR && !Bare(e) }

  predicate QuietKind(p: Program, kind: LoopKind) {
    match kind
    case Count(n) => Quiet(p, n)
    case Range(from, to, step) => Quiet(p, from) && Quiet(p, to) && Quiet(p, step)
    case While(t) => Quiet(p, t)
    case Text(t) => Quiet(p, t)
  }

  // ---- statements ----

  /** Names that hold no block after s on every path; below the function's block names only leave. */
  function CleanAfter(s: Stmt, depth: nat, clean: set<string>): set<string>
    decreases s, 1
  {
    match s
    case Declare(ty, x, e) => if depth != 1 then clean else if MayOwn(ty, e) then clean - {x} else clean + {x}
    case Assign(x, ty, e) => if MayOwn(ty, e) then clean - {x.text} else if depth == 1 then clean + {x.text} else clean
    case AddAssign(x, ty, _) => if ty == STR then clean - {x.text} else clean
    case Free(x) => clean + {x.text}
    case If(branches) => CleanAfterBranches(branches, depth, clean)
    case _ => clean
  }

  function CleanAfterBlock(b: Block, depth: nat, clean: set<string>): set<string>
    decreases b, 0
  {
    match b case End => clean case Then(s, rest) => CleanAfterBlock(rest, depth, CleanAfter(s, depth, clean))
  }

  function CleanAfterBranches(branches: Branches, depth: nat, clean: set<string>): set<string>
    decreases branches, 0
  {
    match branches
    case NoElse => clean
    case Else(b) => CleanAfterBlock(b, depth + 1, clean)
    case Arm(_, body, rest) => CleanAfterBranches(rest, depth, CleanAfterBlock(body, depth + 1, clean))
  }

  /** A text target is written when its old block is not lost and its new one is listed. */
  predicate MayStore(x: string, owns: bool, depth: nat, owned: seq<string>, clean: set<string>) {
    (x !in owned || x in clean) && (owns ==> depth == 1 || x in owned)
  }

  predicate BalancedStmt(p: Program, s: Stmt, depth: nat, owned: seq<string>, clean: set<string>, mayReturn: bool)
    decreases s, 1
  {
    match s
    case Declare(ty, x, e) => Storable(p, e) && (depth == 1 || (x !in owned && x !in clean && !MayOwn(ty, e)))
    case Assign(x, ty, e) => x.Plain? && Storable(p, e) && (ty == STR ==> MayStore(x.text, !Bare(e), depth, owned, clean))
    case AddAssign(x, ty, e) => x.Plain? && Quiet(p, e) && (ty == STR ==> MayStore(x.text, true, depth, owned, clean))
    case Free(x) => x.Plain? && (x.text in clean || (depth == 1 && x.text in owned))
    case Ret(None) => mayReturn
    case Ret(Some(e)) => mayReturn && Storable(p, e) && (e.Ref? ==> e.name.Plain?)
    case Discard(e) => Quiet(p, e)
    case If(branches) => BalancedBranches(p, branches, depth, owned, clean, mayReturn)
    case Loop(_, kind, body) =>
      && QuietKind(p, kind) && BalancedBlock(p, body, depth + 1, owned, clean, mayReturn && !kind.Text?)
      && CleanAfterBlock(body, depth + 1, clean) == clean
    case Pass => true
  }

  predicate BalancedBlock(p: Program, b: Block, depth: nat, owned: seq<string>, clean: set<string>, mayReturn: bool)
    decreases b, 0
  {
    b.Then? ==>
      && BalancedStmt(p, b.head, depth, owned, clean, mayReturn)
      && BalancedBlock(p, b.tail, depth, ListAfter(b.head, depth, owned), CleanAfter(b.head, depth, clean), mayReturn)
  }

  predicate BalancedBranches(p: Program, branches: Branches, depth: nat, owned: seq<string>, clean: set<string>, mayReturn: bool)
    decreases branches, 0
  {
    match branches
    case NoElse => true
    case Else(b) => BalancedBlock(p, b, depth + 1, owned, clean, mayReturn)
    case Arm(test, body, rest) =>
      && Quiet(p, test) && BalancedBlock(p, body, depth + 1, owned, clean, mayReturn)
      && BalancedBranches(p, rest, depth, ListAfterBlock(body, depth + 1, owned), CleanAfterBlock(body, depth + 1, clean), mayReturn)
  }

  predicate BalancedFn(p: Program, fn: Fn) { BalancedBlock(p, fn.body, 1, [], {}, true) }

  predicate BalancedProgram(p: Program) { forall f {:trigger BalancedFn(p, p[f])} :: f in p ==> BalancedFn(p, p[f]) }

  // ---- below the function's block the list only loses clean names ----

  lemma {:induction false} Prunes(p: Program, be: Env<bool>, s: Stmt, depth: nat, owned: seq<string>, clean: set<string>, mayReturn: bool)
    requires BalancedStmt(p, s, depth, owned, clean, mayReturn) && forall n :: n in clean ==> !Bit(be, User(n))
    requires depth > 1 || (depth == 1 && (s.If? || s.Loop?))
    ensures Held(be, ListAfter(s, depth, owned)) == Held(be, owned) && CleanAfter(s, depth, clean) <= clean
    decreases s, 1
  {
    match s
    case Free(x) => HeldRemoves(be, owned, x.text);
    case If(branches) => PrunesBranches(p, be, branches, depth, owned, clean, mayReturn);
    case Loop(_, kind, body) => PrunesBlock(p, be, body, depth + 1, owned, clean, mayReturn && !kind.Text?);
    case _ =>
  }

  lemma {:induction false} PrunesBlock(p: Program, be: Env<bool>, b: Block, depth: nat, owned: seq<string>, clean: set<string>, mayReturn: bool)
    requires BalancedBlock(p, b, depth, owned, clean, mayReturn) && depth > 1 && forall n :: n in clean ==> !Bit(be, User(n))
    ensures Held(be, ListAfterBlock(b, depth, owned)) == Held(be, owned) && CleanAfterBlock(b, depth, clean) <= clean
    decreases b, 0
  {
    if b.Then? {
      Prunes(p, be, b.head, depth, owned, clean, mayReturn);
      PrunesBlock(p, be, b.tail, depth, ListAfter(b.head, depth, owned), CleanAfter(b.head, depth, clean), mayReturn);
    }
  }

  lemma {:induction false} PrunesBranches(p: Program, be: Env<bool>, branches: Branches, depth: nat, owned: seq<string>, clean: set<string>,
                                          mayReturn: bool)
    requires BalancedBranches(p, branches, depth, owned, clean, mayReturn) && depth >= 1 && forall n :: n in clean ==> !Bit(be, User(n))
    ensures Held(be, ListAfterBranches(branches, depth, owned)) == Held(be, owned) && CleanAfterBranches(branches, depth, clean) <= clean
    decreases branches, 0
  {
    match branches
    case NoElse =>
    case Else(b) => PrunesBlock(p, be, b, depth + 1, owned, clean, mayReturn);
    case Arm(_, body, rest) =>
      PrunesBlock(p, be, body, depth + 1, owned, clean, mayReturn);
      PrunesBranches(p, be, rest, depth, ListAfterBlock(body, depth + 1, owned), CleanAfterBlock(body, depth + 1, clean), mayReturn);
  }

  // ---- what a balanced run keeps ----

  /** Names declared below the function's own block are neither listed nor tracked. */
  ghost predicate Apart(be: Env<bool>, owned: seq<string>, clean: set<string>) {
    be.Inner? ==> (forall x :: x in be.vars && x.User? ==> x.name !in owned && x.name !in clean) && Apart(be.outer, owned, clean)
  }

  ghost predicate Tidy(se: Env<S.Val>, be: Env<bool>, depth: nat, owned: seq<string>, clean: set<string>) {
    && SameShape(se, be) && Listed(owned, se) && depth >= 1 && (depth == 1 ==> AtTop(se))
    && (forall n :: n in clean ==> !Bit(be, User(n))) && Apart(be, owned, clean)
  }

  /** The characters of text loops keep their bits. */
  ghost predicate CharsSame(be: Env<bool>, be': Env<bool>) {
    && (forall x :: x in be.vars && x.LoopChar? ==> x in be'.vars && be'.vars[x] == be.vars[x])
    && (be.Inner? ==> be'.Inner? && CharsSame(be.outer, be'.outer))
  }

  /** Blocks gained are those the listed names hold; a ret leaves its value only. */
  ghost predicate Settles(be: Env<bool>, owned: seq<string>, flow: Out<S.Flow>, t: Tally, depth: nat, later: seq<string>, clean: set<string>,
                          mayReturn: bool)
  {
    flow.Done? ==>
      if flow.value.Next? then Lost(be, owned, t, later) == 0 && Tidy(flow.value.env, t.bits, depth, later, clean) && CharsSame(be, t.bits)
      else mayReturn && t.made + Held(be, owned) == One(t.block) && (t.block ==> flow.value.v.VStr?)
  }

  lemma {:induction false} CharsRefl(be: Env<bool>)
    ensures CharsSame(be, be)
  {
    if be.Inner? { CharsRefl(be.outer); }
  }

  lemma {:induction false} CharsTrans(a: Env<bool>, b: Env<bool>, c: Env<bool>)
    requires CharsSame(a, b) && CharsSame(b, c)
    ensures CharsSame(a, c)
  {
    if a.Inner? { CharsTrans(a.outer, b.outer, c.outer); }
  }

  lemma {:induction false} CharsSet(be: Env<bool>, x: Var, b: bool)
    requires !x.LoopChar?
    ensures CharsSame(be, SetBit(be, x, b))
  {
    if x in be.vars { CharsPut(be, x, b); } else if Lookup(be, x).Some? { CharsSet(be.outer, x, b); } else { CharsRefl(be); }
  }

  lemma {:induction false} CharsPut(be: Env<bool>, x: Var, b: bool)
    requires !x.LoopChar?
    ensures CharsSame(be, Put(be, x, b))
  {
    if be.Inner? { CharsRefl(be.outer); }
  }

  lemma {:induction false} ApartStore(be: Env<bool>, owned: seq<string>, clean: set<string>, x: Var, b: bool)
    requires Apart(be, owned, clean) && Lookup(be, x).Some?
    ensures Apart(Store(be, x, b), owned, clean)
  {
    if x !in be.vars { ApartStore(be.outer, owned, clean, x, b); }
  }

  lemma {:induction false} ApartLess(be: Env<bool>, owned: seq<string>, clean: set<string>, later: seq<string>, clean': set<string>)
    requires Apart(be, owned, clean) && (be.Inner? ==> (forall n :: n in later ==> n in owned) && clean' <= clean)
    ensures Apart(be, later, clean')
  {
    if be.Inner? { ApartLess(be.outer, owned, clean, later, clean'); }
  }

  // ---- expressions ----

  lemma {:induction false} QuietEval(p: Program, fuel: nat, se: Env<S.Val>, be: Env<bool>, e: Expr)
    requires BalancedProgram(p) && Quiet(p, e) && S.Eval(p, fuel, se, e).Done?
    ensures EvalTally(p, fuel, se, be, e).made == 0
    decreases fuel, 0, e, 1
  {
    match e
    case Binary(_, l, r) => QuietEval(p, fuel, se, be, l); QuietEval(p, fuel, se, be, r);
    case Len(a) => QuietEval(p, fuel, se, be, a);
    case Not(a) => QuietEval(p, fuel, se, be, a);
    case And(l, r) => QuietLogic(p, fuel, se, be, l, r, e);
    case Or(l, r) => QuietLogic(p, fuel, se, be, l, r, e);
    case Cond(_, t, y, n) =>
      QuietEval(p, fuel, se, be, t);
      QuietEval(p, fuel, se, be, if IsTrue(S.Eval(p, fuel, se, t)) then y else n);
    case Call(f, args) => BalancedCall(p, fuel, se, be, f, args);
    case _ =>
  }

  lemma {:induction false} QuietLogic(p: Program, fuel: nat, se: Env<S.Val>, be: Env<bool>, l: Expr, r: Expr, e: Expr)
    requires BalancedProgram(p) && (e == And(l, r) || e == Or(l, r)) && l < e && r < e && Quiet(p, e) && S.Eval(p, fuel, se, e).Done?
    ensures EvalTally(p, fuel, se, be, e).made == 0
    decreases fuel, 0, e, 0
  {
    QuietEval(p, fuel, se, be, l);
    if S.Eval(p, fuel, se, r).Done? { QuietEval(p, fuel, se, be, r); }
  }

  lemma {:induction false} QuietCopies(p: Program, fuel: nat, se: Env<S.Val>, be: Env<bool>, args: Args)
    requires BalancedProgram(p) && QuietArgs(p, args) && S.EvalArgs(p, fuel, se, args).Done?
    ensures ArgsTally(p, fuel, se, be, args) == 0
    decreases fuel, 0, args, 0
  {
    if args.Arg? {
      QuietEval(p, fuel, se, be, args.head);
      QuietCopies(p, fuel, se, be, args.tail);
    }
  }

  lemma {:induction false} BalancedCall(p: Program, fuel: nat, se: Env<S.Val>, be: Env<bool>, f: string, args: Args)
    requires BalancedProgram(p) && QuietArgs(p, args) && S.Eval(p, fuel, se, Call(f, args)).Done?
    ensures Spare(EvalTally(p, fuel, se, be, Call(f, args))) == 0
    ensures f in p && (p[f].ret != STR ==> EvalTally(p, fuel, se, be, Call(f, args)).made == 0)
    decreases fuel, 0, Call(f, args), 0
  {
    QuietCopies(p, fuel, se, be, args);
    BalancedRun(p, fuel - 1, f, S.EvalArgs(p, fuel, se, args).value, ArgBits(p, fuel, se, be, args));
  }

  lemma {:induction false} OneBlockEval(p: Program, fuel: nat, se: Env<S.Val>, be: Env<bool>, e: Expr)
    requires BalancedProgram(p) && OneBlock(p, e) && S.Eval(p, fuel, se, e).Done?
    ensures Spare(EvalTally(p, fuel, se, be, e)) == 0
    decreases fuel, 0, e, 2
  {
    if e.Binary? {
      QuietEval(p, fuel, se, be, e.left);
      QuietEval(p, fuel, se, be, e.right);
    } else if e.Cond? {
      OneBlockCond(p, fuel, se, be, e);
    } else if e.Call? {
      BalancedCall(p, fuel, se, be, e.fn, e.args);
    } else {
      QuietEval(p, fuel, se, be, e);
    }
  }

  lemma {:induction false} OneBlockCond(p: Program, fuel: nat, se: Env<S.Val>, be: Env<bool>, e: Expr)
    requires e.Cond? && BalancedProgram(p) && OneBlock(p, e) && S.Eval(p, fuel, se, e).Done?
    ensures Spare(EvalTally(p, fuel, se, be, e)) == 0
    decreases fuel, 0, e, 1
  {
    var pick := if IsTrue(S.Eval(p, fuel, se, e.test)) then e.yes else e.no;
    QuietEval(p, fuel, se, be, e.test);
    OneBlockEval(p, fuel, se, be, pick);
    if EvalTally(p, fuel, se, be, pick).block { BlockIsText(p, fuel, se, be, pick); }
  }

  lemma {:induction false} StoredSpare(p: Program, fuel: nat, se: Env<S.Val>, be: Env<bool>, e: Expr, ty: Ty)
    requires BalancedProgram(p) && Storable(p, e) && S.Eval(p, fuel, se, e).Done? && S.TypeOf(S.Eval(p, fuel, se, e).value) == ty
    ensures Spare(Stored(p, fuel, se, be, e, ty)) == 0 && (Stored(p, fuel, se, be, e, ty).block ==> MayOwn(ty, e))
    decreases fuel, 0, e, 3
  {
    StoredIsText(p, fuel, se, be, e, ty);
    if Bare(e) { BareEval(p, fuel, se, be, e); }
    if !e.Ref? { OneBlockEval(p, fuel, se, be, e); }
  }

  lemma {:induction false} BareEval(p: Program, fuel: nat, se: Env<S.Val>, be: Env<bool>, e: Expr)
    requires Bare(e)
    ensures !EvalTally(p, fuel, se, be, e).block
    decreases e
  {
    if e.Cond? { BareEval(p, fuel, se, be, e.yes); BareEval(p, fuel, se, be, e.no); }
  }

  // ---- statements ----

  /** A variable given a value of cost c. */
  lemma {:induction false} StoreSettles(se: Env<S.Val>, be: Env<bool>, x: string, v: S.Val, ty: Ty, c: Cost, depth: nat, owned: seq<string>,
                                        later: seq<string>, clean: set<string>, clean': set<string>)
    requires Tidy(se, be, depth, owned, clean) && Lookup(se, User(x)).Some? && later == ListAdd(depth, owned, x, ty)
    requires Spare(c) == 0 && (c.block ==> ty == STR) && (ty != STR ==> x !in owned)
    requires ty == STR ==> MayStore(x, c.block, depth, owned, clean)
    requires clean' <= (if c.block then clean - {x} else clean + {x}) && (depth > 1 ==> clean' <= clean)
    requires Listed(later, Store(se, User(x), v)) && (depth == 1 ==> AtTop(Store(se, User(x), v)))
    ensures var t := Tally(SetBit(be, User(x), c.block), c.made, false);
            Lost(be, owned, t, later) == 0 && Tidy(Store(se, User(x), v), t.bits, depth, later, clean') && CharsSame(be, t.bits)
  {
    StoreLoses(se, be, x, ty, c, depth, owned);
    ShapeStore(se, be, User(x), v, c.block);
    forall n | n in clean' ensures !Bit(SetBit(be, User(x), c.block), User(n)) { BitStored(be, User(x), c.block, User(n)); }
    ApartStore(be, owned, clean, User(x), c.block);
    ApartLess(SetBit(be, User(x), c.block), owned, clean, later, clean');
    CharsSet(be, User(x), c.block);
  }

  /** A listed name holds a text. */
  lemma {:induction false} ListedHoldsText(se: Env<S.Val>, owned: seq<string>, x: string)
    requires Listed(owned, se) && x in owned
    ensures Lookup(se, User(x)).Some? && S.TypeOf(Lookup(se, User(x)).value) == STR
  {
  }

  lemma {:induction false} BalancedAssign(p: Program, fuel: nat, se: Env<S.Val>, be: Env<bool>, s: Stmt, depth: nat, owned: seq<string>,
                                          clean: set<string>, mayReturn: bool)
    requires s.Assign? && S.ExecStmt(p, fuel, se, s).Done?
    requires BalancedProgram(p) && BalancedStmt(p, s, depth, owned, clean, mayReturn) && Tidy(se, be, depth, owned, clean)
    requires Listed(ListAfter(s, depth, owned), S.ExecStmt(p, fuel, se, s).value.env) && (s.target.text in owned ==> s.ty == STR)
    requires depth == 1 ==> AtTop(S.ExecStmt(p, fuel, se, s).value.env)
    ensures Settles(be, owned, S.ExecStmt(p, fuel, se, s), StmtTally(p, fuel, se, be, s, depth, owned), depth, ListAfter(s, depth, owned),
                    CleanAfter(s, depth, clean), mayReturn)
    decreases fuel, 0, s, 0
  {
    StoredSpare(p, fuel, se, be, s.value, s.ty);
    StoreSettles(se, be, s.target.text, S.Eval(p, fuel, se, s.value).value, s.ty, Stored(p, fuel, se, be, s.value, s.ty), depth, owned,
                 ListAfter(s, depth, owned), clean, CleanAfter(s, depth, clean));
  }

  lemma {:induction false} BalancedStore(p: Program, fuel: nat, se: Env<S.Val>, be: Env<bool>, s: Stmt, depth: nat, owned: seq<string>,
                                         clean: set<string>, mayReturn: bool)
    requires s.Assign? || s.AddAssign?
    requires BalancedProgram(p) && BalancedStmt(p, s, depth, owned, clean, mayReturn) && Tidy(se, be, depth, owned, clean)
    ensures Settles(be, owned, S.ExecStmt(p, fuel, se, s), StmtTally(p, fuel, se, be, s, depth, owned), depth, ListAfter(s, depth, owned),
                    CleanAfter(s, depth, clean), mayReturn)
    decreases fuel, 0, s, 1
  {
    if S.ExecStmt(p, fuel, se, s).Done? {
      StmtListed(p, fuel, se, s, depth, owned);
      if depth == 1 { StaysTop(p, fuel, se, s); }
      if s.target.text in owned { ListedHoldsText(se, owned, s.target.text); }
      if s.Assign? {
        BalancedAssign(p, fuel, se, be, s, depth, owned, clean, mayReturn);
      } else {
        QuietEval(p, fuel, se, be, s.value);
        var sum := S.Apply(if s.ty == STR then Join else Plus, Lookup(se, User(s.target.text)).value, S.Eval(p, fuel, se, s.value).value).value;
        StoreSettles(se, be, s.target.text, sum, s.ty, Cost(One(s.ty == STR), s.ty == STR), depth, owned, ListAfter(s, depth, owned), clean,
                     CleanAfter(s, depth, clean));
      }
    }
  }

  lemma {:induction false} NewIsUnlisted(se: Env<S.Val>, owned: seq<string>, x: string)
    requires Listed(owned, se) && User(x) !in se.vars
    ensures se.Root? ==> x !in owned
  {
    assert se.Root? ==> Lookup(se, User(x)).None?;
  }

  lemma {:induction false} BalancedDeclare(p: Program, fuel: nat, se: Env<S.Val>, be: Env<bool>, s: Stmt, depth: nat, owned: seq<string>,
                                           clean: set<string>, mayReturn: bool)
    requires s.Declare?
    requires BalancedProgram(p) && BalancedStmt(p, s, depth, owned, clean, mayReturn) && Tidy(se, be, depth, owned, clean)
    ensures Settles(be, owned, S.ExecStmt(p, fuel, se, s), StmtTally(p, fuel, se, be, s, depth, owned), depth, ListAfter(s, depth, owned),
                    CleanAfter(s, depth, clean), mayReturn)
    decreases fuel, 0, s, 1
  {
    if S.ExecStmt(p, fuel, se, s).Done? {
      StmtListed(p, fuel, se, s, depth, owned);
      if depth == 1 { StaysTop(p, fuel, se, s); }
      StoredSpare(p, fuel, se, be, s.init, s.ty);
      NewIsUnlisted(se, owned, s.name);
      DeclareLoses(p, fuel, se, be, s.name, s.ty, s.init, depth, owned);
      CharsPut(be, User(s.name), Stored(p, fuel, se, be, s.init, s.ty).block);
    }
  }

  lemma {:induction false} BalancedFree(p: Program, fuel: nat, se: Env<S.Val>, be: Env<bool>, x: string, depth: nat, owned: seq<string>,
                                        clean: set<string>, mayReturn: bool)
    requires BalancedStmt(p, Free(Plain(x)), depth, owned, clean, mayReturn) && Tidy(se, be, depth, owned, clean)
    ensures var s := Free(Plain(x));
            Settles(be, owned, S.ExecStmt(p, fuel, se, s), StmtTally(p, fuel, se, be, s, depth, owned), depth, ListAfter(s, depth, owned),
                    CleanAfter(s, depth, clean), mayReturn)
  {
    var s := Free(Plain(x));
    if S.ExecStmt(p, fuel, se, s).Done? {
      var y := User(x);
      FreeLoses(p, fuel, se, be, x, depth, owned);
      StmtListed(p, fuel, se, s, depth, owned);
      if depth == 1 { StaysTop(p, fuel, se, s); }
      ShapeStore(se, be, y, S.VStr(""), false);
      forall n | n in clean + {x} ensures !Bit(SetBit(be, y, false), User(n)) { BitStored(be, y, false, User(n)); }
      ApartStore(be, owned, clean, y, false);
      RemoveWithin(owned, x);
      ApartLess(SetBit(be, y, false), owned, clean, OwnedRemove(owned, x), clean + {x});
      CharsSet(be, y, false);
    }
  }

  lemma {:induction false} BalancedReturn(p: Program, fuel: nat, se: Env<S.Val>, be: Env<bool>, e: Expr, depth: nat, owned: seq<string>,
                                          clean: set<string>, mayReturn: bool)
    requires BalancedProgram(p) && BalancedStmt(p, Ret(Some(e)), depth, owned, clean, mayReturn) && Tidy(se, be, depth, owned, clean)
    ensures Settles(be, owned, S.ExecStmt(p, fuel, se, Ret(Some(e))), StmtTally(p, fuel, se, be, Ret(Some(e)), depth, owned), depth, owned, clean,
                    mayReturn)
    decreases fuel, 0, Ret(Some(e)), 0
  {
    if S.Eval(p, fuel, se, e).Done? {
      ReturnLoses(p, fuel, se, be, e, depth, owned);
      if !e.Ref? { OneBlockEval(p, fuel, se, be, e); }
      if EvalTally(p, fuel, se, be, e).block { BlockIsText(p, fuel, se, be, e); }
    }
  }

  lemma {:induction false} BalancedExec(p: Program, fuel: nat, se: Env<S.Val>, be: Env<bool>, s: Stmt, depth: nat, owned: seq<string>,
                                        clean: set<string>, mayReturn: bool)
    requires BalancedProgram(p) && BalancedStmt(p, s, depth, owned, clean, mayReturn) && Tidy(se, be, depth, owned, clean)
    ensures Settles(be, owned, S.ExecStmt(p, fuel, se, s), StmtTally(p, fuel, se, be, s, depth, owned), depth, ListAfter(s, depth, owned),
                    CleanAfter(s, depth, clean), mayReturn)
    decreases fuel, 0, s, 3
  {
    if s.Loop? {
      BalancedLoop(p, fuel, se, be, s, depth, owned, clean, mayReturn);
    } else if s.If? {
      BalancedIf(p, fuel, se, be, s, depth, owned, clean, mayReturn);
    } else if s.Declare? {
      BalancedDeclare(p, fuel, se, be, s, depth, owned, clean, mayReturn);
    } else if s.Assign? || s.AddAssign? {
      BalancedStore(p, fuel, se, be, s, depth, owned, clean, mayReturn);
    } else if s.Free? {
      BalancedFree(p, fuel, se, be, s.target.text, depth, owned, clean, mayReturn);
    } else {
      BalancedOther(p, fuel, se, be, s, depth, owned, clean, mayReturn);
    }
  }

  lemma {:induction false} BalancedOther(p: Program, fuel: nat, se: Env<S.Val>, be: Env<bool>, s: Stmt, depth: nat, owned: seq<string>,
                                         clean: set<string>, mayReturn: bool)
    requires s.Ret? || s.Discard? || s.Pass?
    requires BalancedProgram(p) && BalancedStmt(p, s, depth, owned, clean, mayReturn) && Tidy(se, be, depth, owned, clean)
    ensures Settles(be, owned, S.ExecStmt(p, fuel, se, s), StmtTally(p, fuel, se, be, s, depth, owned), depth, owned, clean, mayReturn)
    decreases fuel, 0, s, 1
  {
    CharsRefl(be);
    match s
    case Ret(Some(e)) => BalancedReturn(p, fuel, se, be, e, depth, owned, clean, mayReturn);
    case Ret(None) => ReturnVoidLoses(p, fuel, se, be, depth, owned);
    case Discard(e) => if S.Eval(p, fuel, se, e).Done? { QuietEval(p, fuel, se, be, e); }
    case Pass =>
  }

  lemma {:induction false} BalancedExecBlock(p: Program, fuel: nat, se: Env<S.Val>, be: Env<bool>, b: Block, depth: nat, owned: seq<string>,
                                             clean: set<string>, mayReturn: bool)
    requires BalancedProgram(p) && BalancedBlock(p, b, depth, owned, clean, mayReturn) && Tidy(se, be, depth, owned, clean)
    ensures Settles(be, owned, S.Exec(p, fuel, se, b), ExecTally(p, fuel, se, be, b, depth, owned), depth, ListAfterBlock(b, depth, owned),
                    CleanAfterBlock(b, depth, clean), mayReturn)
    decreases fuel, 0, b, 1
  {
    CharsRefl(be);
    if b.Then? {
      BalancedExec(p, fuel, se, be, b.head, depth, owned, clean, mayReturn);
      BalancedRest(p, fuel, se, be, b, depth, owned, clean, mayReturn, S.ExecStmt(p, fuel, se, b.head), StmtTally(p, fuel, se, be, b.head, depth, owned));
    }
  }

  lemma {:induction false} BalancedRest(p: Program, fuel: nat, se: Env<S.Val>, be: Env<bool>, b: Block, depth: nat, owned: seq<string>,
                                        clean: set<string>, mayReturn: bool, flow: Out<S.Flow>, t: Tally)
    requires b.Then? && BalancedProgram(p) && BalancedBlock(p, b, depth, owned, clean, mayReturn) && Tidy(se, be, depth, owned, clean)
    requires flow == S.ExecStmt(p, fuel, se, b.head) && t == StmtTally(p, fuel, se, be, b.head, depth, owned)
    requires Settles(be, owned, flow, t, depth, ListAfter(b.head, depth, owned), CleanAfter(b.head, depth, clean), mayReturn)
    ensures Settles(be, owned, S.Exec(p, fuel, se, b), ExecTally(p, fuel, se, be, b, depth, owned), depth, ListAfterBlock(b, depth, owned),
                    CleanAfterBlock(b, depth, clean), mayReturn)
    decreases fuel, 0, b, 0
  {
    if flow.Done? && flow.value.Next? {
      var later := ListAfter(b.head, depth, owned);
      BalancedExecBlock(p, fuel, flow.value.env, t.bits, b.tail, depth, later, CleanAfter(b.head, depth, clean), mayReturn);
      SettlesFrom(be, t.bits, owned, S.Exec(p, fuel, flow.value.env, b.tail), ExecTally(p, fuel, flow.value.env, t.bits, b.tail, depth, later), depth,
                  later, ListAfterBlock(b, depth, owned), CleanAfterBlock(b, depth, clean), mayReturn, t.made);
    }
  }

  // ---- scopes ----

  /** A scope that declares no user name changes nothing of this. */
  lemma {:induction false} ScopeOpens(se: Env<S.Val>, be: Env<bool>, m: map<Var, S.Val>, bits: map<Var, bool>, depth: nat, owned: seq<string>,
                                      clean: set<string>)
    requires Tidy(se, be, depth, owned, clean) && m.Keys == bits.Keys && forall x :: x in m ==> !x.User?
    ensures Tidy(Inner(m, se), Inner(bits, be), depth + 1, owned, clean) && Held(Inner(bits, be), owned) == Held(be, owned)
  {
    forall n ensures Lookup(Inner(bits, be), User(n)) == Lookup(be, User(n)) {}
    forall n ensures Lookup(Inner(m, se), User(n)) == Lookup(se, User(n)) {}
    HeldSame(be, Inner(bits, be), owned);
  }

  /** Nor does closing one, whatever it declared. */
  lemma {:induction false} ScopeCloses(se: Env<S.Val>, be: Env<bool>, depth: nat, owned: seq<string>, clean: set<string>)
    requires Tidy(se, be, depth + 1, owned, clean) && se.Inner? && depth >= 1 && (depth == 1 ==> AtTop(se.outer))
    ensures be.Inner? && Tidy(se.outer, be.outer, depth, owned, clean) && Held(be.outer, owned) == Held(be, owned)
  {
    forall n | n in owned || n in clean ensures Lookup(be, User(n)) == Lookup(be.outer, User(n)) && Lookup(se, User(n)) == Lookup(se.outer, User(n)) {
      assert User(n) !in be.vars;
    }
    HeldSame(be, be.outer, owned);
  }

  lemma {:induction false} Loosen(se: Env<S.Val>, be: Env<bool>, depth: nat, owned: seq<string>, clean: set<string>, later: seq<string>,
                                  clean': set<string>)
    requires Tidy(se, be, depth, owned, clean) && Within(later, owned) && clean' <= clean
    ensures Tidy(se, be, depth, later, clean')
  {
    SameRefl(se);
    ListedStays(owned, se, later, se);
    ApartLess(be, owned, clean, later, clean');
  }

  /** A block in a scope of its own; depth is its nesting in the text, at the tidy level of where it stands. */
  lemma {:induction false} BalancedScope(p: Program, fuel: nat, se: Env<S.Val>, be: Env<bool>, m: map<Var, S.Val>, bits: map<Var, bool>, b: Block,
                                         at: nat, depth: nat, owned: seq<string>, clean: set<string>, mayReturn: bool)
    requires BalancedProgram(p) && BalancedBlock(p, b, depth + 1, owned, clean, mayReturn) && Tidy(se, be, at, owned, clean) && depth >= 1
    requires m.Keys == bits.Keys && forall x :: x in m ==> !x.User?
    ensures var flow, t := S.Exec(p, fuel, Inner(m, se), b), ExecTally(p, fuel, Inner(m, se), Inner(bits, be), b, depth + 1, owned);
            && Settles(be, owned, SLeave(flow), t.(bits := Outer(t.bits)), at, ListAfterBlock(b, depth + 1, owned),
                       CleanAfterBlock(b, depth + 1, clean), mayReturn)
            && (flow.Done? && flow.value.Next? ==> CharsSame(Inner(bits, be), t.bits))
    decreases fuel, 0, b, 2
  {
    ScopeOpens(se, be, m, bits, at, owned, clean);
    BalancedExecBlock(p, fuel, Inner(m, se), Inner(bits, be), b, depth + 1, owned, clean, mayReturn);
    ExecGrows(p, fuel, Inner(m, se), b);
    var flow, t := S.Exec(p, fuel, Inner(m, se), b), ExecTally(p, fuel, Inner(m, se), Inner(bits, be), b, depth + 1, owned);
    if flow.Done? && flow.value.Next? {
      ScopeCloses(flow.value.env, t.bits, at, ListAfterBlock(b, depth + 1, owned), CleanAfterBlock(b, depth + 1, clean));
    }
  }

  lemma {:induction false} BalancedArms(p: Program, fuel: nat, se: Env<S.Val>, be: Env<bool>, branches: Branches, depth: nat, owned: seq<string>,
                                        clean: set<string>, mayReturn: bool)
    requires BalancedProgram(p) && BalancedBranches(p, branches, depth, owned, clean, mayReturn) && Tidy(se, be, depth, owned, clean)
    ensures Settles(be, owned, S.ExecBranches(p, fuel, se, branches), BranchTally(p, fuel, se, be, branches, depth, owned), depth,
                    ListAfterBranches(branches, depth, owned), CleanAfterBranches(branches, depth, clean), mayReturn)
    decreases fuel, 0, branches, 1
  {
    match branches
    case NoElse => CharsRefl(be);
    case Else(b) => BalancedScope(p, fuel, se, be, map[], map[], b, depth, depth, owned, clean, mayReturn);
    case Arm(test, body, rest) => BalancedArm(p, fuel, se, be, test, body, rest, depth, owned, clean, mayReturn);
  }

  lemma {:induction false} BalancedArm(p: Program, fuel: nat, se: Env<S.Val>, be: Env<bool>, test: Expr, body: Block, rest: Branches, depth: nat,
                                       owned: seq<string>, clean: set<string>, mayReturn: bool)
    requires BalancedProgram(p) && BalancedBranches(p, Arm(test, body, rest), depth, owned, clean, mayReturn) && Tidy(se, be, depth, owned, clean)
    ensures Settles(be, owned, S.ExecBranches(p, fuel, se, Arm(test, body, rest)), BranchTally(p, fuel, se, be, Arm(test, body, rest), depth, owned),
                    depth, ListAfterBranches(Arm(test, body, rest), depth, owned), CleanAfterBranches(Arm(test, body, rest), depth, clean), mayReturn)
    decreases fuel, 0, Arm(test, body, rest), 0
  {
    var c := S.Eval(p, fuel, se, test);
    if c.Done? && c.value.VBol? {
      QuietEval(p, fuel, se, be, test);
      if c.value.b {
        BalancedTaken(p, fuel, se, be, body, rest, depth, owned, clean, mayReturn);
      } else {
        BalancedUntaken(p, fuel, se, be, body, rest, depth, owned, clean, mayReturn);
      }
    }
  }

  /** An arm that does not run has only taken clean names off the list. */
  lemma {:induction false} BalancedUntaken(p: Program, fuel: nat, se: Env<S.Val>, be: Env<bool>, body: Block, rest: Branches, depth: nat,
                                           owned: seq<string>, clean: set<string>, mayReturn: bool)
    requires BalancedProgram(p) && BalancedBlock(p, body, depth + 1, owned, clean, mayReturn) && Tidy(se, be, depth, owned, clean)
    requires BalancedBranches(p, rest, depth, ListAfterBlock(body, depth + 1, owned), CleanAfterBlock(body, depth + 1, clean), mayReturn)
    ensures var later, clean' := ListAfterBlock(body, depth + 1, owned), CleanAfterBlock(body, depth + 1, clean);
            Settles(be, owned, S.ExecBranches(p, fuel, se, rest), BranchTally(p, fuel, se, be, rest, depth, later), depth,
                    ListAfterBranches(rest, depth, later), CleanAfterBranches(rest, depth, clean'), mayReturn)
    decreases fuel, 0, rest, 2
  {
    PrunesBlock(p, be, body, depth + 1, owned, clean, mayReturn);
    BlockShrinks(body, depth + 1, owned);
    Loosen(se, be, depth, owned, clean, ListAfterBlock(body, depth + 1, owned), CleanAfterBlock(body, depth + 1, clean));
    BalancedArms(p, fuel, se, be, rest, depth, ListAfterBlock(body, depth + 1, owned), CleanAfterBlock(body, depth + 1, clean), mayReturn);
  }

  /** The arm that runs; the texts of the later arms only take clean names off the list. */
  lemma {:induction false} BalancedTaken(p: Program, fuel: nat, se: Env<S.Val>, be: Env<bool>, body: Block, rest: Branches, depth: nat,
                                         owned: seq<string>, clean: set<string>, mayReturn: bool)
    requires BalancedProgram(p) && BalancedBlock(p, body, depth + 1, owned, clean, mayReturn) && Tidy(se, be, depth, owned, clean)
    requires BalancedBranches(p, rest, depth, ListAfterBlock(body, depth + 1, owned), CleanAfterBlock(body, depth + 1, clean), mayReturn)
    ensures var later, clean' := ListAfterBlock(body, depth + 1, owned), CleanAfterBlock(body, depth + 1, clean);
            Settles(be, owned, SLeave(S.Exec(p, fuel, Inner(map[], se), body)), ScopeTally(p, fuel, se, be, map[], map[], body, depth, owned), depth,
                    ListAfterBranches(rest, depth, later), CleanAfterBranches(rest, depth, clean'), mayReturn)
    decreases fuel, 0, body, 3
  {
    var later, clean' := ListAfterBlock(body, depth + 1, owned), CleanAfterBlock(body, depth + 1, clean);
    BalancedScope(p, fuel, se, be, map[], map[], body, depth, depth, owned, clean, mayReturn);
    var flow, t := SLeave(S.Exec(p, fuel, Inner(map[], se), body)), ScopeTally(p, fuel, se, be, map[], map[], body, depth, owned);
    if flow.Done? && flow.value.Next? {
      PrunesBranches(p, t.bits, rest, depth, later, clean', mayReturn);
      BranchesShrink(rest, depth, later);
      Loosen(flow.value.env, t.bits, depth, later, clean', ListAfterBranches(rest, depth, later), CleanAfterBranches(rest, depth, clean'));
    }
  }

  lemma {:induction false} BalancedIf(p: Program, fuel: nat, se: Env<S.Val>, be: Env<bool>, s: Stmt, depth: nat, owned: seq<string>,
                                      clean: set<string>, mayReturn: bool)
    requires s.If?
    requires BalancedProgram(p) && BalancedStmt(p, s, depth, owned, clean, mayReturn) && Tidy(se, be, depth, owned, clean)
    ensures Settles(be, owned, S.ExecStmt(p, fuel, se, s), StmtTally(p, fuel, se, be, s, depth, owned), depth, ListAfter(s, depth, owned),
                    CleanAfter(s, depth, clean), mayReturn)
    decreases fuel, 0, s, 1
  {
    BalancedArms(p, fuel, se, be, s.branches, depth, owned, clean, mayReturn);
  }

  // ---- loops ----

  lemma {:induction false} QuietTest(p: Program, k: nat, se: Env<S.Val>, be: Env<bool>, id: nat, kind: LoopKind)
    requires BalancedProgram(p) && QuietKind(p, kind) && S.Enter(p, k, se, id, kind).Done?
    ensures TestTally(p, k, se, be, kind) == 0
    ensures CharTally(p, k, se, be, kind) == One(kind.Text?)
    ensures var m := S.Enter(p, k, se, id, kind).value; m.Some? ==> m.value.Keys == if kind.Text? then {LoopChar(id)} else {}
    decreases k, 1
  {
    match kind
    case Count(n) => QuietEval(p, k, se, be, n);
    case Range(_, to, step) => QuietEval(p, k, se, be, to); QuietEval(p, k, se, be, step);
    case While(t) => QuietEval(p, k, se, be, t);
    case Text(t) =>
      QuietEval(p, k, se, be, t);
      EmptyScope(p, k, se, t);
      QuietEval(p, k, Inner(map[], se), Inner(map[], be), t);
  }

  /** One round: the list is as it was, and so are the books. */
  lemma {:induction false} BalancedRound(p: Program, k: nat, se: Env<S.Val>, be: Env<bool>, id: nat, kind: LoopKind, m: map<Var, S.Val>, body: Block,
                                         depth: nat, owned: seq<string>, clean: set<string>, mayReturn: bool)
    requires BalancedProgram(p) && BalancedBlock(p, body, depth + 1, owned, clean, mayReturn && !kind.Text?)
    requires CleanAfterBlock(body, depth + 1, clean) == clean && Tidy(se, be, depth + 1, owned, clean) && depth >= 1
    requires m.Keys == if kind.Text? then {LoopChar(id)} else {}
    ensures var t := RoundTally(p, k, se, be, id, kind, m, body, depth, owned);
            var flow := SLeave(S.Exec(p, k, Inner(m, se), body));
            && Settles(be, owned, flow, t.(made := t.made + One(kind.Text?)), depth + 1, owned, clean, mayReturn)
            && (flow.Done? && flow.value.Next? && se.Inner? ==> flow.value.env.Inner?)
    decreases k, 0, body, 3
  {
    var bits := if kind.Text? then map[LoopChar(id) := true] else map[];
    var later := ListAfterBlock(body, depth + 1, owned);
    BalancedScope(p, k, se, be, m, bits, body, depth + 1, depth, owned, clean, mayReturn && !kind.Text?);
    var flow := SLeave(S.Exec(p, k, Inner(m, se), body));
    if flow.Done? && flow.value.Next? {
      var t := ExecTally(p, k, Inner(m, se), Inner(bits, be), body, depth + 1, owned);
      ExecGrows(p, k, Inner(m, se), body);
      PrunesBlock(p, Outer(t.bits), body, depth + 1, owned, clean, mayReturn && !kind.Text?);
      Relist(se, be, flow.value.env, Outer(t.bits), depth + 1, owned, later, clean);
    }
  }

  /** What the round's text took off the list is on it again for the next round. */
  lemma {:induction false} Relist(se: Env<S.Val>, be: Env<bool>, se2: Env<S.Val>, be2: Env<bool>, depth: nat, owned: seq<string>,
                                  later: seq<string>, clean: set<string>)
    requires Tidy(se, be, depth, owned, clean) && Same(se, se2) && Tidy(se2, be2, depth, later, clean)
    ensures Tidy(se2, be2, depth, owned, clean)
  {
    SameIsGrown(se, se2);
    ListedStays(owned, se, owned, se2);
    ApartSame(se, be, se2, be2, owned, clean);
  }

  lemma {:induction false} ApartSame(se: Env<S.Val>, be: Env<bool>, se2: Env<S.Val>, be2: Env<bool>, owned: seq<string>, clean: set<string>)
    requires SameShape(se, be) && SameShape(se2, be2) && Same(se, se2) && Apart(be, owned, clean)
    ensures Apart(be2, owned, clean)
  {
    if be.Inner? { ApartSame(se.outer, be.outer, se2.outer, be2.outer, owned, clean); }
  }

  lemma {:induction false} BalancedIterate(p: Program, fuel: nat, se: Env<S.Val>, be: Env<bool>, id: nat, kind: LoopKind, body: Block, depth: nat,
                                           owned: seq<string>, clean: set<string>, mayReturn: bool)
    requires BalancedProgram(p) && QuietKind(p, kind) && BalancedBlock(p, body, depth + 1, owned, clean, mayReturn && !kind.Text?)
    requires CleanAfterBlock(body, depth + 1, clean) == clean && Tidy(se, be, depth + 1, owned, clean) && se.Inner? && depth >= 1
    ensures Settles(be, owned, S.Iterate(p, fuel, se, id, kind, body), IterateTally(p, fuel, se, be, id, kind, body, depth, owned), depth + 1, owned,
                    clean, mayReturn)
    decreases fuel, 0, Loop(id, kind, body), 0
  {
    if fuel > 0 {
      var round := S.Enter(p, fuel - 1, se, id, kind);
      if round.Done? && round.value.Some? {
        BalancedGoes(p, fuel - 1, se, be, id, kind, round.value.value, body, depth, owned, clean, mayReturn);
      } else {
        BalancedStops(p, fuel - 1, se, be, id, kind, body, depth, owned, clean, mayReturn);
      }
    }
  }

  lemma {:induction false} BalancedStops(p: Program, k: nat, se: Env<S.Val>, be: Env<bool>, id: nat, kind: LoopKind, body: Block, depth: nat,
                                         owned: seq<string>, clean: set<string>, mayReturn: bool)
    requires BalancedProgram(p) && QuietKind(p, kind) && Tidy(se, be, depth + 1, owned, clean)
    requires var round := S.Enter(p, k, se, id, kind); round.Done? ==> round.value.None?
    ensures Settles(be, owned, S.Iterate(p, k + 1, se, id, kind, body), IterateTally(p, k + 1, se, be, id, kind, body, depth, owned), depth + 1,
                    owned, clean, mayReturn)
    decreases k, 4
  {
    if S.Enter(p, k, se, id, kind).Done? {
      CharsRefl(be);
      QuietTest(p, k, se, be, id, kind);
      IterateRests(p, k, se, be, id, kind, body, depth, owned);
    } else {
      IterateS(p, k, se, id, kind, body);
    }
  }

  lemma {:induction false} BalancedGoes(p: Program, k: nat, se: Env<S.Val>, be: Env<bool>, id: nat, kind: LoopKind, m: map<Var, S.Val>, body: Block,
                                        depth: nat, owned: seq<string>, clean: set<string>, mayReturn: bool)
    requires BalancedProgram(p) && QuietKind(p, kind) && BalancedBlock(p, body, depth + 1, owned, clean, mayReturn && !kind.Text?)
    requires CleanAfterBlock(body, depth + 1, clean) == clean && Tidy(se, be, depth + 1, owned, clean) && se.Inner? && depth >= 1
    requires S.Enter(p, k, se, id, kind) == Done(Some(m))
    ensures Settles(be, owned, S.Iterate(p, k + 1, se, id, kind, body), IterateTally(p, k + 1, se, be, id, kind, body, depth, owned), depth + 1,
                    owned, clean, mayReturn)
    decreases k, 4
  {
    QuietTest(p, k, se, be, id, kind);
    IterateS(p, k, se, id, kind, body);
    BalancedTurn(p, k, se, be, id, kind, m, body, depth, owned, clean, mayReturn);
  }

  /** A round that runs, and those after it. */
  lemma {:induction false} BalancedTurn(p: Program, k: nat, se: Env<S.Val>, be: Env<bool>, id: nat, kind: LoopKind, m: map<Var, S.Val>, body: Block,
                                        depth: nat, owned: seq<string>, clean: set<string>, mayReturn: bool)
    requires BalancedProgram(p) && QuietKind(p, kind) && BalancedBlock(p, body, depth + 1, owned, clean, mayReturn && !kind.Text?)
    requires CleanAfterBlock(body, depth + 1, clean) == clean && Tidy(se, be, depth + 1, owned, clean) && se.Inner? && depth >= 1
    requires S.Enter(p, k, se, id, kind) == Done(Some(m)) && m.Keys == if kind.Text? then {LoopChar(id)} else {}
    requires TestTally(p, k, se, be, kind) == 0 && CharTally(p, k, se, be, kind) == One(kind.Text?)
    ensures var flow := SLeave(S.Exec(p, k, Inner(m, se), body));
            Settles(be, owned, SNext(p, k, flow, id, kind, body), IterateTally(p, k + 1, se, be, id, kind, body, depth, owned), depth + 1, owned,
                    clean, mayReturn)
    decreases k, 3
  {
    var flow, c := SLeave(S.Exec(p, k, Inner(m, se), body)), TurnCost(p, k, se, be, id, kind, m, body, depth, owned);
    BalancedRound(p, k, se, be, id, kind, m, body, depth, owned, clean, mayReturn);
    if flow.Done? { IterateUnfolds(p, k, se, be, id, kind, m, body, depth, owned); }
    BalancedAfter(p, k, be, flow, c, id, kind, body, depth, owned, clean, mayReturn);
  }

  lemma {:induction false} BalancedAfter(p: Program, k: nat, be: Env<bool>, flow: Out<S.Flow>, c: Tally, id: nat, kind: LoopKind, body: Block,
                                         depth: nat, owned: seq<string>, clean: set<string>, mayReturn: bool)
    requires BalancedProgram(p) && QuietKind(p, kind) && BalancedBlock(p, body, depth + 1, owned, clean, mayReturn && !kind.Text?)
    requires CleanAfterBlock(body, depth + 1, clean) == clean && depth >= 1
    requires Settles(be, owned, flow, c, depth + 1, owned, clean, mayReturn) && (flow.Done? && flow.value.Next? ==> flow.value.env.Inner?)
    ensures Settles(be, owned, SNext(p, k, flow, id, kind, body), AfterRound(p, k, flow, c, id, kind, body, depth, owned), depth + 1, owned, clean,
                    mayReturn)
    decreases k, 2
  {
    if flow.Done? && flow.value.Next? {
      BalancedNext(p, k, be, flow.value.env, c.bits, c.made, id, kind, body, depth, owned, clean, mayReturn);
    }
  }

  lemma {:induction false} NextBooks(p: Program, k: nat, se: Env<S.Val>, be: Env<bool>, made: int, n: int, id: nat, kind: LoopKind, body: Block,
                                     depth: nat, owned: seq<string>)
    requires BalancedProgram(p) && QuietKind(p, kind)
    requires var i, d := Lookup(se, LoopIndex(id)), S.Stride(p, k, se, kind);
             i.Some? && i.value.VInt? && d.Done? && d.value.VInt? && n == i.value.n + d.value.n
    ensures SNext(p, k, Done(S.Next(se)), id, kind, body) == S.Iterate(p, k, Store(se, LoopIndex(id), S.VInt(n)), id, kind, body)
    ensures var t := IterateTally(p, k, Store(se, LoopIndex(id), S.VInt(n)), SetBit(be, LoopIndex(id), false), id, kind, body, depth, owned);
            NextTally(p, k, se, be, made, id, kind, body, depth, owned) == t.(made := made + t.made)
    decreases k, 0, Loop(id, kind, body), 2
  {
    if kind.Range? { QuietEval(p, k, se, be, kind.step); }
    NextS(p, k, Done(S.Next(se)), id, kind, body, Lookup(se, LoopIndex(id)), S.Stride(p, k, se, kind));
    NextCost(p, k, se, be, made, n, id, kind, body, depth, owned);
  }

  lemma {:induction false} BalancedNext(p: Program, k: nat, be: Env<bool>, se2: Env<S.Val>, be2: Env<bool>, made: int, id: nat, kind: LoopKind,
                                        body: Block, depth: nat, owned: seq<string>, clean: set<string>, mayReturn: bool)
    requires BalancedProgram(p) && QuietKind(p, kind) && BalancedBlock(p, body, depth + 1, owned, clean, mayReturn && !kind.Text?)
    requires CleanAfterBlock(body, depth + 1, clean) == clean && Tidy(se2, be2, depth + 1, owned, clean) && se2.Inner? && depth >= 1
    requires CharsSame(be, be2) && made == Held(be2, owned) - Held(be, owned)
    ensures Settles(be, owned, SNext(p, k, Done(S.Next(se2)), id, kind, body), NextTally(p, k, se2, be2, made, id, kind, body, depth, owned),
                    depth + 1, owned, clean, mayReturn)
    decreases k, 1
  {
    var i, d := Lookup(se2, LoopIndex(id)), S.Stride(p, k, se2, kind);
    if i.Some? && i.value.VInt? && d.Done? && d.value.VInt? {
      var n := i.value.n + d.value.n;
      NextBooks(p, k, se2, be2, made, n, id, kind, body, depth, owned);
      BalancedOnward(p, k, be, se2, be2, made, n, id, kind, body, depth, owned, clean, mayReturn);
    } else {
      NextS(p, k, Done(S.Next(se2)), id, kind, body, i, d);
    }
  }

  lemma {:induction false} BalancedOnward(p: Program, k: nat, be: Env<bool>, se2: Env<S.Val>, be2: Env<bool>, made: int, n: int, id: nat,
                                          kind: LoopKind, body: Block, depth: nat, owned: seq<string>, clean: set<string>, mayReturn: bool)
    requires BalancedProgram(p) && QuietKind(p, kind) && BalancedBlock(p, body, depth + 1, owned, clean, mayReturn && !kind.Text?)
    requires CleanAfterBlock(body, depth + 1, clean) == clean && Tidy(se2, be2, depth + 1, owned, clean) && se2.Inner? && depth >= 1
    requires CharsSame(be, be2) && made == Held(be2, owned) - Held(be, owned)
    requires Lookup(se2, LoopIndex(id)).Some? && Lookup(se2, LoopIndex(id)).value.VInt?
    ensures var se3, be3 := Store(se2, LoopIndex(id), S.VInt(n)), SetBit(be2, LoopIndex(id), false);
            var t := IterateTally(p, k, se3, be3, id, kind, body, depth, owned);
            Settles(be, owned, S.Iterate(p, k, se3, id, kind, body), t.(made := made + t.made), depth + 1, owned, clean, mayReturn)
    decreases k, 0, Loop(id, kind, body), 1
  {
    var se3, be3 := Store(se2, LoopIndex(id), S.VInt(n)), SetBit(be2, LoopIndex(id), false);
    CounterSteps(se2, be2, LoopIndex(id), S.VInt(n), depth + 1, owned, clean);
    BalancedIterate(p, k, se3, be3, id, kind, body, depth, owned, clean, mayReturn);
    CharsTrans(be, be2, be3);
    SettlesFrom(be, be3, owned, S.Iterate(p, k, se3, id, kind, body), IterateTally(p, k, se3, be3, id, kind, body, depth, owned), depth + 1, owned,
                owned, clean, mayReturn, made);
  }

  /** The books of a later part, seen from an earlier state. */
  lemma {:induction false} SettlesFrom(be: Env<bool>, be2: Env<bool>, owned: seq<string>, flow: Out<S.Flow>, t: Tally, depth: nat,
                                       later: seq<string>, last: seq<string>, clean: set<string>, mayReturn: bool, made: int)
    requires CharsSame(be, be2) && made == Held(be2, later) - Held(be, owned) && Settles(be2, later, flow, t, depth, last, clean, mayReturn)
    ensures Settles(be, owned, flow, t.(made := made + t.made), depth, last, clean, mayReturn)
  {
    if flow.Done? && flow.value.Next? { CharsTrans(be, be2, t.bits); }
  }

  lemma {:induction false} CounterSteps(se: Env<S.Val>, be: Env<bool>, x: Var, v: S.Val, depth: nat, owned: seq<string>, clean: set<string>)
    requires Tidy(se, be, depth, owned, clean) && depth > 1 && x.LoopIndex? && Lookup(se, x).Some? && Lookup(se, x).value.VInt? && v.VInt?
    ensures var se', be' := Store(se, x, v), SetBit(be, x, false);
            Tidy(se', be', depth, owned, clean) && CharsSame(be, be') && Held(be', owned) == Held(be, owned) && (se.Inner? ==> se'.Inner?)
  {
    ShapeStore(se, be, x, v, false);
    forall n ensures Bit(SetBit(be, x, false), User(n)) == Bit(be, User(n)) { BitStored(be, x, false, User(n)); }
    HeldSame(be, SetBit(be, x, false), owned);
    StoreSame(se, x, v);
    ListedStays(owned, se, owned, Store(se, x, v));
    ApartStore(be, owned, clean, x, false);
    CharsSet(be, x, false);
  }

  lemma {:induction false} BalancedRounds(p: Program, fuel: nat, se: Env<S.Val>, be: Env<bool>, v: S.Val, id: nat, kind: LoopKind, body: Block,
                                          depth: nat, owned: seq<string>, clean: set<string>, mayReturn: bool)
    requires BalancedProgram(p) && QuietKind(p, kind) && BalancedBlock(p, body, depth + 1, owned, clean, mayReturn && !kind.Text?)
    requires CleanAfterBlock(body, depth + 1, clean) == clean && Tidy(se, be, depth, owned, clean)
    ensures var se1, be1 := Inner(map[LoopIndex(id) := v], se), Inner(map[LoopIndex(id) := false], be);
            var t := IterateTally(p, fuel, se1, be1, id, kind, body, depth, owned);
            Settles(be, owned, SLeave(S.Iterate(p, fuel, se1, id, kind, body)), t.(bits := Outer(t.bits)), depth,
                    ListAfterBlock(body, depth + 1, owned), clean, mayReturn)
    decreases fuel, 0, Loop(id, kind, body), 1
  {
    var se1, be1 := Inner(map[LoopIndex(id) := v], se), Inner(map[LoopIndex(id) := false], be);
    var t := IterateTally(p, fuel, se1, be1, id, kind, body, depth, owned);
    var flow := S.Iterate(p, fuel, se1, id, kind, body);
    ScopeOpens(se, be, se1.vars, be1.vars, depth, owned, clean);
    BalancedIterate(p, fuel, se1, be1, id, kind, body, depth, owned, clean, mayReturn);
    IterateSame(p, fuel, se1, id, kind, body);
    if flow.Done? && flow.value.Next? { LoopCloses(p, se, flow.value.env, t.bits, body, depth, owned, clean, mayReturn && !kind.Text?); }
  }

  lemma {:induction false} BalancedLoop(p: Program, fuel: nat, se: Env<S.Val>, be: Env<bool>, s: Stmt, depth: nat, owned: seq<string>,
                                        clean: set<string>, mayReturn: bool)
    requires s.Loop?
    requires BalancedProgram(p) && BalancedStmt(p, s, depth, owned, clean, mayReturn) && Tidy(se, be, depth, owned, clean)
    ensures Settles(be, owned, S.ExecStmt(p, fuel, se, s), StmtTally(p, fuel, se, be, s, depth, owned), depth, ListAfter(s, depth, owned),
                    CleanAfter(s, depth, clean), mayReturn)
    decreases fuel, 0, s, 2
  {
    var first := S.Start(p, fuel, se, s.kind);
    LoopS(p, fuel, se, s.id, s.kind, s.body, first);
    if first.Done? && first.value.VInt? {
      if s.kind.Range? { QuietEval(p, fuel, se, be, s.kind.from); }
      LoopTally(p, fuel, se, be, s.id, s.kind, s.body, depth, owned, first, 0);
      BalancedRounds(p, fuel, se, be, first.value, s.id, s.kind, s.body, depth, owned, clean, mayReturn);
    }
  }

  lemma {:induction false} LoopCloses(p: Program, se: Env<S.Val>, se2: Env<S.Val>, be2: Env<bool>, body: Block, depth: nat, owned: seq<string>,
                                      clean: set<string>, mayReturn: bool)
    requires BalancedBlock(p, body, depth + 1, owned, clean, mayReturn) && depth >= 1 && (depth == 1 ==> AtTop(se))
    requires Tidy(se2, be2, depth + 1, owned, clean) && se2.Inner? && Same(se, se2.outer)
    ensures var later := ListAfterBlock(body, depth + 1, owned);
            && be2.Inner? && Tidy(se2.outer, be2.outer, depth, later, clean) && Held(be2.outer, later) == Held(be2, owned)
  {
    ScopeCloses(se2, be2, depth, owned, clean);
    PrunesBlock(p, be2.outer, body, depth + 1, owned, clean, mayReturn);
    BlockShrinks(body, depth + 1, owned);
    Loosen(se2.outer, be2.outer, depth, owned, clean, ListAfterBlock(body, depth + 1, owned), clean);
  }

  // ---- calls ----

  lemma {:induction false} BoundAlike(params: seq<Param>, vs: seq<S.Val>, bits: seq<bool>)
    requires |params| == |vs| == |bits|
    ensures SameShape(Root(Bind(params, vs)), Root(Bind(params, bits))) && AtTop(Root(Bind(params, vs)))
  {
    if params != [] { BoundAlike(params[1..], vs[1..], bits[1..]); }
  }

  /** Every call of a balanced program gains its returned block and no other. */
  lemma {:induction false} BalancedRun(p: Program, fuel: nat, f: string, vs: seq<S.Val>, bits: seq<bool>)
    requires BalancedProgram(p) && S.Run(p, fuel, f, vs).Done?
    ensures Spare(RunTally(p, fuel, f, vs, bits)) == 0
    ensures f in p && (p[f].ret != STR ==> RunTally(p, fuel, f, vs, bits).made == 0)
    decreases fuel, 1
  {
    if |bits| == |vs| {
      var fn := p[f];
      var se, be := Root(Bind(fn.params, vs)), Root(Bind(fn.params, bits));
      BoundAlike(fn.params, vs, bits);
      assert BalancedFn(p, p[f]);
      BalancedExecBlock(p, fuel, se, be, fn.body, 1, [], {}, true);
      var flow := S.Exec(p, fuel, se, fn.body);
      if flow.value.Next? { HeldDrops(ExecTally(p, fuel, se, be, fn.body, 1, []).bits, ListAfterBlock(fn.body, 1, []), None); }
    }
  }
}
