/** What each statement loses: blocks it leaves behind that no variable of the cleanup list
    holds. Every law is exact and holds in every state. */
module BlockLosses {
  import opened Wrappers
  import opened CasterAst
  import S = ByValue
  import opened Emit
  import opened LoweringSource
  import opened BlockTally

  /** Blocks gained that the listed variables do not account for. */
  function Lost(be: Env<bool>, owned: seq<string>, t: Tally, later: seq<string>): int {
    t.made - (Held(t.bits, later) - Held(be, owned))
  }

  /** The same variables, scope by scope. */
  ghost predicate SameShape(se: Env<S.Val>, be: Env<bool>) {
    se.vars.Keys == be.vars.Keys && (se.Root? <==> be.Root?) && (se.Inner? ==> SameShape(se.outer, be.outer))
  }

  lemma {:induction false} ShapeLookup(se: Env<S.Val>, be: Env<bool>, x: Var)
    requires SameShape(se, be)
    ensures Lookup(se, x).Some? <==> Lookup(be, x).Some?
  {
    if x !in se.vars && se.Inner? { ShapeLookup(se.outer, be.outer, x); }
  }

  lemma {:induction false} ShapeStore(se: Env<S.Val>, be: Env<bool>, x: Var, v: S.Val, b: bool)
    requires SameShape(se, be) && Lookup(se, x).Some?
    ensures Lookup(be, x).Some? && SameShape(Store(se, x, v), Store(be, x, b))
  {
    ShapeLookup(se, be, x);
    if x !in se.vars { ShapeStore(se.outer, be.outer, x, v, b); }
  }

  lemma {:induction false} BitStored(be: Env<bool>, x: Var, b: bool, y: Var)
    requires Lookup(be, x).Some?
    ensures Bit(Store(be, x, b), y) == if y == x then b else Bit(be, y)
  {
    if x !in be.vars { BitStored(be.outer, x, b, y); }
  }

  // ---- how many listed names hold a block ----

  lemma {:induction false} HeldSame(be: Env<bool>, be': Env<bool>, names: seq<string>)
    requires forall n :: n in names ==> Bit(be, User(n)) == Bit(be', User(n))
    ensures Held(be, names) == Held(be', names)
  {
    if names != [] {
      assert names[0] in names;
      HeldSame(be, be', names[1..]);
    }
  }

  lemma {:induction false} HeldAdds(be: Env<bool>, names: seq<string>, x: string)
    ensures Held(be, names + [x]) == Held(be, names) + One(Bit(be, User(x)))
  {
    if names == [] {
      assert [] + [x] == [x] && [x][1..] == [];
    } else {
      assert (names + [x])[1..] == names[1..] + [x];
      HeldAdds(be, names[1..], x);
    }
  }

  lemma {:induction false} HeldRemoves(be: Env<bool>, names: seq<string>, x: string)
    ensures Held(be, OwnedRemove(names, x)) == Held(be, names) - One(x in names && Bit(be, User(x)))
  {
    if names != [] && names[0] != x {
      HeldRemoves(be, names[1..], x);
      var rest := OwnedRemove(names[1..], x);
      assert ([names[0]] + rest)[1..] == rest;
    }
  }

  /** Storing to x changes the count by x's own share. */
  lemma {:induction false} HeldSet(be: Env<bool>, names: seq<string>, x: string, b: bool)
    requires NoDup(names) && Lookup(be, User(x)).Some?
    ensures Held(SetBit(be, User(x), b), names) == Held(be, names) + if x in names then One(b) - One(Bit(be, User(x))) else 0
  {
    var be' := SetBit(be, User(x), b);
    forall n ensures Bit(be', User(n)) == if n == x then b else Bit(be, User(n)) { BitStored(be, User(x), b, User(n)); }
    if x in names {
      RemoveWithin(names, x);
      HeldRemoves(be, names, x);
      HeldRemoves(be', names, x);
      HeldSame(be, be', OwnedRemove(names, x));
    } else {
      HeldSame(be, be', names);
    }
  }

  lemma {:induction false} HeldDrops(be: Env<bool>, owned: seq<string>, skip: Option<string>)
    requires NoDup(owned)
    ensures Held(be, Drops(owned, skip)) == Held(be, owned) - if skip.Some? then One(skip.value in owned && Bit(be, User(skip.value))) else 0
  {
    if owned != [] {
      var last, front := owned[|owned| - 1], owned[..|owned| - 1];
      assert owned == front + [last] && last !in front;
      HeldDrops(be, front, skip);
      HeldAdds(be, front, last);
      var rest := Drops(front, skip);
      assert ([last] + rest)[1..] == rest && [] + rest == rest;
      assert skip.Some? ==> (skip.value in owned <==> skip.value in front || skip.value == last);
    }
  }

  // ---- values ----

  /** Only a text is a block. */
  lemma {:induction false} BlockIsText(p: Program, fuel: nat, se: Env<S.Val>, be: Env<bool>, e: Expr)
    requires S.Eval(p, fuel, se, e).Done? && EvalTally(p, fuel, se, be, e).block
    ensures S.Eval(p, fuel, se, e).value.VStr?
  {
  }

  /** What storing the value of e makes. */
  function Stored(p: Program, fuel: nat, se: Env<S.Val>, be: Env<bool>, e: Expr, ty: Ty): Cost { Copied(EvalTally(p, fuel, se, be, e), e, ty) }

  /** Blocks made on the way to a value and kept by nobody. */
  function Spare(c: Cost): int { c.made - One(c.block) }

  lemma {:induction false} StoredIsText(p: Program, fuel: nat, se: Env<S.Val>, be: Env<bool>, e: Expr, ty: Ty)
    requires S.Eval(p, fuel, se, e).Done? && S.TypeOf(S.Eval(p, fuel, se, e).value) == ty
    ensures Stored(p, fuel, se, be, e, ty).block ==> ty == STR
  {
    if EvalTally(p, fuel, se, be, e).block { BlockIsText(p, fuel, se, be, e); }
  }

  // ---- statements ----

  /** An assignment loses the blocks its value leaves spare, the block its listed target held,
      and its own when the target is not listed afterwards. */
  lemma {:induction false} AssignLoses(p: Program, fuel: nat, se: Env<S.Val>, be: Env<bool>, x: string, ty: Ty, e: Expr, depth: nat, owned: seq<string>)
    requires SameShape(se, be) && Listed(owned, se) && S.ExecStmt(p, fuel, se, Assign(Plain(x), ty, e)).Done?
    ensures var s, c := Assign(Plain(x), ty, e), Stored(p, fuel, se, be, e, ty);
            var later := ListAfter(s, depth, owned);
            Lost(be, owned, StmtTally(p, fuel, se, be, s, depth, owned), later)
              == Spare(c) + One(x in owned && Bit(be, User(x))) + One(x !in later && c.block)
  {
    var c := Stored(p, fuel, se, be, e, ty);
    StoredIsText(p, fuel, se, be, e, ty);
    StoreLoses(se, be, x, ty, c, depth, owned);
  }

  /** A variable given c while the list becomes what the emitter makes of it. */
  lemma {:induction false} StoreLoses(se: Env<S.Val>, be: Env<bool>, x: string, ty: Ty, c: Cost, depth: nat, owned: seq<string>)
    requires SameShape(se, be) && Listed(owned, se) && Lookup(se, User(x)).Some? && (c.block ==> ty == STR)
    ensures var later := ListAdd(depth, owned, x, ty);
            Lost(be, owned, Tally(SetBit(be, User(x), c.block), c.made, false), later)
              == Spare(c) + One(x in owned && Bit(be, User(x))) + One(x !in later && c.block)
  {
    ShapeLookup(se, be, User(x));
    HeldSet(be, owned, x, c.block);
    BitStored(be, User(x), c.block, User(x));
    HeldAdds(SetBit(be, User(x), c.block), owned, x);
  }

  /** `+=` on a text always makes a new block, and loses the old one. */
  lemma {:induction false} AddAssignLoses(p: Program, fuel: nat, se: Env<S.Val>, be: Env<bool>, x: string, ty: Ty, e: Expr, depth: nat, owned: seq<string>)
    requires SameShape(se, be) && Listed(owned, se) && S.ExecStmt(p, fuel, se, AddAssign(Plain(x), ty, e)).Done?
    ensures var s := AddAssign(Plain(x), ty, e);
            var later := ListAfter(s, depth, owned);
            Lost(be, owned, StmtTally(p, fuel, se, be, s, depth, owned), later)
              == EvalTally(p, fuel, se, be, e).made + One(x in owned && Bit(be, User(x))) + One(x !in later && ty == STR)
  {
    StoreLoses(se, be, x, ty, Cost(EvalTally(p, fuel, se, be, e).made + One(ty == STR), ty == STR), depth, owned);
  }

  /** A new name that hides none loses the spare blocks, and its own below the function's block. */
  lemma {:induction false} DeclareLoses(p: Program, fuel: nat, se: Env<S.Val>, be: Env<bool>, x: string, ty: Ty, e: Expr, depth: nat, owned: seq<string>)
    requires SameShape(se, be) && Listed(owned, se) && S.ExecStmt(p, fuel, se, Declare(ty, x, e)).Done? && x !in owned
    ensures var s, c := Declare(ty, x, e), Stored(p, fuel, se, be, e, ty);
            Lost(be, owned, StmtTally(p, fuel, se, be, s, depth, owned), ListAfter(s, depth, owned)) == Spare(c) + One(depth != 1 && c.block)
  {
    var c := Stored(p, fuel, se, be, e, ty);
    var be' := Put(be, User(x), c.block);
    StoredIsText(p, fuel, se, be, e, ty);
    HeldSame(be, be', owned);
    HeldAdds(be', owned, x);
  }

  /** FREE of a listed name loses nothing. */
  lemma {:induction false} FreeLoses(p: Program, fuel: nat, se: Env<S.Val>, be: Env<bool>, x: string, depth: nat, owned: seq<string>)
    requires SameShape(se, be) && Listed(owned, se) && S.ExecStmt(p, fuel, se, Free(Plain(x))).Done?
    ensures var s := Free(Plain(x));
            Lost(be, owned, StmtTally(p, fuel, se, be, s, depth, owned), ListAfter(s, depth, owned)) == -One(x !in owned && Bit(be, User(x)))
  {
    ShapeLookup(se, be, User(x));
    HeldSet(be, owned, x, false);
    BitStored(be, User(x), false, User(x));
    HeldRemoves(SetBit(be, User(x), false), owned, x);
  }

  /** An arm not taken still takes its freed names off the list: their blocks are lost. */
  lemma {:induction false} UntakenLoses(p: Program, fuel: nat, se: Env<S.Val>, be: Env<bool>, test: Expr, body: Block, depth: nat, owned: seq<string>)
    requires S.Eval(p, fuel, se, test) == Done(S.VBol(false))
    ensures var s := If(Arm(test, body, NoElse));
            var later := ListAfterBlock(body, depth + 1, owned);
            ListAfter(s, depth, owned) == later
            && Lost(be, owned, StmtTally(p, fuel, se, be, s, depth, owned), later)
                 == EvalTally(p, fuel, se, be, test).made + Held(be, owned) - Held(be, later)
  {
    assert BranchTally(p, fuel, se, be, NoElse, depth, ListAfterBlock(body, depth + 1, owned)) == Tally(be, 0, false);
    assert ListAfterBranches(NoElse, depth, ListAfterBlock(body, depth + 1, owned)) == ListAfterBlock(body, depth + 1, owned);
  }

  /** A ret leaves only the spare blocks of its value: everything listed is dropped or moved out. */
  lemma {:induction false} ReturnLoses(p: Program, fuel: nat, se: Env<S.Val>, be: Env<bool>, e: Expr, depth: nat, owned: seq<string>)
    requires SameShape(se, be) && Listed(owned, se) && S.Eval(p, fuel, se, e).Done? && (e.Ref? ==> e.name.Plain?)
    ensures var t := StmtTally(p, fuel, se, be, Ret(Some(e)), depth, owned);
            t.made + Held(be, owned) - One(t.block)
              == if e.Ref? then 0 else if e.CharAt? then EvalTally(p, fuel, se, be, e).made else Spare(EvalTally(p, fuel, se, be, e))
  {
    var x := if ReturnsOwned(e, owned) then Some(e.name.text) else None;
    HeldDrops(be, owned, x);
    if e.Ref? && e.name.text in owned { assert S.Eval(p, fuel, se, e).value.VStr?; }
  }

  lemma {:induction false} ReturnVoidLoses(p: Program, fuel: nat, se: Env<S.Val>, be: Env<bool>, depth: nat, owned: seq<string>)
    requires NoDup(owned)
    ensures StmtTally(p, fuel, se, be, Ret(None), depth, owned).made + Held(be, owned) == 0
  {
    HeldDrops(be, owned, None);
  }

  // ---- calls ----

  /** How many arguments are names of texts: those are copied, and nobody frees the copies. */
  function NamedTexts(args: Args): nat {
    if args.NoArgs? then 0 else One(args.head.Ref? && args.head.ty == STR) + NamedTexts(args.tail)
  }

  predicate PlainArgs(args: Args) { args.Arg? ==> (args.head.Ref? || args.head.StrLit? || args.head.IntLit? || args.head.BolLit?) && PlainArgs(args.tail) }

  lemma {:induction false} ArgsLose(p: Program, fuel: nat, se: Env<S.Val>, be: Env<bool>, args: Args)
    requires PlainArgs(args)
    ensures ArgsTally(p, fuel, se, be, args) == NamedTexts(args)
  {
    if args.Arg? { ArgsLose(p, fuel, se, be, args.tail); }
  }

  /** A call of names and literals loses one block for each text name passed, and what the
      function itself loses. */
  lemma {:induction false} CallLoses(p: Program, fuel: nat, se: Env<S.Val>, be: Env<bool>, f: string, args: Args)
    requires PlainArgs(args) && S.Eval(p, fuel, se, Call(f, args)).Done?
    ensures fuel > 0
    ensures Spare(EvalTally(p, fuel, se, be, Call(f, args)))
              == NamedTexts(args) + Spare(RunTally(p, fuel - 1, f, S.EvalArgs(p, fuel, se, args).value, ArgBits(p, fuel, se, be, args)))
  {
    ArgsLose(p, fuel, se, be, args);
  }
}
