/** Declared types: memoised alias resolution, and what the aliases mean. */
module TypeTables {
  import opened Wrappers
  import opened TypeStrings

  datatype Decl = Struct(fields: seq<Ty>) | Alias(raw: Ty)

  type Decls = map<string, Decl>

  datatype Error = Cyclic(name: string) | Unknown(name: string)

  datatype Outcome = Failed(error: Error) | Done(ty: Ty, memo: map<string, Ty>)

  predicate Scalar(name: string) { name in {"INT", "FLT", "BOL", "STR", "NUL"} }

  /** What a name other than an alias stands for. */
  function Plain(decls: Decls, name: string): Option<Ty> {
    if Scalar(name) then Some(Atom(name))
    else if name == "DYN" then Some(Atom("OBJ"))
    else if name in decls && decls[name].Struct? then Some(Atom(name))
    else None
  }

  predicate IsAlias(decls: Decls, name: string) { !Scalar(name) && name != "DYN" && name in decls && decls[name].Alias? }

  lemma {:induction false} OpeningShrinks(decls: Decls, name: string, resolving: set<string>)
    requires name in decls && name !in resolving
    ensures |decls.Keys - (resolving + {name})| < |decls.Keys - resolving|
  {
    assert decls.Keys - (resolving + {name}) == (decls.Keys - resolving) - {name};
    assert name in decls.Keys - resolving;
  }

  /** Resolution with targets remembered in `memo` and the aliases being resolved marked. */
  function Resolve(decls: Decls, t: Ty, memo: map<string, Ty>, resolving: set<string>): Outcome
    decreases |decls.Keys - resolving|, t
  {
    match t
    case Atom(name) =>
      if Plain(decls, name).Some? then Done(Plain(decls, name).value, memo)
      else if name !in decls then Failed(Unknown(name))
      else if name in memo then Done(memo[name], memo)
      else if name in resolving then Failed(Cyclic(name))
      else
        OpeningShrinks(decls, name, resolving);
        var inner := Resolve(decls, decls[name].raw, memo, resolving + {name});
        Noted(name, inner)
    case Arr(e) => Wrap(t, Resolve(decls, e, memo, resolving))
    case Ref(e) => Wrap(t, Resolve(decls, e, memo, resolving))
    case Tsk(e) => Wrap(t, Resolve(decls, e, memo, resolving))
    case Map(k, v) =>
      var first := Resolve(decls, k, memo, resolving);
      if first.Failed? then first else Pair(t, first.ty, Resolve(decls, v, first.memo, resolving))
    case Fn(i, o) =>
      var first := Resolve(decls, i, memo, resolving);
      if first.Failed? then first else Pair(t, first.ty, Resolve(decls, o, first.memo, resolving))
  }

  function Rebuild(t: Ty, a: Ty, b: Ty): Ty {
    match t
    case Atom(_) => a
    case Arr(_) => Arr(a) case Ref(_) => Ref(a) case Tsk(_) => Tsk(a)
    case Map(_, _) => Map(a, b) case Fn(_, _) => Fn(a, b)
  }

  function Wrap(t: Ty, inner: Outcome): Outcome { if inner.Failed? then inner else Done(Rebuild(t, inner.ty, inner.ty), inner.memo) }

  function Pair(t: Ty, first: Ty, second: Outcome): Outcome {
    if second.Failed? then second else Done(Rebuild(t, first, second.ty), second.memo)
  }

  // ---- meaning: unfolding ----

  /** Every alias replaced by what it stands for, unfolding at most `fuel` deep. */
  function Expand(decls: Decls, t: Ty, fuel: nat): Option<Ty>
    decreases fuel, t
  {
    match t
    case Atom(name) =>
      if Plain(decls, name).Some? then Plain(decls, name)
      else if name !in decls || fuel == 0 then None
      else Expand(decls, decls[name].raw, fuel - 1)
    case Arr(e) => Both(t, Expand(decls, e, fuel), Expand(decls, e, fuel))
    case Ref(e) => Both(t, Expand(decls, e, fuel), Expand(decls, e, fuel))
    case Tsk(e) => Both(t, Expand(decls, e, fuel), Expand(decls, e, fuel))
    case Map(k, v) => Both(t, Expand(decls, k, fuel), Expand(decls, v, fuel))
    case Fn(i, o) => Both(t, Expand(decls, i, fuel), Expand(decls, o, fuel))
  }

  function Both(t: Ty, a: Option<Ty>, b: Option<Ty>): Option<Ty> {
    if a.None? || b.None? then None else Some(Rebuild(t, a.value, b.value))
  }

  ghost predicate Means(decls: Decls, t: Ty, ty: Ty) { exists fuel: nat :: Expand(decls, t, fuel) == Some(ty) }

  lemma {:induction false} MoreFuel(decls: Decls, t: Ty, fuel: nat, more: nat)
    requires Expand(decls, t, fuel).Some? && fuel <= more
    ensures Expand(decls, t, more) == Expand(decls, t, fuel)
    decreases fuel, t
  {
    match t
    case Atom(name) => if Plain(decls, name).None? { MoreFuel(decls, decls[name].raw, fuel - 1, more - 1); }
    case Arr(e) => MoreFuel(decls, e, fuel, more);
    case Ref(e) => MoreFuel(decls, e, fuel, more);
    case Tsk(e) => MoreFuel(decls, e, fuel, more);
    case Map(k, v) => MoreFuel(decls, k, fuel, more); MoreFuel(decls, v, fuel, more);
    case Fn(i, o) => MoreFuel(decls, i, fuel, more); MoreFuel(decls, o, fuel, more);
  }

  lemma {:induction false} MeaningIsUnique(decls: Decls, t: Ty, a: Ty, b: Ty)
    requires Means(decls, t, a) && Means(decls, t, b)
    ensures a == b
  {
    var f: nat :| Expand(decls, t, f) == Some(a);
    var g: nat :| Expand(decls, t, g) == Some(b);
    MoreFuel(decls, t, f, if f < g then g else f);
    MoreFuel(decls, t, g, if f < g then g else f);
  }

  function Mentions(t: Ty): set<string> {
    match t
    case Atom(name) => {name}
    case Arr(e) => Mentions(e) case Ref(e) => Mentions(e) case Tsk(e) => Mentions(e)
    case Map(k, v) => Mentions(k) + Mentions(v)
    case Fn(i, o) => Mentions(i) + Mentions(o)
  }

  /** What unfolding leaves mentions no alias. */
  lemma {:induction false} ExpansionHasNoAlias(decls: Decls, t: Ty, fuel: nat)
    requires Expand(decls, t, fuel).Some?
    ensures forall name :: name in Mentions(Expand(decls, t, fuel).value) ==> name == "OBJ" || Plain(decls, name) == Some(Atom(name))
    decreases fuel, t
  {
    match t
    case Atom(name) => if Plain(decls, name).None? { ExpansionHasNoAlias(decls, decls[name].raw, fuel - 1); }
    case Arr(e) => ExpansionHasNoAlias(decls, e, fuel);
    case Ref(e) => ExpansionHasNoAlias(decls, e, fuel);
    case Tsk(e) => ExpansionHasNoAlias(decls, e, fuel);
    case Map(k, v) => ExpansionHasNoAlias(decls, k, fuel); ExpansionHasNoAlias(decls, v, fuel);
    case Fn(i, o) => ExpansionHasNoAlias(decls, i, fuel); ExpansionHasNoAlias(decls, o, fuel);
  }

  // ---- memoised resolution gives the meaning ----

  /** Every remembered target is the full unfolding of its alias. */
  predicate MemoOk(decls: Decls, memo: map<string, Ty>) {
    forall name :: name in memo ==> IsAlias(decls, name) && Expand(decls, Atom(name), |memo|) == Some(memo[name])
  }

  lemma {:induction false} Remember(decls: Decls, memo: map<string, Ty>, name: string, ty: Ty)
    requires MemoOk(decls, memo) && IsAlias(decls, name) && name !in memo && Expand(decls, decls[name].raw, |memo|) == Some(ty)
    ensures var more := memo[name := ty]; MemoOk(decls, more) && Expand(decls, Atom(name), |more|) == Some(ty)
  {
    var more := memo[name := ty];
    assert more.Keys == memo.Keys + {name};
    assert |more| == |memo| + 1;
    forall other | other in memo ensures Expand(decls, Atom(other), |more|) == Some(memo[other]) {
      MoreFuel(decls, Atom(other), |memo|, |more|);
    }
  }

  predicate Grown(memo: map<string, Ty>, more: map<string, Ty>) { |memo| <= |more| && forall name :: name in memo ==> name in more && more[name] == memo[name] }

  predicate Resolved(decls: Decls, t: Ty, memo: map<string, Ty>, resolving: set<string>, out: Outcome) {
    out.Done? ==>
      && MemoOk(decls, out.memo) && Grown(memo, out.memo) && out.memo.Keys !! resolving
      && Expand(decls, t, |out.memo|) == Some(out.ty)
  }

  lemma {:induction false} ResolveExpands(decls: Decls, t: Ty, memo: map<string, Ty>, resolving: set<string>)
    requires MemoOk(decls, memo) && memo.Keys !! resolving
    ensures Resolved(decls, t, memo, resolving, Resolve(decls, t, memo, resolving))
    decreases |decls.Keys - resolving|, t, 1
  {
    match t
    case Atom(name) =>
      if IsAlias(decls, name) && name !in memo && name !in resolving { AliasExpands(decls, name, memo, resolving); }
    case Arr(e) => ResolveExpands(decls, e, memo, resolving);
    case Ref(e) => ResolveExpands(decls, e, memo, resolving);
    case Tsk(e) => ResolveExpands(decls, e, memo, resolving);
    case Map(k, v) => PairExpands(decls, t, k, v, memo, resolving);
    case Fn(i, o) => PairExpands(decls, t, i, o, memo, resolving);
  }

  lemma {:induction false} AliasExpands(decls: Decls, name: string, memo: map<string, Ty>, resolving: set<string>)
    requires MemoOk(decls, memo) && memo.Keys !! resolving
    requires IsAlias(decls, name) && name !in memo && name !in resolving
    ensures Resolved(decls, Atom(name), memo, resolving, Resolve(decls, Atom(name), memo, resolving))
    decreases |decls.Keys - resolving|, Atom(name), 0
  {
    OpeningShrinks(decls, name, resolving);
    var inner := Resolve(decls, decls[name].raw, memo, resolving + {name});
    ResolveExpands(decls, decls[name].raw, memo, resolving + {name});
    if inner.Done? {
      Remember(decls, inner.memo, name, inner.ty);
      assert Grown(memo, inner.memo[name := inner.ty]);
    }
    AliasStep(decls, name, memo, resolving);
  }

  lemma {:induction false} AliasStep(decls: Decls, name: string, memo: map<string, Ty>, resolving: set<string>)
    requires IsAlias(decls, name) && name !in memo && name !in resolving
    ensures Resolve(decls, Atom(name), memo, resolving) == Noted(name, Resolve(decls, decls[name].raw, memo, resolving + {name}))
  {
  }

  function Noted(name: string, inner: Outcome): Outcome {
    if inner.Failed? then inner else Done(inner.ty, inner.memo[name := inner.ty])
  }

  lemma {:induction false} PairExpands(decls: Decls, t: Ty, a: Ty, b: Ty, memo: map<string, Ty>, resolving: set<string>)
    requires t == Map(a, b) || t == Fn(a, b)
    requires MemoOk(decls, memo) && memo.Keys !! resolving
    ensures Resolved(decls, t, memo, resolving, Resolve(decls, t, memo, resolving))
    decreases |decls.Keys - resolving|, t, 0
  {
    ResolveExpands(decls, a, memo, resolving);
    var first := Resolve(decls, a, memo, resolving);
    if first.Done? {
      ResolveExpands(decls, b, first.memo, resolving);
      var second := Resolve(decls, b, first.memo, resolving);
      if second.Done? { MoreFuel(decls, a, |first.memo|, |second.memo|); }
    }
  }

  // ---- what a failure means ----

  predicate Step(decls: Decls, a: string, b: string) { IsAlias(decls, a) && b in Mentions(decls[a].raw) }

  /** Each name is an alias whose target mentions the next. */
  predicate Chain(decls: Decls, w: seq<string>) { w != [] && forall i :: 0 <= i < |w| - 1 ==> Step(decls, w[i], w[i + 1]) }

  predicate Undeclared(decls: Decls, name: string) { Plain(decls, name).None? && name !in decls }

  /** A chain that comes to an undeclared name or back to itself. */
  predicate Stuck(decls: Decls, w: seq<string>) {
    Chain(decls, w) && (Undeclared(decls, w[|w| - 1]) || w[|w| - 1] in w[..|w| - 1])
  }

  predicate Blame(decls: Decls, error: Error, w: seq<string>)
    requires w != []
  {
    && error.name == w[|w| - 1]
    && (error.Unknown? <==> Undeclared(decls, w[|w| - 1])) && (error.Cyclic? ==> w[|w| - 1] in w[..|w| - 1])
  }

  predicate From(t: Ty, stack: seq<string>, w: seq<string>)
    requires w != []
  {
    if stack == [] then w[0] in Mentions(t) else w[0] == stack[0]
  }

  function Elements(s: seq<string>): set<string> { set x | x in s }

  /** `stack` is a chain whose last alias mentions `names`. */
  predicate Opened(decls: Decls, stack: seq<string>, names: set<string>) {
    stack != [] ==>
      var top := stack[|stack| - 1];
      Chain(decls, stack) && IsAlias(decls, top) && names <= Mentions(decls[top].raw)
  }

  lemma {:induction false} ChainExtends(decls: Decls, stack: seq<string>, name: string)
    requires Opened(decls, stack, {name})
    ensures Chain(decls, stack + [name])
  {
    var w := stack + [name];
    forall i | 0 <= i < |w| - 1 ensures Step(decls, w[i], w[i + 1]) {
      if i < |stack| - 1 { assert Step(decls, stack[i], stack[i + 1]); } else { assert name in {name}; }
    }
  }

  /** `stack` lists the marked aliases in the order they were opened. */
  lemma {:induction false} ResolveFails(decls: Decls, t: Ty, memo: map<string, Ty>, stack: seq<string>) returns (w: seq<string>)
    requires Opened(decls, stack, Mentions(t))
    requires Resolve(decls, t, memo, Elements(stack)).Failed?
    ensures Stuck(decls, w) && From(t, stack, w) && Blame(decls, Resolve(decls, t, memo, Elements(stack)).error, w)
    decreases |decls.Keys - Elements(stack)|, t, 1
  {
    var resolving := Elements(stack);
    match t
    case Atom(name) => w := AliasFails(decls, name, memo, stack);
    case Arr(e) => w := ResolveFails(decls, e, memo, stack);
    case Ref(e) => w := ResolveFails(decls, e, memo, stack);
    case Tsk(e) => w := ResolveFails(decls, e, memo, stack);
    case Map(k, v) =>
      var first := Resolve(decls, k, memo, resolving);
      if first.Failed? { w := ResolveFails(decls, k, memo, stack); } else { w := ResolveFails(decls, v, first.memo, stack); }
    case Fn(i, o) =>
      var first := Resolve(decls, i, memo, resolving);
      if first.Failed? { w := ResolveFails(decls, i, memo, stack); } else { w := ResolveFails(decls, o, first.memo, stack); }
  }

  lemma {:induction false} AliasFails(decls: Decls, name: string, memo: map<string, Ty>, stack: seq<string>) returns (w: seq<string>)
    requires Opened(decls, stack, {name}) && Resolve(decls, Atom(name), memo, Elements(stack)).Failed?
    ensures Stuck(decls, w) && From(Atom(name), stack, w)
    ensures Blame(decls, Resolve(decls, Atom(name), memo, Elements(stack)).error, w)
    decreases |decls.Keys - Elements(stack)|, Atom(name), 0
  {
    ChainExtends(decls, stack, name);
    if IsAlias(decls, name) && name !in memo && name !in stack {
      OpeningShrinks(decls, name, Elements(stack));
      assert Elements(stack + [name]) == Elements(stack) + {name};
      AliasStep(decls, name, memo, Elements(stack));
      w := ResolveFails(decls, decls[name].raw, memo, stack + [name]);
    } else {
      w := stack + [name];
      NameFails(decls, name, memo, stack);
    }
  }

  lemma {:induction false} NameFails(decls: Decls, name: string, memo: map<string, Ty>, stack: seq<string>)
    requires Chain(decls, stack + [name])
    requires Resolve(decls, Atom(name), memo, Elements(stack)).Failed?
    requires !IsAlias(decls, name) || name in memo || name in stack
    ensures Stuck(decls, stack + [name])
    ensures Blame(decls, Resolve(decls, Atom(name), memo, Elements(stack)).error, stack + [name])
  {
    assert (stack + [name])[..|stack|] == stack;
  }

  lemma {:induction false} PartsExpand(decls: Decls, t: Ty, fuel: nat, name: string)
    requires Expand(decls, t, fuel).Some? && name in Mentions(t)
    ensures Expand(decls, Atom(name), fuel).Some?
    decreases t
  {
    match t
    case Atom(_) =>
    case Arr(e) => PartsExpand(decls, e, fuel, name);
    case Ref(e) => PartsExpand(decls, e, fuel, name);
    case Tsk(e) => PartsExpand(decls, e, fuel, name);
    case Map(k, v) => if name in Mentions(k) { PartsExpand(decls, k, fuel, name); } else { PartsExpand(decls, v, fuel, name); }
    case Fn(i, o) => if name in Mentions(i) { PartsExpand(decls, i, fuel, name); } else { PartsExpand(decls, o, fuel, name); }
  }

  /** Unfolding spends one unit of fuel on every step of a chain. */
  lemma {:induction false} ChainSpends(decls: Decls, w: seq<string>, fuel: nat)
    requires Chain(decls, w) && Expand(decls, Atom(w[0]), fuel).Some?
    ensures fuel >= |w| - 1 && Expand(decls, Atom(w[|w| - 1]), fuel - (|w| - 1)).Some?
    decreases |w|
  {
    if |w| > 1 {
      assert Step(decls, w[0], w[1]);
      PartsExpand(decls, decls[w[0]].raw, fuel - 1, w[1]);
      forall i | 0 <= i < |w[1..]| - 1 ensures Step(decls, w[1..][i], w[1..][i + 1]) {
        assert Step(decls, w[i + 1], w[i + 2]);
      }
      ChainSpends(decls, w[1..], fuel - 1);
    }
  }

  lemma {:induction false} LoopsNeverExpand(decls: Decls, w: seq<string>, fuel: nat)
    requires Chain(decls, w) && |w| > 1 && w[0] == w[|w| - 1]
    ensures Expand(decls, Atom(w[0]), fuel).None?
    decreases fuel
  {
    if Expand(decls, Atom(w[0]), fuel).Some? {
      ChainSpends(decls, w, fuel);
      LoopsNeverExpand(decls, w, fuel - (|w| - 1));
    }
  }

  lemma {:induction false} StuckNeverExpands(decls: Decls, w: seq<string>, fuel: nat)
    requires Stuck(decls, w)
    ensures Expand(decls, Atom(w[0]), fuel).None?
  {
    if Expand(decls, Atom(w[0]), fuel).Some? {
      if Undeclared(decls, w[|w| - 1]) {
        ChainSpends(decls, w, fuel);
      } else {
        var k :| 0 <= k < |w| - 1 && w[k] == w[|w| - 1];
        assert Chain(decls, w[..k + 1]) by { forall i | 0 <= i < k ensures Step(decls, w[i], w[i + 1]) {} }
        assert Chain(decls, w[k..]) by { forall i | k <= i < |w| - 1 ensures Step(decls, w[i], w[i + 1]) {} }
        ChainSpends(decls, w[..k + 1], fuel);
        LoopsNeverExpand(decls, w[k..], fuel - k);
      }
    }
  }

  // ---- the theorems ----

  /** Resolution succeeds exactly when unfolding ends, whatever was remembered before; what it
      returns is the full unfolding and mentions no alias. */
  lemma {:induction false} ResolvesExactly(decls: Decls, t: Ty, memo: map<string, Ty>)
    requires MemoOk(decls, memo)
    ensures var out := Resolve(decls, t, memo, {});
      if out.Done? then
        && Means(decls, t, out.ty) && MemoOk(decls, out.memo) && Grown(memo, out.memo)
        && forall name :: name in Mentions(out.ty) ==> name == "OBJ" || !IsAlias(decls, name)
      else forall ty :: !Means(decls, t, ty)
  {
    var out := Resolve(decls, t, memo, {});
    if out.Done? {
      ResolveExpands(decls, t, memo, {});
      ExpansionHasNoAlias(decls, t, |out.memo|);
    } else {
      assert Elements([]) == {};
      var w := ResolveFails(decls, t, memo, []);
      forall ty ensures !Means(decls, t, ty) { StuckHasNoMeaning(decls, t, w, ty); }
    }
  }

  lemma {:induction false} StuckHasNoMeaning(decls: Decls, t: Ty, w: seq<string>, ty: Ty)
    requires Stuck(decls, w) && w[0] in Mentions(t)
    ensures !Means(decls, t, ty)
  {
    if Means(decls, t, ty) {
      var fuel: nat :| Expand(decls, t, fuel) == Some(ty);
      PartsExpand(decls, t, fuel, w[0]);
      StuckNeverExpands(decls, w, fuel);
    }
  }

  /** It fails exactly when some chain of mentions comes to an undeclared name or closes on
      itself; so with all names declared, exactly on a cycle, and the error names one. */
  lemma {:induction false} FailsExactlyWhenStuck(decls: Decls, t: Ty, memo: map<string, Ty>)
    requires MemoOk(decls, memo)
    ensures var out := Resolve(decls, t, memo, {});
      && (out.Failed? <==> exists w :: Stuck(decls, w) && w[0] in Mentions(t))
      && (out.Failed? ==> exists w :: Stuck(decls, w) && w[0] in Mentions(t) && Blame(decls, out.error, w))
  {
    var out := Resolve(decls, t, memo, {});
    ResolveExpands(decls, t, memo, {});
    if out.Failed? {
      assert Elements([]) == {};
      var w := ResolveFails(decls, t, memo, []);
    } else {
      forall w | Stuck(decls, w) ensures w[0] !in Mentions(t) {
        StuckNeverExpands(decls, w, |out.memo|);
        if w[0] in Mentions(t) { PartsExpand(decls, t, |out.memo|, w[0]); }
      }
    }
  }

  // ---- which names stand for themselves ----

  /** The five scalars and the declared structs. */
  predicate Ground(decls: Decls, name: string) {
    name in {"INT", "FLT", "BOL", "STR", "NUL"} || (name != "DYN" && name in decls && decls[name].Struct?)
  }

  /** A type of such names resolves to itself, whatever else is declared or being resolved. */
  lemma {:induction false} GroundStands(decls: Decls, t: Ty, memo: map<string, Ty>, resolving: set<string>)
    requires forall name :: name in Mentions(t) ==> Ground(decls, name)
    ensures Resolve(decls, t, memo, resolving) == Done(t, memo)
    ensures Resolve(decls, Atom("DYN"), memo, resolving) == Done(Atom("OBJ"), memo)
  {
    match t
    case Atom(name) => assert name in Mentions(t);
    case Arr(e) => GroundStands(decls, e, memo, resolving);
    case Ref(e) => GroundStands(decls, e, memo, resolving);
    case Tsk(e) => GroundStands(decls, e, memo, resolving);
    case Map(k, v) => GroundStands(decls, k, memo, resolving); GroundStands(decls, v, memo, resolving);
    case Fn(i, o) => GroundStands(decls, i, memo, resolving); GroundStands(decls, o, memo, resolving);
  }

  /** A type that mentions a name nobody declared does not resolve. */
  lemma {:induction false} UndeclaredFails(decls: Decls, t: Ty, name: string, memo: map<string, Ty>, resolving: set<string>)
    requires name in Mentions(t) && name !in decls && name !in {"INT", "FLT", "BOL", "STR", "NUL", "DYN"}
    ensures Resolve(decls, t, memo, resolving).Failed?
    decreases t, 1
  {
    match t
    case Atom(_) =>
    case Arr(e) => UndeclaredFails(decls, e, name, memo, resolving);
    case Ref(e) => UndeclaredFails(decls, e, name, memo, resolving);
    case Tsk(e) => UndeclaredFails(decls, e, name, memo, resolving);
    case Map(k, v) => PartFails(decls, t, k, v, name, memo, resolving);
    case Fn(i, o) => PartFails(decls, t, i, o, name, memo, resolving);
  }

  lemma {:induction false} PartFails(decls: Decls, t: Ty, a: Ty, b: Ty, name: string, memo: map<string, Ty>, resolving: set<string>)
    requires (t == Map(a, b) || t == Fn(a, b)) && name in Mentions(t)
    requires name !in decls && name !in {"INT", "FLT", "BOL", "STR", "NUL", "DYN"}
    ensures Resolve(decls, t, memo, resolving).Failed?
    decreases t, 0
  {
    if name in Mentions(a) {
      UndeclaredFails(decls, a, name, memo, resolving);
    } else {
      var first := Resolve(decls, a, memo, resolving);
      if first.Done? { UndeclaredFails(decls, b, name, first.memo, resolving); }
    }
  }
}
