/** The relation between by-value variables and the generated code's variables and heap. A
    call owns the blocks allocated since it began, from address `base` on. What it was handed
    as arguments is on loan: only parameters not yet assigned hold such blocks. */
module LoweringHeap {
  import opened Wrappers
  import opened CasterAst
  import S = ByValue
  import opened Machine
  import opened LoweringSource

  ghost predicate Rep(v: S.Val, c: CVal, h: Heap) {
    match v
    case VStr(s) => (c.Static? && c.text == s) || (c.Owned? && c.addr in h.live && h.live[c.addr] == s)
    case VInt(n) => c == IntVal(n)
    case VBol(b) => c == BoolVal(b)
    case VNul => c == Void
  }

  ghost predicate HeapOk(h: Heap) { forall a :: a in h.live ==> a < h.next }

  /** Between h and k nothing outside `touched` was freed or rewritten. */
  ghost predicate Keep(h: Heap, k: Heap, touched: set<nat>) {
    h.next <= k.next && forall a :: a in h.live && a !in touched ==> a in k.live && k.live[a] == h.live[a]
  }

  predicate Since(c: CVal, base: nat) { c.Owned? ==> c.addr >= base }

  ghost function Addrs(m: map<Var, CVal>, base: nat): set<nat> { set x | x in m && m[x].Owned? && m[x].addr >= base :: m[x].addr }

  ghost function Own(te: Env<CVal>, base: nat): set<nat> {
    Addrs(te.vars, base) + if te.Inner? then Own(te.outer, base) else {}
  }

  ghost predicate Unshared(m: map<Var, CVal>, base: nat) {
    forall x, y :: x in m && y in m && x != y && m[x].Owned? && m[y].Owned? && m[x].addr >= base ==> m[x].addr != m[y].addr
  }

  /** No two variables in scope hold the same block of the call's own. */
  ghost predicate Sep(te: Env<CVal>, base: nat) {
    Unshared(te.vars, base) && (te.Inner? ==> Addrs(te.vars, base) !! Own(te.outer, base) && Sep(te.outer, base))
  }

  /** The variables that hold a block of the caller's. */
  ghost function Loans(te: Env<CVal>, base: nat): set<Var> {
    if te.Root? then set x | x in te.vars && !Since(te.vars[x], base) else Loans(te.outer, base)
  }

  /** Blocks of the caller's are in the function's own scope only. */
  ghost predicate Scoped(te: Env<CVal>, base: nat) {
    te.Inner? ==> (forall x :: x in te.vars ==> Since(te.vars[x], base)) && Scoped(te.outer, base)
  }

  ghost predicate ScopeMatch(m: map<Var, S.Val>, c: map<Var, CVal>, h: Heap) {
    m.Keys == c.Keys && forall x :: x in m ==> Rep(m[x], c[x], h)
  }

  ghost predicate Match(se: Env<S.Val>, te: Env<CVal>, h: Heap) {
    ScopeMatch(se.vars, te.vars, h) && (se.Root? <==> te.Root?) && (se.Inner? ==> Match(se.outer, te.outer, h))
  }

  lemma {:induction false} MatchKeep(se: Env<S.Val>, te: Env<CVal>, h: Heap, k: Heap, touched: set<nat>, base: nat)
    requires Match(se, te, h) && Keep(h, k, touched) && Own(te, base) !! touched && forall a :: a in touched ==> a >= base
    ensures Match(se, te, k)
  {
    forall x | x in se.vars ensures Rep(se.vars[x], te.vars[x], k) {
      var c := te.vars[x];
      if c.Owned? && c.addr >= base { assert c.addr in Addrs(te.vars, base); }
    }
    if se.Inner? { MatchKeep(se.outer, te.outer, h, k, touched, base); }
  }

  lemma {:induction false} MatchGrow(se: Env<S.Val>, te: Env<CVal>, h: Heap, k: Heap)
    requires Match(se, te, h) && Keep(h, k, {})
    ensures Match(se, te, k)
  {
    MatchKeep(se, te, h, k, {}, 0);
  }

  lemma {:induction false} OwnLive(se: Env<S.Val>, te: Env<CVal>, h: Heap, base: nat)
    requires Match(se, te, h)
    ensures forall a :: a in Own(te, base) ==> a in h.live && a >= base
  {
    if se.Inner? { OwnLive(se.outer, te.outer, h, base); }
  }

  lemma {:induction false} LookupMatch(se: Env<S.Val>, te: Env<CVal>, h: Heap, x: Var)
    requires Match(se, te, h)
    ensures Lookup(se, x).Some? <==> Lookup(te, x).Some?
    ensures Lookup(se, x).Some? ==> Rep(Lookup(se, x).value, Lookup(te, x).value, h)
  {
    if x !in se.vars && se.Inner? { LookupMatch(se.outer, te.outer, h, x); }
  }

  lemma {:induction false} LookupOwn(te: Env<CVal>, x: Var, base: nat)
    ensures Lookup(te, x).Some? && Lookup(te, x).value.Owned? && Since(Lookup(te, x).value, base) ==>
              Lookup(te, x).value.addr in Own(te, base)
  {
    if x !in te.vars && te.Inner? { LookupOwn(te.outer, x, base); }
  }

  /** Any other variable holds static text or a block of the call's own. */
  lemma {:induction false} LookupSince(te: Env<CVal>, x: Var, base: nat)
    requires Scoped(te, base) && x !in Loans(te, base) && Lookup(te, x).Some?
    ensures Since(Lookup(te, x).value, base)
  {
    if x !in te.vars { LookupSince(te.outer, x, base); }
  }

  lemma {:induction false} LookupDistinct(te: Env<CVal>, x: Var, y: Var, base: nat)
    requires Sep(te, base) && x != y
    requires Lookup(te, x).Some? && Lookup(te, x).value.Owned? && Since(Lookup(te, x).value, base)
    requires Lookup(te, y).Some? && Lookup(te, y).value.Owned? && Since(Lookup(te, y).value, base)
    ensures Lookup(te, x).value.addr != Lookup(te, y).value.addr
  {
    if te.Inner? {
      LookupOwn(te.outer, x, base);
      LookupOwn(te.outer, y, base);
      if x !in te.vars && y !in te.vars { LookupDistinct(te.outer, x, y, base); }
    }
  }

  lemma {:induction false} StoreMatch(se: Env<S.Val>, te: Env<CVal>, h: Heap, x: Var, v: S.Val, c: CVal)
    requires Match(se, te, h) && Lookup(se, x).Some? && Lookup(te, x).Some? && Rep(v, c, h)
    ensures Match(Store(se, x, v), Store(te, x, c), h)
  {
    if x !in se.vars { StoreMatch(se.outer, te.outer, h, x, v, c); }
  }

  /** Storing back what a variable holds changes nothing. */
  lemma {:induction false} StoreSelf(te: Env<CVal>, x: Var)
    requires Lookup(te, x).Some?
    ensures Store(te, x, Lookup(te, x).value) == te
  {
    if x in te.vars { assert te.vars[x := te.vars[x]] == te.vars; } else { StoreSelf(te.outer, x); }
  }

  ghost function AddrOf(c: CVal): set<nat> { if c.Owned? then {c.addr} else {} }

  lemma {:induction false} AddrsUpdate(m: map<Var, CVal>, x: Var, c: CVal, base: nat)
    requires Unshared(m, base) && AddrOf(c) !! Addrs(m, base)
    ensures Unshared(m[x := c], base) && Addrs(m[x := c], base) <= Addrs(m, base) + AddrOf(c)
  {
    var n := m[x := c];
    forall a | a in Addrs(n, base) ensures a in Addrs(m, base) + AddrOf(c) {
      var y :| y in n && n[y].Owned? && n[y].addr >= base && n[y].addr == a;
      if y != x { assert m[y].addr in Addrs(m, base); }
    }
    forall y, z | y in n && z in n && y != z && n[y].Owned? && n[z].Owned? && n[y].addr >= base
      ensures n[y].addr != n[z].addr
    {
      if y == x && m[z].addr >= base { assert m[z].addr in Addrs(m, base); }
      if z == x { assert m[y].addr in Addrs(m, base); }
    }
  }

  /** Storing a value nobody holds keeps variables separate, and takes x off the loans. */
  lemma {:induction false} StoreSep(te: Env<CVal>, x: Var, c: CVal, base: nat)
    requires Sep(te, base) && Scoped(te, base) && Lookup(te, x).Some? && AddrOf(c) !! Own(te, base) && Since(c, base)
    ensures Sep(Store(te, x, c), base) && Scoped(Store(te, x, c), base)
    ensures Own(Store(te, x, c), base) <= Own(te, base) + AddrOf(c)
    ensures Loans(Store(te, x, c), base) <= Loans(te, base)
    ensures te.Root? ==> x !in Loans(Store(te, x, c), base)
  {
    if x !in te.vars { StoreSep(te.outer, x, c, base); } else { AddrsUpdate(te.vars, x, c, base); }
  }

  /** Overwriting a variable with static text gives up its block. */
  lemma {:induction false} StoreForgets(te: Env<CVal>, x: Var, c: CVal, base: nat)
    requires Sep(te, base) && Lookup(te, x).Some? && Lookup(te, x).value.Owned? && Since(Lookup(te, x).value, base) && !c.Owned?
    ensures Lookup(te, x).value.addr !in Own(Store(te, x, c), base)
  {
    if x !in te.vars {
      LookupOwn(te.outer, x, base);
      StoreForgets(te.outer, x, c, base);
    } else {
      var a := te.vars[x].addr;
      assert a in Addrs(te.vars, base);
      assert a !in Addrs(te.vars[x := c], base);
    }
  }

  lemma {:induction false} DeclareSep(te: Env<CVal>, x: Var, c: CVal, base: nat)
    requires Sep(te, base) && Scoped(te, base) && x !in te.vars && AddrOf(c) !! Own(te, base) && Since(c, base)
    ensures Sep(Put(te, x, c), base) && Scoped(Put(te, x, c), base)
    ensures Own(Put(te, x, c), base) <= Own(te, base) + AddrOf(c)
    ensures Loans(Put(te, x, c), base) <= Loans(te, base)
    ensures te.Root? ==> x !in Loans(Put(te, x, c), base)
  {
    AddrsUpdate(te.vars, x, c, base);
  }

  // ---- parameters ----

  ghost predicate AllRep(vs: seq<S.Val>, cs: seq<CVal>, h: Heap) {
    |vs| == |cs| && forall i :: 0 <= i < |vs| ==> Rep(vs[i], cs[i], h)
  }

  /** Only parameters named in `params` are on loan. */
  ghost predicate LentTo(lent: set<Var>, params: set<string>) { forall x :: x in lent ==> x.User? && x.name in params }

  function ParamNames(params: seq<Param>): set<string> { set q | q in params :: q.name }

  lemma {:induction false} BindMatch(params: seq<Param>, vs: seq<S.Val>, cs: seq<CVal>, h: Heap)
    requires |params| == |cs| && AllRep(vs, cs, h) && HeapOk(h)
    ensures ScopeMatch(Bind(params, vs), Bind(params, cs), h)
    ensures forall x :: x in Bind(params, cs) ==> x.User? && x.name in ParamNames(params)
    ensures forall x :: x in Bind(params, cs) && Bind(params, cs)[x].Owned? ==> Bind(params, cs)[x].addr < h.next
  {
    if params != [] {
      BindMatch(params[1..], vs[1..], cs[1..], h);
      assert forall q :: q in params[1..] ==> q in params;
      assert params[0] in params;
      assert Rep(vs[0], cs[0], h);
    }
  }

  // ---- the drops of a return ----

  ghost predicate Droppable(te: Env<CVal>, h: Heap, names: seq<string>) {
    && (forall i :: 0 <= i < |names| ==>
          var v := Lookup(te, User(names[i]));
          v.Some? && IsText(v.value) && (v.value.Owned? ==> v.value.addr in h.live))
    && (forall i, j :: 0 <= i < j < |names| ==>
          AddrOf(Lookup(te, User(names[i])).value) !! AddrOf(Lookup(te, User(names[j])).value))
  }

  ghost function DropAddrs(te: Env<CVal>, names: seq<string>): set<nat> {
    set i | 0 <= i < |names| && Lookup(te, User(names[i])).Some? && Lookup(te, User(names[i])).value.Owned?
      :: Lookup(te, User(names[i])).value.addr
  }

  /** Dropping distinct live locals frees exactly their blocks, each once. */
  lemma {:induction false} DropNamesExact(te: Env<CVal>, h: Heap, names: seq<string>)
    requires Droppable(te, h, names)
    ensures DropNames(te, h, names) == Done(Heap(h.next, h.live - DropAddrs(te, names)))
    decreases names
  {
    if names == [] {
      assert h.live - DropAddrs(te, names) == h.live;
    } else {
      var v := Lookup(te, User(names[0])).value;
      var k := DropValue(h, v).value;
      forall i | 0 <= i < |names[1..]|
        ensures var w := Lookup(te, User(names[1..][i]));
                w.Some? && IsText(w.value) && (w.value.Owned? ==> w.value.addr in k.live)
      {
        assert names[1..][i] == names[i + 1];
      }
      assert Droppable(te, k, names[1..]);
      DropNamesExact(te, k, names[1..]);
      DropAddrsSplit(te, names);
      assert k.live == h.live - AddrOf(v);
      assert h.live - AddrOf(v) - DropAddrs(te, names[1..]) == h.live - DropAddrs(te, names);
    }
  }

  lemma {:induction false} DropAddrsSplit(te: Env<CVal>, names: seq<string>)
    requires names != [] && Lookup(te, User(names[0])).Some?
    ensures DropAddrs(te, names) == AddrOf(Lookup(te, User(names[0])).value) + DropAddrs(te, names[1..])
  {
    var v := Lookup(te, User(names[0])).value;
    forall a | a in DropAddrs(te, names) ensures a in AddrOf(v) + DropAddrs(te, names[1..]) {
      var i :| 0 <= i < |names| && Lookup(te, User(names[i])).Some? && Lookup(te, User(names[i])).value.Owned?
        && Lookup(te, User(names[i])).value.addr == a;
      if i > 0 { assert names[1..][i - 1] == names[i]; }
    }
    forall a | a in DropAddrs(te, names[1..]) ensures a in DropAddrs(te, names) {
      var i :| 0 <= i < |names[1..]| && Lookup(te, User(names[1..][i])).Some?
        && Lookup(te, User(names[1..][i])).value.Owned? && Lookup(te, User(names[1..][i])).value.addr == a;
      assert names[i + 1] == names[1..][i];
    }
    forall a | a in AddrOf(v) ensures a in DropAddrs(te, names) {
      assert Lookup(te, User(names[0])).value.addr == a;
    }
  }

  /** Names declared as text and not on loan can be dropped, each of its own block. */
  lemma {:induction false} ListedDroppable(se: Env<S.Val>, te: Env<CVal>, h: Heap, names: seq<string>, base: nat)
    requires Match(se, te, h) && Sep(te, base) && Scoped(te, base) && Listed(names, se)
    requires forall n :: n in names ==> User(n) !in Loans(te, base)
    ensures Droppable(te, h, names) && DropAddrs(te, names) <= Own(te, base)
  {
    forall i | 0 <= i < |names|
      ensures var v := Lookup(te, User(names[i]));
              v.Some? && IsText(v.value) && Since(v.value, base)
              && (v.value.Owned? ==> v.value.addr in h.live && v.value.addr in Own(te, base))
    {
      assert names[i] in names;
      LookupMatch(se, te, h, User(names[i]));
      LookupSince(te, User(names[i]), base);
      LookupOwn(te, User(names[i]), base);
    }
    forall i, j | 0 <= i < j < |names|
      ensures AddrOf(Lookup(te, User(names[i])).value) !! AddrOf(Lookup(te, User(names[j])).value)
    {
      var a, b := Lookup(te, User(names[i])).value, Lookup(te, User(names[j])).value;
      if a.Owned? && b.Owned? { LookupDistinct(te, User(names[i]), User(names[j]), base); }
    }
  }
}
