/** Laws of the collection methods, and the in-place forms. */
module CollectionLaws {
  import opened Wrappers
  import opened TextOrder
  import opened Collections
  import opened CollectionLoops
  import opened CollectionProof

  // ---- any, filt and agg ----

  /** any(p) is filt(p).len() > 0. */
  lemma {:induction false} AnyIsFiltLength(vs: seq<Val>, k: nat, test: Body, env: Env)
    requires k <= |vs| && FiltFrom(vs, k, test, env).Some?
    ensures AnyFrom(vs, k, test, env) == Some(|FiltFrom(vs, k, test, env).value| > 0)
    decreases |vs| - k
  {
    if k < |vs| { AnyIsFiltLength(vs, k + 1, test, env); }
  }

  lemma {:induction false} IndexUnused(b: Body, e: Val, i: int, j: int, env: Env)
    requires NoIndex(b)
    ensures BodyVal(b, e, i, env) == BodyVal(b, e, j, env)
  {
    match b
    case Bin(_, l, r) => IndexUnused(l, e, i, j, env); IndexUnused(r, e, i, j, env);
    case Not(x) => IndexUnused(x, e, i, j, env);
    case And(l, r) => IndexUnused(l, e, i, j, env); IndexUnused(r, e, i, j, env);
    case Or(l, r) => IndexUnused(l, e, i, j, env); IndexUnused(r, e, i, j, env);
    case Key(row) => IndexUnused(row, e, i, j, env);
    case Rows(row) => IndexUnused(row, e, i, j, env);
    case _ =>
  }

  lemma {:induction false} OneStep(s: Step, acc: Val, e: Val, i: int, env: Env)
    ensures StepsVal(acc, [s], e, i, env)
            == var t := if s.test.None? then Some(true) else Truth(BodyVal(s.test.value, e, i, env));
               if t.None? then None else if !t.value then Some(acc)
               else Apply2(if s.minus then Sub else Add, Some(acc), BodyVal(s.value, e, i, env))
  {
    assert [s][1..] == [];
  }

  lemma {:induction false} AggShifts(front: seq<Val>, vs: seq<Val>, k: nat, acc: Val, minus: bool, value: Body, env: Env)
    requires k <= |vs| && NoIndex(value)
    ensures var steps := [Step(minus, value, None)];
      AggFrom(front + vs, |front| + k, acc, steps, env) == AggFrom(vs, k, acc, steps, env)
    decreases |vs| - k
  {
    if k < |vs| {
      var steps := [Step(minus, value, None)];
      assert (front + vs)[|front| + k] == vs[k];
      OneStep(steps[0], acc, vs[k], k, env);
      OneStep(steps[0], acc, vs[k], |front| + k, env);
      IndexUnused(value, vs[k], |front| + k, k, env);
      var next := StepsVal(acc, steps, vs[k], k, env);
      assert StepsVal(acc, steps, vs[k], |front| + k, env) == next;
      if next.Some? { AggShifts(front, vs, k + 1, next.value, minus, value, env); }
    }
  }

  /** agg(+= v if(c)) is filt(c).agg(+= v), when v does not name the index. */
  lemma {:induction false} AggIfIsFiltAgg(vs: seq<Val>, k: nat, acc: Val, minus: bool, value: Body, test: Body, env: Env)
    requires k <= |vs| && NoIndex(value)
    ensures AggFrom(vs, k, acc, [Step(minus, value, Some(test))], env)
            == AggKept(FiltFrom(vs, k, test, env), acc, minus, value, env)
    decreases |vs| - k
  {
    var guarded, plain := [Step(minus, value, Some(test))], [Step(minus, value, None)];
    if k < |vs| {
      OneStep(guarded[0], acc, vs[k], k, env);
      OneStep(plain[0], acc, vs[k], 0, env);
      var t := Truth(BodyVal(test, vs[k], k, env));
      var next := Apply2(if minus then Sub else Add, Some(acc), BodyVal(value, vs[k], k, env));
      if t == Some(false) {
        AggIfIsFiltAgg(vs, k + 1, acc, minus, value, test, env);
        var rest := FiltFrom(vs, k + 1, test, env);
        if rest.Some? { assert [] + rest.value == rest.value; }
      } else if t == Some(true) {
        IndexUnused(value, vs[k], k, 0, env);
        var rest := FiltFrom(vs, k + 1, test, env);
        if next.Some? { AggIfIsFiltAgg(vs, k + 1, next.value, minus, value, test, env); }
        if next.Some? && rest.Some? { AggShifts([vs[k]], rest.value, 0, next.value, minus, value, env); }
      }
    }
  }

  function AggKept(kept: Option<seq<Val>>, acc: Val, minus: bool, value: Body, env: Env): Option<Val> {
    if kept.None? then None else AggFrom(kept.value, 0, acc, [Step(minus, value, None)], env)
  }

  // ---- sort ----

  /** l may stand before r. */
  predicate InOrder(l: Val, r: Val, key: Body, desc: bool, env: Env) { Swaps(l, r, key, desc, env) == Some(false) }

  lemma {:induction false} OrderFacts(key: Body, desc: bool, env: Env, a: Val, b: Val, c: Val)
    ensures Swaps(a, b, key, desc, env) == Some(true) ==> InOrder(b, a, key, desc, env)
    ensures InOrder(a, b, key, desc, env) && InOrder(b, c, key, desc, env) ==> InOrder(a, c, key, desc, env)
  {
    KeyOrder(BodyVal(key, a, 0, env), BodyVal(key, b, 0, env), BodyVal(key, c, 0, env), desc);
  }

  lemma {:induction false} KeyOrder(x: Option<Val>, y: Option<Val>, z: Option<Val>, desc: bool)
    ensures SwapsKeys(x, y, desc) == Some(true) ==> SwapsKeys(y, x, desc) == Some(false)
    ensures SwapsKeys(x, y, desc) == Some(false) && SwapsKeys(y, z, desc) == Some(false) ==> SwapsKeys(x, z, desc) == Some(false)
  {
    if x.Some? && y.Some? { ValueOrder(x.value, y.value, if z.Some? then z.value else y.value, desc); }
  }

  lemma {:induction false} ValueOrder(x: Val, y: Val, z: Val, desc: bool)
    ensures Exchanged(x, y, desc) == Some(true) ==> Exchanged(y, x, desc) == Some(false)
    ensures Exchanged(x, y, desc) == Some(false) && Exchanged(y, z, desc) == Some(false) ==> Exchanged(x, z, desc) == Some(false)
  {
    if x.S? && y.S? {
      CompareIsAntisymmetric(x.s, y.s);
      if z.S? {
        NeverBefore(x.s, y.s, z.s);
        NeverBefore(z.s, y.s, x.s);
        CompareIsAntisymmetric(x.s, z.s);
      }
    }
  }

  /** A rearrangement of the slots from o on. */
  predicate Rearranged(vs: seq<Val>, out: seq<Val>, o: nat)
    requires o <= |vs| && o <= |out|
  {
    multiset(out) == multiset(vs) && out[..o] == vs[..o] && multiset(out[o..]) == multiset(vs[o..])
  }

  /** The slot o comes before those after it, up to j. */
  ghost predicate Selected(vs: seq<Val>, o: nat, j: nat, key: Body, desc: bool, env: Env)
    requires o < |vs| && j <= |vs|
  {
    forall x :: o < x < j ==> InOrder(vs[o], vs[x], key, desc, env)
  }

  lemma {:induction false} ExchangePermutes(vs: seq<Val>, o: nat, j: nat)
    requires o < j < |vs|
    ensures Rearranged(vs, Exchange(vs, o, j), o)
  {
    var out := Exchange(vs, o, j);
    assert out[o..] == vs[o..][0 := vs[j]][j - o := vs[o]];
  }

  lemma {:induction false} ExchangeSelects(vs: seq<Val>, o: nat, j: nat, key: Body, desc: bool, env: Env)
    requires o < j < |vs| && Swaps(vs[o], vs[j], key, desc, env) == Some(true) && Selected(vs, o, j, key, desc, env)
    ensures Selected(Exchange(vs, o, j), o, j + 1, key, desc, env)
  {
    OrderFacts(key, desc, env, vs[o], vs[j], vs[j]);
    forall x | o < x < j ensures InOrder(vs[j], vs[x], key, desc, env) { OrderFacts(key, desc, env, vs[j], vs[o], vs[x]); }
  }

  lemma {:induction false} RearrangedTwice(a: seq<Val>, b: seq<Val>, c: seq<Val>, o: nat)
    requires o <= |a| && o <= |b| && o <= |c| && Rearranged(a, b, o) && Rearranged(b, c, o)
    ensures Rearranged(a, c, o)
  {
  }

  lemma {:induction false} InnerStep(vs: seq<Val>, o: nat, j: nat, key: Body, desc: bool, env: Env)
    requires o < j < |vs| && SortInner(vs, o, j, key, desc, env).Some?
    ensures Swaps(vs[o], vs[j], key, desc, env).Some?
    ensures SortInner(vs, o, j, key, desc, env)
            == SortInner(if Swaps(vs[o], vs[j], key, desc, env).value then Exchange(vs, o, j) else vs, o, j + 1, key, desc, env)
  {
  }

  lemma {:induction false} ExchangedOnce(vs: seq<Val>, o: nat, j: nat, swap: bool)
    requires o < j < |vs|
    ensures Rearranged(vs, if swap then Exchange(vs, o, j) else vs, o)
  {
    if swap { ExchangePermutes(vs, o, j); }
  }

  lemma {:induction false} InnerPermutes(vs: seq<Val>, o: nat, j: nat, key: Body, desc: bool, env: Env)
    requires o < j <= |vs| && SortInner(vs, o, j, key, desc, env).Some?
    ensures Rearranged(vs, SortInner(vs, o, j, key, desc, env).value, o)
    decreases |vs| - j
  {
    if j < |vs| {
      InnerStep(vs, o, j, key, desc, env);
      var swap := Swaps(vs[o], vs[j], key, desc, env).value;
      var next := if swap then Exchange(vs, o, j) else vs;
      ExchangedOnce(vs, o, j, swap);
      InnerPermutes(next, o, j + 1, key, desc, env);
      RearrangedTwice(vs, next, SortInner(next, o, j + 1, key, desc, env).value, o);
    }
  }

  lemma {:induction false} InnerSelects(vs: seq<Val>, o: nat, j: nat, key: Body, desc: bool, env: Env)
    requires o < j <= |vs| && SortInner(vs, o, j, key, desc, env).Some? && Selected(vs, o, j, key, desc, env)
    ensures Selected(SortInner(vs, o, j, key, desc, env).value, o, |vs|, key, desc, env)
    decreases |vs| - j
  {
    if j < |vs| {
      if Swaps(vs[o], vs[j], key, desc, env).value {
        ExchangeSelects(vs, o, j, key, desc, env);
        InnerSelects(Exchange(vs, o, j), o, j + 1, key, desc, env);
      } else {
        InnerSelects(vs, o, j + 1, key, desc, env);
      }
    }
  }

  ghost predicate Sorted(vs: seq<Val>, key: Body, desc: bool, env: Env) {
    forall i, j :: 0 <= i < j < |vs| ==> InOrder(vs[i], vs[j], key, desc, env)
  }

  /** The first o elements are in place: in order among themselves and before all others. */
  ghost predicate Placed(vs: seq<Val>, o: nat, key: Body, desc: bool, env: Env) {
    forall i, j :: 0 <= i < o && i < j < |vs| ==> InOrder(vs[i], vs[j], key, desc, env)
  }

  lemma {:induction false} PlacedGrows(vs: seq<Val>, out: seq<Val>, o: nat, key: Body, desc: bool, env: Env)
    requires o < |vs| == |out| && Placed(vs, o, key, desc, env) && out[..o] == vs[..o] && multiset(out[o..]) == multiset(vs[o..])
    requires forall x :: o < x < |out| ==> InOrder(out[o], out[x], key, desc, env)
    ensures Placed(out, o + 1, key, desc, env)
  {
    forall i, j | 0 <= i < o + 1 && i < j < |out| ensures InOrder(out[i], out[j], key, desc, env) {
      if i < o {
        assert out[i] == out[..o][i] == vs[i];
        if j < o {
          assert out[j] == out[..o][j] == vs[j];
        } else {
          assert out[j] in multiset(out[o..]) by { assert out[o..][j - o] == out[j]; }
          var m :| 0 <= m < |vs[o..]| && vs[o..][m] == out[j];
          assert vs[o + m] == out[j];
        }
      }
    }
  }

  /** One pass puts the next element in place. */
  lemma {:induction false} PassPlaces(vs: seq<Val>, o: nat, key: Body, desc: bool, env: Env)
    requires o < |vs| && Placed(vs, o, key, desc, env) && SortInner(vs, o, o + 1, key, desc, env).Some?
    ensures var out := SortInner(vs, o, o + 1, key, desc, env).value;
      multiset(out) == multiset(vs) && Placed(out, o + 1, key, desc, env)
  {
    InnerPermutes(vs, o, o + 1, key, desc, env);
    InnerSelects(vs, o, o + 1, key, desc, env);
    var out := SortInner(vs, o, o + 1, key, desc, env).value;
    PlacedGrows(vs, out, o, key, desc, env);
    assert vs == vs[..o] + vs[o..] && out == out[..o] + out[o..];
  }

  /** Sorting gives a permutation of the source, in the direction asked for. */
  lemma {:induction false} SortSorts(vs: seq<Val>, o: nat, key: Body, desc: bool, env: Env)
    requires o <= |vs| && Placed(vs, o, key, desc, env) && SortFrom(vs, o, key, desc, env).Some?
    ensures var out := SortFrom(vs, o, key, desc, env).value;
      multiset(out) == multiset(vs) && Sorted(out, key, desc, env)
    decreases |vs| - o
  {
    if o < |vs| {
      var out := SortInner(vs, o, o + 1, key, desc, env).value;
      PassPlaces(vs, o, key, desc, env);
      SortSorts(out, o + 1, key, desc, env);
    }
  }

  // ---- group ----

  function KeyAt(vs: seq<Val>, k: nat, key: Body, env: Env): Option<Val>
    requires k < |vs|
  {
    BodyVal(key, vs[k], k, env)
  }

  /** The distinct keys of the first n elements, as first seen. */
  function FirstSeen(vs: seq<Val>, n: nat, key: Body, env: Env): seq<Val>
    requires n <= |vs|
  {
    if n == 0 then [] else
    var seen, k := FirstSeen(vs, n - 1, key, env), KeyAt(vs, n - 1, key, env);
    if k.None? || k.value in seen then seen else seen + [k.value]
  }

  /** The elements among the first n that have the key, in order. */
  function Members(vs: seq<Val>, n: nat, k: Val, key: Body, env: Env): seq<Val>
    requires n <= |vs|
  {
    if n == 0 then [] else Members(vs, n - 1, k, key, env) + (if KeyAt(vs, n - 1, key, env) == Some(k) then [vs[n - 1]] else [])
  }

  predicate Tabulates(rows: seq<Val>, vs: seq<Val>, n: nat, key: Body, env: Env)
    requires n <= |vs|
  {
    var seen := FirstSeen(vs, n, key, env);
    |rows| == |seen| && forall j :: 0 <= j < |rows| ==> rows[j] == Row(seen[j], Members(vs, n, seen[j], key, env))
  }

  lemma {:induction false} FindRowFinds(rows: seq<Val>, j: nat, key: Val)
    requires j <= |rows|
    ensures match FindRow(rows, j, key)
      case None => true
      case Some(None) => forall i :: j <= i < |rows| ==> rows[i].Row? && rows[i].key != key
      case Some(Some(at)) => rows[at].key == key && forall i :: j <= i < at ==> rows[i].Row? && rows[i].key != key
    decreases |rows| - j
  {
    if j < |rows| { FindRowFinds(rows, j + 1, key); }
  }

  lemma {:induction false} UnseenHasNoMembers(vs: seq<Val>, n: nat, k: Val, key: Body, env: Env)
    requires n <= |vs|
    ensures k !in FirstSeen(vs, n, key, env) ==> Members(vs, n, k, key, env) == []
  {
    if n > 0 { UnseenHasNoMembers(vs, n - 1, k, key, env); }
  }

  predicate Distinct(ks: seq<Val>) { forall i, j :: 0 <= i < |ks| && 0 <= j < |ks| && i != j ==> ks[i] != ks[j] }

  lemma {:induction false} SeenOnce(vs: seq<Val>, n: nat, key: Body, env: Env)
    requires n <= |vs|
    ensures Distinct(FirstSeen(vs, n, key, env))
  {
    if n > 0 {
      SeenOnce(vs, n - 1, key, env);
      var before, k := FirstSeen(vs, n - 1, key, env), KeyAt(vs, n - 1, key, env);
      if k.Some? && k.value !in before { assert Distinct(before + [k.value]); }
    }
  }

  lemma {:induction false} PlaceTabulates(rows: seq<Val>, vs: seq<Val>, n: nat, key: Body, env: Env)
    requires n < |vs| && Tabulates(rows, vs, n, key, env) && KeyAt(vs, n, key, env).Some?
    requires Place(rows, KeyAt(vs, n, key, env).value, vs[n]).Some?
    ensures Tabulates(Place(rows, KeyAt(vs, n, key, env).value, vs[n]).value, vs, n + 1, key, env)
  {
    var k := KeyAt(vs, n, key, env).value;
    var seen := FirstSeen(vs, n, key, env);
    FindRowFinds(rows, 0, k);
    SeenOnce(vs, n, key, env);
    UnseenHasNoMembers(vs, n, k, key, env);
    forall j | 0 <= j < |seen| && seen[j] != k ensures Members(vs, n + 1, seen[j], key, env) == Members(vs, n, seen[j], key, env) {
      assert Members(vs, n, seen[j], key, env) + [] == Members(vs, n, seen[j], key, env);
    }
    assert [] + [vs[n]] == [vs[n]];
    if FindRow(rows, 0, k) == Some(None) {
      forall j | 0 <= j < |seen| ensures seen[j] != k { assert rows[j].key == seen[j]; }
    } else {
      var at := FindRow(rows, 0, k).value.value;
      assert seen[at] == k && k in seen && FirstSeen(vs, n + 1, key, env) == seen;
      assert Members(vs, n + 1, k, key, env) == Members(vs, n, k, key, env) + [vs[n]];
      var next := Place(rows, k, vs[n]).value;
      forall j | 0 <= j < |next| ensures next[j] == Row(seen[j], Members(vs, n + 1, seen[j], key, env)) {
        if j != at { assert seen[j] != seen[at]; }
      }
    }
  }

  /** Grouping lists the keys in first-seen order, each with exactly its elements in order. */
  lemma {:induction false} GroupTabulates(vs: seq<Val>, n: nat, rows: seq<Val>, key: Body, env: Env)
    requires n <= |vs| && Tabulates(rows, vs, n, key, env) && GroupFrom(vs, n, rows, key, env).Some?
    ensures Tabulates(GroupFrom(vs, n, rows, key, env).value, vs, |vs|, key, env)
    decreases |vs| - n
  {
    if n < |vs| {
      PlaceTabulates(rows, vs, n, key, env);
      GroupTabulates(vs, n + 1, Place(rows, KeyAt(vs, n, key, env).value, vs[n]).value, key, env);
    }
  }

  // ---- the laws on chains ----

  lemma {:induction false} AnyLaw(c: Chain, test: Body, env: Env)
    requires Meaning(Filt(c, test), env).Some?
    ensures Answer(Any(c, test), env) == Some(B(|Meaning(Filt(c, test), env).value| > 0))
  {
    AnyIsFiltLength(Meaning(c, env).value, 0, test, env);
  }

  lemma {:induction false} AggLaw(c: Chain, zero: Val, minus: bool, value: Body, test: Body, env: Env)
    requires NoIndex(value)
    ensures Answer(Agg(c, zero, [Step(minus, value, Some(test))]), env)
            == Answer(Agg(Filt(c, test), zero, [Step(minus, value, None)]), env)
  {
    if Meaning(c, env).Some? { AggIfIsFiltAgg(Meaning(c, env).value, 0, zero, minus, value, test, env); }
  }

  /** Keys as they should stand: numbers by size, texts by the dictionary. */
  ghost predicate Ordered(x: Val, y: Val, desc: bool) {
    match (x, y)
    case (I(m), I(n)) => if desc then m >= n else m <= n
    case (S(s), S(t)) => if desc then !Earlier(s, t) else !Earlier(t, s)
    case _ => false
  }

  ghost predicate SortedByKey(vs: seq<Val>, key: Body, desc: bool, env: Env) {
    forall i, j :: 0 <= i < j < |vs| ==> KeysOrdered(BodyVal(key, vs[i], 0, env), BodyVal(key, vs[j], 0, env), desc)
  }

  ghost predicate KeysOrdered(x: Option<Val>, y: Option<Val>, desc: bool) { x.Some? && y.Some? && Ordered(x.value, y.value, desc) }

  lemma {:induction false} InOrderIsOrdered(l: Val, r: Val, key: Body, desc: bool, env: Env)
    requires InOrder(l, r, key, desc, env)
    ensures KeysOrdered(BodyVal(key, l, 0, env), BodyVal(key, r, 0, env), desc)
  {
    var x, y := BodyVal(key, l, 0, env), BodyVal(key, r, 0, env);
    if x.value.S? && y.value.S? { CompareIsEarlier(y.value.s, x.value.s); }
  }

  /** The result is a permutation of the source with the keys in the direction asked for. */
  lemma {:induction false} SortLaw(c: Chain, key: Body, desc: bool, env: Env)
    requires Meaning(Sort(c, key, desc), env).Some?
    ensures var vs, out := Meaning(c, env).value, Meaning(Sort(c, key, desc), env).value;
      multiset(out) == multiset(vs) && SortedByKey(out, key, desc, env)
  {
    SortSorts(Meaning(c, env).value, 0, key, desc, env);
    var out := Meaning(Sort(c, key, desc), env).value;
    forall i, j | 0 <= i < j < |out| ensures KeysOrdered(BodyVal(key, out[i], 0, env), BodyVal(key, out[j], 0, env), desc) {
      InOrderIsOrdered(out[i], out[j], key, desc, env);
    }
  }

  lemma {:induction false} GroupLaw(c: Chain, key: Body, env: Env)
    requires Meaning(Group(c, key), env).Some?
    ensures var vs, rows := Meaning(c, env).value, Meaning(Group(c, key), env).value;
      Tabulates(rows, vs, |vs|, key, env) && Distinct(FirstSeen(vs, |vs|, key, env))
  {
    var vs := Meaning(c, env).value;
    GroupTabulates(vs, 0, [], key, env);
    SeenOnce(vs, |vs|, key, env);
  }

  // ---- in place ----

  predicate Names(b: Body, x: string) {
    match b
    case Outer(y) => x == y
    case Bin(_, l, r) => Names(l, x) || Names(r, x)
    case Not(c) => Names(c, x)
    case And(l, r) => Names(l, x) || Names(r, x)
    case Or(l, r) => Names(l, x) || Names(r, x)
    case Key(row) => Names(row, x)
    case Rows(row) => Names(row, x)
    case _ => false
  }

  /** The program's variables other than x have the values they had. */
  ghost predicate OthersSame(e: Env, env: Env, x: string) {
    forall y: string :: y != x ==> (User(y) in e <==> User(y) in env) && (User(y) in env ==> e[User(y)] == env[User(y)])
  }

  lemma {:induction false} BodyIgnores(b: Body, v: Val, i: int, e: Env, env: Env, x: string)
    requires OthersSame(e, env, x) && !Names(b, x)
    ensures BodyVal(b, v, i, e) == BodyVal(b, v, i, env)
  {
    match b
    case Bin(_, l, r) => BodyIgnores(l, v, i, e, env, x); BodyIgnores(r, v, i, e, env, x);
    case Not(c) => BodyIgnores(c, v, i, e, env, x);
    case And(l, r) => BodyIgnores(l, v, i, e, env, x); BodyIgnores(r, v, i, e, env, x);
    case Or(l, r) => BodyIgnores(l, v, i, e, env, x); BodyIgnores(r, v, i, e, env, x);
    case Key(row) => BodyIgnores(row, v, i, e, env, x);
    case Rows(row) => BodyIgnores(row, v, i, e, env, x);
    case _ =>
  }

  /** Slots from k on are untouched; x has its old length. */
  ghost predicate Scanning(e: Env, env: Env, x: string, vs: seq<Val>, cur: seq<Val>, k: nat) {
    && OthersSame(e, env, x) && User(x) in e && e[User(x)] == A(cur)
    && |cur| == |vs| && k <= |vs| && cur[k..] == vs[k..]
    && Gen(Index, 0) in e && e[Gen(Index, 0)] == I(k)
  }

  ghost predicate Compacting(e: Env, env: Env, x: string, vs: seq<Val>, cur: seq<Val>, k: nat, kept: seq<Val>) {
    && Scanning(e, env, x, vs, cur, k) && |kept| <= k && cur[..|kept|] == kept
    && Gen(WriteIndex, 0) in e && e[Gen(WriteIndex, 0)] == I(|kept|)
  }

  lemma {:induction false} HereRuns(b: Body, e: Env, env: Env, x: string, vs: seq<Val>, cur: seq<Val>, k: nat, rounds: nat)
    requires Scanning(e, env, x, vs, cur, k) && k < |vs| && !Names(b, x)
    ensures var e1 := e[Gen(Element, 0) := Ptr(User(x), k)];
      && Exec(Point(Gen(Element, 0), User(x), Var(Gen(Index, 0))), e, rounds) == Fine(e1)
      && Eval(EmitBody(b, 0), e1, rounds) == BodyVal(b, vs[k], k, env) && cur[k] == vs[k]
  {
    var e1 := e[Gen(Element, 0) := Ptr(User(x), k)];
    assert Eval(Var(Gen(Index, 0)), e, rounds) == Some(I(k));
    assert cur[k] == cur[k..][0] == vs[k..][0];
    BodyEmits(b, 0, e1, e1, User(x), cur, k, k, rounds);
    BodyIgnores(b, cur[k], k, e1, env, x);
  }

  lemma {:induction false} KeepRuns(e: Env, env: Env, x: string, vs: seq<Val>, cur: seq<Val>, k: nat, kept: seq<Val>, rounds: nat) returns (now: seq<Val>)
    requires Compacting(e, env, x, vs, cur, k, kept) && k < |vs| && cur[k] == vs[k]
    ensures var run := Exec(KeepSlot(x), e, rounds);
      run.Fine? && Compacting(run.env[Gen(Index, 0) := I(k + 1)], env, x, vs, now, k + 1, kept + [vs[k]])
      && Gen(Index, 0) in run.env && run.env[Gen(Index, 0)] == I(k)
  {
    var i, w := Var(Gen(Index, 0)), Var(Gen(WriteIndex, 0));
    var n := |kept|;
    now := cur[n := vs[k]];
    assert Eval(i, e, rounds) == Some(I(k)) && Eval(w, e, rounds) == Some(I(n));
    assert Eval(Op2(Equal, w, i), e, rounds) == Some(B(n == k));
    var move := Store(User(x), w, At(User(x), i));
    assert Eval(At(User(x), i), e, rounds) == Some(vs[k]);
    assert Exec(move, e, rounds) == Fine(e[User(x) := A(now)]);
    var e1 := if n == k then e else e[User(x) := A(now)];
    assert Exec(When(NotC(Op2(Equal, w, i)), move), e, rounds) == Fine(e1);
    assert n == k ==> now == cur;
    assert Eval(w, e1, rounds) == Some(I(n));
    assert Eval(Op2(Add, w, Const(I(1))), e1, rounds) == Some(I(n + 1));
    assert now[k + 1..] == vs[k + 1..] by { assert now[k + 1..] == cur[k + 1..] == cur[k..][1..] && vs[k + 1..] == vs[k..][1..]; }
    assert now[..n + 1] == kept + [vs[k]];
  }

  function FiltRound(x: string, test: Body): CStmt {
    Then(Point(Gen(Element, 0), User(x), Var(Gen(Index, 0))), When(EmitBody(test, 0), KeepSlot(x)))
  }

  lemma {:induction false} FiltRoundRuns(e: Env, env: Env, x: string, test: Body, vs: seq<Val>, cur: seq<Val>, k: nat, kept: seq<Val>, rounds: nat) returns (now: seq<Val>)
    requires Compacting(e, env, x, vs, cur, k, kept) && k < |vs| && !Names(test, x)
    ensures var run := Exec(FiltRound(x, test), e, rounds);
      var t := Truth(BodyVal(test, vs[k], k, env));
      if t.None? then run.Bad?
      else run.Fine? && Gen(Index, 0) in run.env && run.env[Gen(Index, 0)] == I(k)
           && Compacting(run.env[Gen(Index, 0) := I(k + 1)], env, x, vs, now, k + 1, kept + if t.value then [vs[k]] else [])
  {
    HereRuns(test, e, env, x, vs, cur, k, rounds);
    var e1 := e[Gen(Element, 0) := Ptr(User(x), k)];
    var t := Truth(BodyVal(test, vs[k], k, env));
    if t == Some(true) {
      now := KeepRuns(e1, env, x, vs, cur, k, kept, rounds);
    } else {
      now := cur;
      SkipRuns(e1, env, x, vs, cur, k, kept);
    }
    WhenRuns(x, test, e, e1, t, rounds);
  }

  lemma {:induction false} SkipRuns(e: Env, env: Env, x: string, vs: seq<Val>, cur: seq<Val>, k: nat, kept: seq<Val>)
    requires Compacting(e, env, x, vs, cur, k, kept) && k < |vs|
    ensures Compacting(e[Gen(Index, 0) := I(k + 1)], env, x, vs, cur, k + 1, kept + [])
  {
    assert kept + [] == kept;
    assert cur[k + 1..] == cur[k..][1..] && vs[k + 1..] == vs[k..][1..];
  }

  lemma {:induction false} WhenRuns(x: string, test: Body, e: Env, e1: Env, t: Option<bool>, rounds: nat)
    requires Exec(Point(Gen(Element, 0), User(x), Var(Gen(Index, 0))), e, rounds) == Fine(e1)
    requires Truth(Eval(EmitBody(test, 0), e1, rounds)) == t
    ensures Exec(FiltRound(x, test), e, rounds)
            == if t.None? then Bad else if t.value then Exec(KeepSlot(x), e1, rounds) else Fine(e1)
  {
    assert Exec(When(EmitBody(test, 0), KeepSlot(x)), e1, rounds)
        == if t.None? then Bad else if t.value then Exec(KeepSlot(x), e1, rounds) else Fine(e1);
  }

  lemma {:induction false} FiltInPlaceLoops(e: Env, env: Env, x: string, test: Body, vs: seq<Val>, cur: seq<Val>, k: nat, kept: seq<Val>, rounds: nat, left: nat)
    returns (now: seq<Val>)
    requires Compacting(e, env, x, vs, cur, k, kept) && !Names(test, x) && left >= |vs| - k
    ensures var run := Loop(Gen(Index, 0), User(x), FiltRound(x, test), e, rounds, left);
      var out := Prepend(kept, FiltFrom(vs, k, test, env));
      if out.None? then run.Bad? else run.Fine? && Compacting(run.env, env, x, vs, now, |vs|, out.value)
    decreases |vs| - k
  {
    now := cur;
    if k < |vs| {
      now := FiltRoundRuns(e, env, x, test, vs, cur, k, kept, rounds);
      var t := Truth(BodyVal(test, vs[k], k, env));
      if t.Some? {
        var run := Exec(FiltRound(x, test), e, rounds);
        var here := if t.value then [vs[k]] else [];
        now := FiltInPlaceLoops(run.env[Gen(Index, 0) := I(k + 1)], env, x, test, vs, now, k + 1, kept + here, rounds, left - 1);
        PrependTwice(kept, here, FiltFrom(vs, k + 1, test, env));
      }
    } else {
      assert kept + [] == kept;
    }
  }

  lemma {:induction false} PrependTwice(a: seq<Val>, b: seq<Val>, rest: Option<seq<Val>>)
    ensures Prepend(a, Prepend(b, rest)) == Prepend(a + b, rest)
  {
    if rest.Some? { assert (a + b) + rest.value == a + (b + rest.value); }
  }

  /** Filtering in place leaves the array that copying filt makes. */
  lemma {:induction false} FiltInPlaceIsFilt(x: string, test: Body, env: Env, rounds: nat)
    requires User(x) in env && env[User(x)].A? && |env[User(x)].items| <= rounds && !Names(test, x)
    ensures var run := Exec(EmitFiltInPlace(x, test), env, rounds);
      var out := Meaning(Filt(From(x), test), env);
      if out.None? then run.Bad? else run.Fine? && Elems(run.env, User(x)) == out && OthersSame(run.env, env, x)
  {
    var vs := env[User(x)].items;
    var w, i := Gen(WriteIndex, 0), Gen(Index, 0);
    var e1 := env[w := I(0)];
    var e2 := e1[i := I(0)];
    var loop := For(i, Const(I(0)), User(x), FiltRound(x, test));
    var run := Loop(i, User(x), FiltRound(x, test), e2, rounds, rounds);
    var now := FiltInPlaceLoops(e2, env, x, test, vs, vs, 0, [], rounds, rounds);
    var out := FiltFrom(vs, 0, test, env);
    if out.Some? { assert [] + out.value == out.value; }
    assert Exec(Set(w, Const(I(0))), env, rounds) == Fine(e1);
    assert Exec(loop, e1, rounds) == run;
    var cut := Truncate(User(x), Var(w));
    if out.Some? {
      assert Eval(Var(w), run.env, rounds) == Some(I(|out.value|));
      assert Exec(cut, run.env, rounds) == Fine(run.env[User(x) := A(out.value)]);
    }
    assert Exec(Then(loop, cut), e1, rounds) == if run.Fine? then Exec(cut, run.env, rounds) else run;
    assert EmitFiltInPlace(x, test) == Then(Set(w, Const(I(0))), Then(loop, cut));
  }

  function UpdRound(x: string, value: Body): CStmt {
    Then(Point(Gen(Element, 0), User(x), Var(Gen(Index, 0))), Store(User(x), Var(Gen(Index, 0)), EmitBody(value, 0)))
  }

  lemma {:induction false} UpdRoundRuns(e: Env, env: Env, x: string, value: Body, vs: seq<Val>, cur: seq<Val>, k: nat, rounds: nat)
    requires Scanning(e, env, x, vs, cur, k) && k < |vs| && !Names(value, x)
    ensures var v := BodyVal(value, vs[k], k, env);
      Exec(UpdRound(x, value), e, rounds)
      == if v.None? then Bad else Fine(e[Gen(Element, 0) := Ptr(User(x), k)][User(x) := A(cur[k := v.value])])
  {
    HereRuns(value, e, env, x, vs, cur, k, rounds);
    var e1 := e[Gen(Element, 0) := Ptr(User(x), k)];
    assert Eval(Var(Gen(Index, 0)), e1, rounds) == Some(I(k));
  }

  lemma {:induction false} UpdInPlaceLoops(e: Env, env: Env, x: string, value: Body, vs: seq<Val>, cur: seq<Val>, k: nat, rounds: nat, left: nat)
    requires Scanning(e, env, x, vs, cur, k) && !Names(value, x) && left >= |vs| - k
    ensures var run := Loop(Gen(Index, 0), User(x), UpdRound(x, value), e, rounds, left);
      var out := Prepend(cur[..k], UpdFrom(vs, k, value, env));
      if out.None? then run.Bad? else run.Fine? && Elems(run.env, User(x)) == out && OthersSame(run.env, env, x)
    decreases |vs| - k
  {
    if k < |vs| {
      UpdRoundRuns(e, env, x, value, vs, cur, k, rounds);
      var v := BodyVal(value, vs[k], k, env);
      if v.Some? {
        var next := cur[k := v.value];
        assert next[k + 1..] == cur[k..][1..] && vs[k + 1..] == vs[k..][1..];
        assert next[..k + 1] == cur[..k] + [v.value];
        var e2 := e[Gen(Element, 0) := Ptr(User(x), k)][User(x) := A(next)][Gen(Index, 0) := I(k + 1)];
        UpdInPlaceLoops(e2, env, x, value, vs, next, k + 1, rounds, left - 1);
        var rest := UpdFrom(vs, k + 1, value, env);
        if rest.Some? { assert (cur[..k] + [v.value]) + rest.value == cur[..k] + ([v.value] + rest.value); }
      }
    } else {
      assert cur[..k] + [] == cur;
    }
  }

  /** Updating in place leaves the array that copying upd makes. */
  lemma {:induction false} UpdInPlaceIsUpd(x: string, value: Body, env: Env, rounds: nat)
    requires User(x) in env && env[User(x)].A? && |env[User(x)].items| <= rounds && !Names(value, x)
    ensures var run := Exec(EmitUpdInPlace(x, value), env, rounds);
      var out := Meaning(Upd(From(x), value), env);
      if out.None? then run.Bad? else run.Fine? && Elems(run.env, User(x)) == out && OthersSame(run.env, env, x)
  {
    var vs := env[User(x)].items;
    var e1 := env[Gen(Index, 0) := I(0)];
    UpdInPlaceLoops(e1, env, x, value, vs, vs, 0, rounds, rounds);
    var out := UpdFrom(vs, 0, value, env);
    if out.Some? { assert vs[..0] + out.value == out.value; }
    assert EmitUpdInPlace(x, value) == For(Gen(Index, 0), Const(I(0)), User(x), UpdRound(x, value));
  }
}
