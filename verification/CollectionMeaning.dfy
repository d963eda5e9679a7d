/** What the collection methods compute, said without walking the array. */
module CollectionMeaning {
  import opened Wrappers
  import opened TextOrder
  import opened Collections

  // ---- upd and filt ----

  /** `out` has the body's value for each element from k on. */
  predicate Updated(out: seq<Val>, vs: seq<Val>, k: nat, value: Body, env: Env) {
    k + |out| == |vs| && forall i :: 0 <= i < |out| ==> BodyVal(value, vs[k + i], k + i, env) == Some(out[i])
  }

  lemma {:induction false} UpdatedFront(out: seq<Val>, vs: seq<Val>, k: nat, value: Body, env: Env)
    requires k < |vs| && out != []
    ensures Updated(out, vs, k, value, env)
            <==> BodyVal(value, vs[k], k, env) == Some(out[0]) && Updated(out[1..], vs, k + 1, value, env)
  {
    if Updated(out, vs, k, value, env) {
      assert BodyVal(value, vs[k + 0], k + 0, env) == Some(out[0]);
      forall i | 0 <= i < |out[1..]| ensures BodyVal(value, vs[k + 1 + i], k + 1 + i, env) == Some(out[1..][i]) {
        assert BodyVal(value, vs[k + (i + 1)], k + (i + 1), env) == Some(out[i + 1]);
      }
    }
    if BodyVal(value, vs[k], k, env) == Some(out[0]) && Updated(out[1..], vs, k + 1, value, env) {
      forall i | 0 <= i < |out| ensures BodyVal(value, vs[k + i], k + i, env) == Some(out[i]) {
        if i > 0 { assert BodyVal(value, vs[k + 1 + (i - 1)], k + 1 + (i - 1), env) == Some(out[1..][i - 1]); }
      }
    }
  }

  lemma {:induction false} UpdFromIs(vs: seq<Val>, k: nat, value: Body, env: Env, out: seq<Val>)
    requires k <= |vs|
    ensures UpdFrom(vs, k, value, env) == Some(out) <==> Updated(out, vs, k, value, env)
    decreases |vs| - k
  {
    if k < |vs| && out != [] {
      UpdFromIs(vs, k + 1, value, env, out[1..]);
      UpdatedFront(out, vs, k, value, env);
      assert out == [out[0]] + out[1..];
    }
  }

  /** upd keeps the length and puts the body's value at each index. */
  lemma {:induction false} UpdLaw(c: Chain, value: Body, env: Env, out: seq<Val>)
    requires Meaning(c, env).Some?
    ensures var vs := Meaning(c, env).value;
      Meaning(Upd(c, value), env) == Some(out)
      <==> |out| == |vs| && forall i :: 0 <= i < |vs| ==> BodyVal(value, vs[i], i, env) == Some(out[i])
  {
    var vs := Meaning(c, env).value;
    UpdFromIs(vs, 0, value, env, out);
    if |out| == |vs| {
      assert forall i :: 0 <= i < |vs| ==> vs[0 + i] == vs[i] && BodyVal(value, vs[0 + i], 0 + i, env) == BodyVal(value, vs[i], i, env);
    }
  }

  /** `at` lists the indices from k on whose flag is set, in order. */
  predicate Picks(at: seq<nat>, flags: seq<bool>, k: nat) {
    && (forall j :: 0 <= j < |at| ==> k <= at[j] < |flags| && flags[at[j]])
    && (forall i, j :: 0 <= i < j < |at| ==> at[i] < at[j])
    && (forall i :: k <= i < |flags| && flags[i] ==> i in at)
  }

  predicate Taken(out: seq<Val>, vs: seq<Val>, at: seq<nat>) {
    |out| == |at| && forall j :: 0 <= j < |at| ==> at[j] < |vs| && out[j] == vs[at[j]]
  }

  lemma {:induction false} PickMore(at: seq<nat>, flags: seq<bool>, k: nat)
    requires k < |flags| && flags[k] && Picks(at, flags, k + 1)
    ensures Picks([k] + at, flags, k)
  {
    var more := [k] + at;
    forall i | k <= i < |flags| && flags[i] ensures i in more {
      if i == k { assert more[0] == k; } else { var j :| 0 <= j < |at| && at[j] == i; assert more[j + 1] == i; }
    }
  }

  /** `flags` says of each element what the test says. */
  predicate Tested(flags: seq<bool>, vs: seq<Val>, test: Body, env: Env) {
    |flags| == |vs| && forall i :: 0 <= i < |vs| ==> Truth(BodyVal(test, vs[i], i, env)) == Some(flags[i])
  }

  lemma {:induction false} FiltStep(vs: seq<Val>, k: nat, test: Body, env: Env, flags: seq<bool>)
    requires k < |vs| && Tested(flags, vs, test, env)
    ensures FiltFrom(vs, k, test, env) == Prepend(if flags[k] then [vs[k]] else [], FiltFrom(vs, k + 1, test, env))
  {
  }

  lemma {:induction false} FiltFromIs(vs: seq<Val>, k: nat, test: Body, env: Env, flags: seq<bool>) returns (at: seq<nat>)
    requires k <= |vs| && Tested(flags, vs, test, env)
    ensures FiltFrom(vs, k, test, env).Some?
    ensures Picks(at, flags, k) && Taken(FiltFrom(vs, k, test, env).value, vs, at)
    decreases |vs| - k
  {
    at := [];
    if k < |vs| {
      at := FiltFromIs(vs, k + 1, test, env, flags);
      FiltStep(vs, k, test, env, flags);
      var out := FiltFrom(vs, k + 1, test, env).value;
      if flags[k] {
        PickMore(at, flags, k);
        at := [k] + at;
      } else {
        assert [] + out == out;
      }
    }
  }

  /** filt is the elements whose test is true, in their order. */
  lemma {:induction false} FiltLaw(c: Chain, test: Body, env: Env, flags: seq<bool>)
    requires Meaning(c, env).Some? && Tested(flags, Meaning(c, env).value, test, env)
    ensures Meaning(Filt(c, test), env).Some?
    ensures exists at :: Picks(at, flags, 0) && Taken(Meaning(Filt(c, test), env).value, Meaning(c, env).value, at)
  {
    var at := FiltFromIs(Meaning(c, env).value, 0, test, env, flags);
    assert Picks(at, flags, 0) && Taken(Meaning(Filt(c, test), env).value, Meaning(c, env).value, at);
  }

  /** It has a value exactly when the test is true or false of every element. */
  lemma {:induction false} FiltDefined(vs: seq<Val>, k: nat, test: Body, env: Env)
    requires k <= |vs|
    ensures FiltFrom(vs, k, test, env).Some?
            <==> forall i :: k <= i < |vs| ==> BodyVal(test, vs[i], i, env) == Some(B(true)) || BodyVal(test, vs[i], i, env) == Some(B(false))
    decreases |vs| - k
  {
    if k < |vs| {
      FiltDefined(vs, k + 1, test, env);
      assert Truth(BodyVal(test, vs[k], k, env)).Some?
        <==> BodyVal(test, vs[k], k, env) == Some(B(true)) || BodyVal(test, vs[k], k, env) == Some(B(false));
    }
  }

  /** What the test says of each element, None where it says nothing. */
  predicate Verdicts(said: seq<Option<bool>>, vs: seq<Val>, test: Body, env: Env) {
    |said| == |vs| && forall i :: 0 <= i < |vs| ==> said[i] == Truth(BodyVal(test, vs[i], i, env))
  }

  lemma {:induction false} AnyStep(vs: seq<Val>, k: nat, test: Body, env: Env, said: seq<Option<bool>>)
    requires k < |vs| && Verdicts(said, vs, test, env)
    ensures AnyFrom(vs, k, test, env)
            == if said[k].None? then None else if said[k].value then Some(true) else AnyFrom(vs, k + 1, test, env)
  {
  }

  lemma {:induction false} AnyFromIs(vs: seq<Val>, k: nat, test: Body, env: Env, said: seq<Option<bool>>)
    requires k <= |vs| && Verdicts(said, vs, test, env)
    ensures AnyFrom(vs, k, test, env) == Some(true)
            <==> exists i :: k <= i < |said| && said[i] == Some(true) && forall j :: k <= j < i ==> said[j] == Some(false)
    ensures AnyFrom(vs, k, test, env) == Some(false) <==> forall j :: k <= j < |said| ==> said[j] == Some(false)
    decreases |vs| - k
  {
    if k < |vs| {
      AnyFromIs(vs, k + 1, test, env, said);
      AnyStep(vs, k, test, env, said);
    }
  }

  /** any is true exactly when the test is true of some element and false of all before it, and
      false exactly when the test is false of all. */
  lemma {:induction false} AnyIs(c: Chain, test: Body, env: Env, said: seq<Option<bool>>)
    requires Meaning(c, env).Some? && Verdicts(said, Meaning(c, env).value, test, env)
    ensures Answer(Any(c, test), env) == Some(B(true))
            <==> exists i :: 0 <= i < |said| && said[i] == Some(true) && forall j :: 0 <= j < i ==> said[j] == Some(false)
    ensures Answer(Any(c, test), env) == Some(B(false)) <==> forall j :: 0 <= j < |said| ==> said[j] == Some(false)
  {
    AnyFromIs(Meaning(c, env).value, 0, test, env, said);
  }

  // ---- agg ----

  function Total(ns: seq<int>): int { if ns == [] then 0 else ns[0] + Total(ns[1..]) }

  /** The body is an INT for every element, and `ns` lists them. */
  predicate Numbers(ns: seq<int>, vs: seq<Val>, k: nat, value: Body, env: Env) {
    k + |ns| == |vs| && forall i :: k <= i < |vs| ==> BodyVal(value, vs[i], i, env) == Some(I(ns[i - k]))
  }

  lemma {:induction false} AggAdds(vs: seq<Val>, k: nat, acc: int, minus: bool, value: Body, env: Env, ns: seq<int>)
    requires k <= |vs| && Numbers(ns, vs, k, value, env)
    ensures AggFrom(vs, k, I(acc), [Step(minus, value, None)], env) == Some(I(if minus then acc - Total(ns) else acc + Total(ns)))
    decreases |vs| - k
  {
    if k < |vs| {
      var steps := [Step(minus, value, None)];
      var next := if minus then acc - ns[0] else acc + ns[0];
      assert steps[1..] == [] && BodyVal(value, vs[k], k, env) == Some(I(ns[k - k]));
      assert StepsVal(I(acc), steps, vs[k], k, env) == Some(I(next));
      forall i | k + 1 <= i < |vs| ensures BodyVal(value, vs[i], i, env) == Some(I(ns[1..][i - k - 1])) {
        assert ns[1..][i - k - 1] == ns[i - k];
      }
      AggAdds(vs, k + 1, next, minus, value, env, ns[1..]);
    }
  }

  /** agg(+= v) over INT is its zero and the sum of the values, and agg(- v) takes the sum away. */
  lemma {:induction false} AggSums(c: Chain, zero: int, value: Body, env: Env, ns: seq<int>)
    requires Meaning(c, env).Some? && Numbers(ns, Meaning(c, env).value, 0, value, env)
    ensures Answer(Agg(c, I(zero), [Step(false, value, None)]), env) == Some(I(zero + Total(ns)))
    ensures Answer(Agg(c, I(zero), [Step(true, value, None)]), env) == Some(I(zero - Total(ns)))
  {
    AggAdds(Meaning(c, env).value, 0, zero, false, value, env, ns);
    AggAdds(Meaning(c, env).value, 0, zero, true, value, env, ns);
  }

  // ---- operators ----

  /** `&&` and `||` on values: each is settled by its left side alone where that settles it. */
  lemma {:induction false} Connectives(l: Body, r: Body, e: Val, i: int, env: Env)
    ensures var a, b := BodyVal(l, e, i, env), BodyVal(r, e, i, env);
      && (BodyVal(And(l, r), e, i, env) == Some(B(true)) <==> a == Some(B(true)) && b == Some(B(true)))
      && (BodyVal(And(l, r), e, i, env) == Some(B(false)) <==> a == Some(B(false)) || (a == Some(B(true)) && b == Some(B(false))))
      && (BodyVal(Or(l, r), e, i, env) == Some(B(false)) <==> a == Some(B(false)) && b == Some(B(false)))
      && (BodyVal(Or(l, r), e, i, env) == Some(B(true)) <==> a == Some(B(true)) || (a == Some(B(false)) && b == Some(B(true))))
      && BodyVal(Not(And(l, r)), e, i, env) == BodyVal(Or(Not(l), Not(r)), e, i, env)
  {
    var a, b := BodyVal(l, e, i, env), BodyVal(r, e, i, env);
    assert BodyVal(Or(Not(l), Not(r)), e, i, env) == Shortcut(Negate(a), Negate(b), true);
  }

  /** On INT: minus undoes plus, times is repeated plus, and a quotient is rounded towards zero. */
  lemma {:induction false} Arithmetic(x: int, y: int)
    ensures Apply(Add, I(x), I(0)) == Some(I(x)) && Apply(Add, I(x), I(1)) == Some(I(x + 1))
    ensures Apply2(Sub, Apply(Add, I(x), I(y)), Some(I(y))) == Some(I(x))
    ensures Apply2(Add, Apply(Sub, I(x), I(y)), Some(I(y))) == Some(I(x))
    ensures Apply(Add, I(x), I(y)) == Apply(Add, I(y), I(x))
    ensures Apply(Mul, I(x), I(0)) == Some(I(0))
    ensures Apply(Mul, I(x), I(y + 1)) == Apply2(Add, Apply(Mul, I(x), I(y)), Some(I(x)))
    ensures Apply(Div, I(x), I(0)).None?
    ensures y != 0 ==> Apply(Div, I(x), I(y)).Some? && Apply(Div, I(x), I(y)).value.I?
    ensures y != 0 ==> var q := Apply(Div, I(x), I(y)).value.n; var rest := x - q * y;
      (-y < rest < y || y < rest < -y) && (x >= 0 ==> rest >= 0) && (x <= 0 ==> rest <= 0)
  {
    assert x * (y + 1) == x * y + x;
    if y != 0 { QuotientRounds(x, y); }
  }

  lemma {:induction false} QuotientRounds(x: int, y: int)
    requires y != 0
    ensures var rest := x - Quotient(x, y) * y; (-y < rest < y || y < rest < -y) && (x >= 0 ==> rest >= 0) && (x <= 0 ==> rest <= 0)
  {
    var m := if x >= 0 then x else -x;
    assert m == (m / y) * y + m % y;
    assert x < 0 ==> Quotient(x, y) * y == -((m / y) * y);
  }

  /** Orders: less is the order of INT and of the dictionary, greater is less the other way round,
      and of any two INT or two texts exactly one of less, equal and greater is true. */
  lemma {:induction false} Comparisons(x: int, y: int, s: string, t: string)
    ensures Apply(Less, I(x), I(y)) == Some(B(x < y)) && Apply(Less, S(s), S(t)) == Some(B(Earlier(s, t)))
    ensures Apply(Greater, I(x), I(y)) == Apply(Less, I(y), I(x)) && Apply(Greater, S(s), S(t)) == Apply(Less, S(t), S(s))
    ensures Apply(Equal, S(s), S(t)) == Some(B(!Earlier(s, t) && !Earlier(t, s)))
    ensures Apply(Equal, I(x), I(y)) == Some(B(!(x < y) && !(y < x)))
  {
    CompareIsEarlier(s, t);
    CompareIsAntisymmetric(s, t);
    CompareIsEarlier(t, s);
  }
}
