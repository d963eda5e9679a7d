/** C's nested scopes, as both the by-value meaning and the generated code use them. */
module Scopes {
  import opened Wrappers
  import opened CasterAst

  /** A declaration hides an outer variable of the name until its scope is left. */
  lemma {:induction false} DeclarationHides<V>(vars: map<Var, V>, outer: Env<V>, x: Var, v: V, y: Var)
    ensures var env := Put(Inner(vars, outer), x, v);
      && env.Inner? && env.outer == outer
      && Lookup(env, y) == if y == x then Some(v) else Lookup(Inner(vars, outer), y)
  {
  }

  /** An assignment changes the one variable the name stands for. */
  lemma {:induction false} AssignmentChangesOne<V>(env: Env<V>, x: Var, v: V, y: Var)
    requires Lookup(env, x).Some?
    ensures Lookup(Store(env, x, v), y) == if y == x then Some(v) else Lookup(env, y)
  {
    if x !in env.vars { AssignmentChangesOne(env.outer, x, v, y); }
  }

  /** Assigned inside a block, an outer variable keeps its value when the block is left, and a
      variable the block declared leaves the outer one of its name alone. */
  lemma {:induction false} AssignmentOutlives<V>(vars: map<Var, V>, outer: Env<V>, x: Var, v: V, y: Var)
    requires Lookup(Inner(vars, outer), x).Some?
    ensures var after := Store(Inner(vars, outer), x, v);
      && after.Inner? && after.vars.Keys == vars.Keys
      && Lookup(after.outer, y) == if y == x && x !in vars then Some(v) else Lookup(outer, y)
  {
    if x !in vars { AssignmentChangesOne(outer, x, v, y); }
  }

  /** Parameters hold the arguments of a call, in order, and nothing else is in scope. */
  lemma {:induction false} ParametersHoldArguments<V>(params: seq<Param>, vals: seq<V>)
    requires |params| == |vals| && forall i, j :: 0 <= i < j < |params| ==> params[i].name != params[j].name
    ensures forall i :: 0 <= i < |params| ==> Lookup(Root(Bind(params, vals)), User(params[i].name)) == Some(vals[i])
    ensures forall x :: x in Bind(params, vals) ==> exists i :: 0 <= i < |params| && x == User(params[i].name)
  {
    if params != [] {
      ParametersHoldArguments(params[1..], vals[1..]);
      forall i | 0 <= i < |params| ensures Lookup(Root(Bind(params, vals)), User(params[i].name)) == Some(vals[i]) {
        if i > 0 {
          assert params[i] == params[1..][i - 1] && vals[i] == vals[1..][i - 1];
          assert Lookup(Root(Bind(params[1..], vals[1..])), User(params[1..][i - 1].name)) == Some(vals[1..][i - 1]);
        }
      }
      forall x | x in Bind(params, vals) ensures exists i :: 0 <= i < |params| && x == User(params[i].name) {
        if x != User(params[0].name) {
          assert x in Bind(params[1..], vals[1..]);
          var i :| 0 <= i < |params[1..]| && x == User(params[1..][i].name);
          assert x == User(params[i + 1].name);
        }
      }
    }
  }
}
