/** `[d0xd1x...].fill(value)`: nested loops that evaluate the value once for every place. */
module ShapeFill {
  import opened Wrappers

  datatype Tree = Leaf(v: int) | Node(items: seq<Tree>)

  /** The value expression may have effects: its k-th evaluation gives values(k). */
  type Values = nat -> int

  predicate HasShape(t: Tree, dims: seq<nat>) {
    if dims == [] then t.Leaf?
    else t.Node? && |t.items| == dims[0] && forall i :: 0 <= i < |t.items| ==> HasShape(t.items[i], dims[1..])
  }

  function Product(dims: seq<nat>): nat { if dims == [] then 1 else dims[0] * Product(dims[1..]) }

  /** The place with these indices counts from zero in row order. */
  function RowOrder(dims: seq<nat>, at: seq<nat>): nat
    requires |at| == |dims|
  {
    if dims == [] then 0 else at[0] * Product(dims[1..]) + RowOrder(dims[1..], at[1..])
  }

  predicate Within(dims: seq<nat>, at: seq<nat>) { |at| == |dims| && forall i :: 0 <= i < |at| ==> at[i] < dims[i] }

  function At(t: Tree, dims: seq<nat>, at: seq<nat>): int
    requires HasShape(t, dims) && Within(dims, at)
    decreases |dims|
  {
    if dims == [] then t.v
    else
      assert at[0] < dims[0] && Within(dims[1..], at[1..]);
      At(t.items[at[0]], dims[1..], at[1..])
  }

  /** Every place holds the evaluation that row order assigns to it, counting from `first`. */
  ghost predicate Filled(t: Tree, dims: seq<nat>, values: Values, first: nat) {
    HasShape(t, dims) && forall at: seq<nat> :: Within(dims, at) ==> At(t, dims, at) == values(first + RowOrder(dims, at))
  }

  lemma {:induction false} RowAfter(dims: seq<nat>, i: nat)
    requires dims != []
    ensures (i + 1) * Product(dims[1..]) == i * Product(dims[1..]) + Product(dims[1..])
  {
  }

  lemma {:induction false} RowsFill(rows: seq<Tree>, dims: seq<nat>, values: Values, first: nat)
    requires dims != [] && |rows| == dims[0]
    requires forall i :: 0 <= i < |rows| ==> Filled(rows[i], dims[1..], values, first + i * Product(dims[1..]))
    ensures Filled(Node(rows), dims, values, first)
  {
    forall at: seq<nat> | Within(dims, at) ensures At(Node(rows), dims, at) == values(first + RowOrder(dims, at)) {
      assert at[0] < dims[0];
      assert Within(dims[1..], at[1..]);
      assert Filled(rows[at[0]], dims[1..], values, first + at[0] * Product(dims[1..]));
    }
  }

  /** One level of the emitted loops; below the last dimension the value is evaluated. */
  method FillLevel(dims: seq<nat>, values: Values, first: nat) returns (t: Tree, next: nat)
    ensures Filled(t, dims, values, first) && next == first + Product(dims)
    decreases |dims|
  {
    if dims == [] {
      t, next := Leaf(values(first)), first + 1;
      return;
    }
    var out: seq<Tree> := [];
    next := first;
    for i := 0 to dims[0]
      invariant |out| == i && next == first + i * Product(dims[1..])
      invariant forall j :: 0 <= j < i ==> Filled(out[j], dims[1..], values, first + j * Product(dims[1..]))
    {
      var child;
      child, next := FillLevel(dims[1..], values, next);
      RowAfter(dims, i);
      out := out + [child];
    }
    t := Node(out);
    RowsFill(out, dims, values, first);
  }

  /** None when a dimension is negative; otherwise the array has exactly the shape asked for,
      row order gives every place its own evaluation, and there are no others. */
  method Fill(shape: seq<int>, values: Values) returns (r: Option<Tree>, evaluations: nat)
    ensures r.None? <==> exists i :: 0 <= i < |shape| && shape[i] < 0
    ensures r.None? ==> evaluations == 0
    ensures r.Some? ==> exists dims: seq<nat> :: dims == shape && Filled(r.value, dims, values, 0) && evaluations == Product(dims)
  {
    var dims: seq<nat> := [];
    for i := 0 to |shape|
      invariant |dims| == i && forall j :: 0 <= j < i ==> shape[j] >= 0 && dims[j] == shape[j]
    {
      if shape[i] < 0 { return None, 0; }
      dims := dims + [shape[i]];
    }
    assert dims == shape;
    var t, n := FillLevel(dims, values, 0);
    r, evaluations := Some(t), n;
  }
}
