/** The emitter as it runs: one growing list of owned locals that every statement's
    emission reads and edits while its text is produced. */
module EmitterState {
  import opened Wrappers
  import opened CasterAst
  import E = Emit

  /** The cleanup list: a buffer that doubles when full. */
  class OwnedLocals {
    var items: array<string>
    var len: nat

    ghost predicate Valid()
      reads this
    {
      len <= items.Length
    }

    ghost function Names(): seq<string>
      reads this, items
      requires Valid()
    {
      items[..len]
    }

    constructor ()
      ensures Valid() && Names() == [] && fresh(items)
    {
      items := new string[0];
      len := 0;
    }

    method Reset()
      requires Valid()
      modifies this`len
      ensures Valid() && Names() == []
    {
      len := 0;
    }

    method Contains(x: string) returns (found: bool)
      requires Valid()
      ensures found <==> x in Names()
    {
      for i := 0 to len
        invariant x !in items[..i]
      {
        if items[i] == x {
          assert Names()[i] == x;
          return true;
        }
      }
      return false;
    }

    method Add(x: string, ty: Ty)
      requires Valid()
      modifies this, items
      ensures Valid() && (items == old(items) || fresh(items))
      ensures Names() == E.OwnedAdd(old(Names()), x, ty)
      ensures Names() == old(Names()) + if ty == STR && x !in old(Names()) then [x] else []
    {
      if ty != STR { return; }
      var listed := Contains(x);
      if listed { return; }
      if len == items.Length {
        var bigger := new string[if items.Length == 0 then 8 else items.Length * 2];
        forall i | 0 <= i < len { bigger[i] := items[i]; }
        items := bigger;
      }
      items[len] := x;
      len := len + 1;
    }

    /** Removes the first occurrence by shifting the rest down. */
    method Remove(x: string)
      requires Valid()
      modifies this, items
      ensures Valid() && items == old(items)
      ensures Names() == E.OwnedRemove(old(Names()), x)
      ensures x !in old(Names()) ==> Names() == old(Names())
      ensures forall i :: 0 <= i < old(len) && old(Names())[i] == x && x !in old(Names())[..i] ==>
                Names() == old(Names())[..i] + old(Names())[i + 1..]
    {
      ghost var names := Names();
      for i := 0 to len
        invariant items == old(items) && len == old(len) && Names() == names
        invariant x !in names[..i]
      {
        if items[i] == x {
          RemoveFirst(names, i, x);
          OnlyFirst(names, i, x);
          CloseGap(i);
          return;
        }
        assert names[..i + 1] == names[..i] + [names[i]];
      }
      assert names[..len] == names;
      RemoveAbsent(names, x);
    }

    method CloseGap(i: nat)
      requires Valid() && i < len
      modifies this`len, items
      ensures Valid() && Names() == old(Names()[..i] + Names()[i + 1..])
    {
      ghost var names := Names();
      for j := i + 1 to len
        invariant len == old(len) && items == old(items)
        invariant forall k :: 0 <= k < i ==> items[k] == names[k]
        invariant forall k :: i <= k < j - 1 ==> items[k] == names[k + 1]
        invariant forall k :: j <= k < len ==> items[k] == names[k]
      {
        items[j - 1] := items[j];
      }
      len := len - 1;
      assert Names() == names[..i] + names[i + 1..];
    }
  }

  lemma {:induction false} RemoveFirst(names: seq<string>, i: nat, x: string)
    requires i < |names| && names[i] == x && x !in names[..i]
    ensures E.OwnedRemove(names, x) == names[..i] + names[i + 1..]
  {
    if i > 0 {
      assert names[0] == names[..i][0];
      assert names[1..][..i - 1] == names[..i][1..];
      RemoveFirst(names[1..], i - 1, x);
    }
  }

  lemma {:induction false} RemoveAbsent(names: seq<string>, x: string)
    requires x !in names
    ensures E.OwnedRemove(names, x) == names
  {
    if names != [] { RemoveAbsent(names[1..], x); }
  }


  lemma {:induction false} OnlyFirst(names: seq<string>, i: nat, x: string)
    requires i < |names| && names[i] == x && x !in names[..i]
    ensures forall j :: 0 <= j < |names| && names[j] == x && x !in names[..j] ==> j == i
  {
    forall j, k | 0 <= k < j <= |names| ensures names[k] in names[..j] {
      assert names[..j][k] == names[k];
    }
  }

  /** The names other than the skipped one, in order. */
  function Unskipped(names: seq<string>, skip: Option<string>): seq<string> {
    if names == [] then [] else (if skip == Some(names[0]) then [] else [names[0]]) + Unskipped(names[1..], skip)
  }

  lemma {:induction false} UnskippedLast(names: seq<string>, skip: Option<string>)
    requires names != []
    ensures var k := |names| - 1;
      Unskipped(names, skip) == Unskipped(names[..k], skip) + if skip == Some(names[k]) then [] else [names[k]]
  {
    if |names| > 1 {
      UnskippedLast(names[1..], skip);
      assert names[1..][..|names| - 2] == names[..|names| - 1][1..];
    }
  }

  /** Drops run from the newest listed local to the oldest, past the skipped one. */
  lemma {:induction false} DropsNewestFirst(owned: seq<string>, skip: Option<string>)
    ensures var drops, names := E.Drops(owned, skip), Unskipped(owned, skip);
      |drops| == |names| && forall i :: 0 <= i < |drops| ==> drops[i] == names[|names| - 1 - i]
  {
    if owned != [] {
      DropsNewestFirst(owned[..|owned| - 1], skip);
      UnskippedLast(owned, skip);
    }
  }

  /** Emits one function body after another over the shared list. */
  class Emitter {
    const locals: OwnedLocals

    constructor ()
      ensures locals.Valid() && locals.Names() == [] && fresh(locals) && fresh(locals.items)
    {
      locals := new OwnedLocals();
    }

    method Drops(skip: Option<string>) returns (names: seq<string>)
      requires locals.Valid()
      ensures names == E.Drops(locals.Names(), skip)
    {
      names := [];
      var i := locals.len;
      while i > 0
        invariant 0 <= i <= locals.len
        invariant E.Drops(locals.Names(), skip) == names + E.Drops(locals.items[..i], skip)
      {
        i := i - 1;
        assert locals.items[..i + 1][..i] == locals.items[..i];
        if skip != Some(locals.items[i]) { names := names + [locals.items[i]]; }
      }
    }

    method EmitBlock(b: Block, depth: nat) returns (c: E.CBlock)
      requires locals.Valid()
      modifies locals, locals.items
      ensures locals.Valid() && (locals.items == old(locals.items) || fresh(locals.items))
      ensures c == E.EmitBlock(b, depth, old(locals.Names()))
      ensures locals.Names() == E.ListAfterBlock(b, depth, old(locals.Names()))
      decreases b, 2
    {
      match b
      case End => c := E.CEnd;
      case Then(s, rest) =>
        if s.Free? {
          locals.Remove(s.target.text);
          var after := EmitBlock(rest, depth);
          var x := s.target.Target();
          c := E.CThen(E.CDrop(x), E.CThen(E.CAssign(x, E.CLit("")), after));
        } else {
          var head := EmitStmt(s, depth);
          var after := EmitBlock(rest, depth);
          c := E.CThen(head, after);
        }
    }

    method ListIfTop(depth: nat, x: string, ty: Ty)
      requires locals.Valid()
      modifies locals, locals.items
      ensures locals.Valid() && (locals.items == old(locals.items) || fresh(locals.items))
      ensures locals.Names() == E.ListAdd(depth, old(locals.Names()), x, ty)
    {
      if depth == 1 { locals.Add(x, ty); }
    }

    method EmitStmt(s: Stmt, depth: nat) returns (c: E.CStmt)
      requires locals.Valid() && !s.Free?
      modifies locals, locals.items
      ensures locals.Valid() && (locals.items == old(locals.items) || fresh(locals.items))
      ensures c == E.EmitStmt(s, depth, old(locals.Names()))
      ensures locals.Names() == E.ListAfter(s, depth, old(locals.Names()))
      decreases s, 1
    {
      match s
      case Declare(ty, x, e) =>
        c := E.CDeclare(User(x), ty, E.EmitAssigned(ty, e));
        if E.AssignmentMayOwn(ty, e) { ListIfTop(depth, x, ty); }
      case Assign(x, ty, e) =>
        if E.AssignmentMayOwn(ty, e) { ListIfTop(depth, x.text, ty); }
        c := E.CAssign(x.Target(), E.EmitAssigned(ty, e));
      case AddAssign(x, ty, e) =>
        ListIfTop(depth, x.text, ty);
        c := E.EmitAddAssign(x, ty, e);
      case Ret(None) =>
        var names := Drops(None);
        c := E.CReturnVoid(names);
      case Ret(Some(e)) =>
        var moved := false;
        if e.Ref? { moved := locals.Contains(e.name.text); }
        var names := Drops(if moved then Some(e.name.text) else None);
        var borrowed := if e.Ref? then !moved else e.CharAt?;
        c := E.CReturn(if borrowed then E.HeapCopy(E.CheckedType(e), E.EmitExpr(e)) else E.EmitExpr(e), names);
      case Discard(e) => c := E.CExprStmt(E.EmitExpr(e));
      case If(branches) =>
        var arms := EmitBranches(branches, depth);
        c := E.CIf(arms);
      case Loop(id, kind, body) =>
        var inner := EmitBlock(body, depth + 1);
        c := E.CFor(LoopIndex(id), E.LoopStart(kind), E.LoopTest(id, kind), E.LoopStep(kind), E.LoopBody(id, kind, inner));
      case Pass => c := E.CEmpty;
    }

    method EmitBranches(branches: Branches, depth: nat) returns (c: E.CBranches)
      requires locals.Valid()
      modifies locals, locals.items
      ensures locals.Valid() && (locals.items == old(locals.items) || fresh(locals.items))
      ensures c == E.EmitBranches(branches, depth, old(locals.Names()))
      ensures locals.Names() == E.ListAfterBranches(branches, depth, old(locals.Names()))
      decreases branches, 1
    {
      match branches
      case NoElse => c := E.CNoElse;
      case Else(b) =>
        var inner := EmitBlock(b, depth + 1);
        c := E.CElse(inner);
      case Arm(t, body, rest) =>
        var inner := EmitBlock(body, depth + 1);
        var others := EmitBranches(rest, depth);
        c := E.CArm(E.EmitExpr(t), inner, others);
    }

    /** Functions never share a list: it is emptied first. */
    method EmitFn(fn: Fn) returns (c: E.CFn)
      requires locals.Valid()
      modifies locals, locals.items
      ensures locals.Valid() && (locals.items == old(locals.items) || fresh(locals.items))
      ensures c == E.EmitFn(fn)
    {
      locals.Reset();
      var body := EmitBlock(fn.body, 1);
      if !E.EndsWithReturn(fn.body) {
        var names := Drops(None);
        body := E.Append(body, E.DropBlock(names));
      }
      c := E.CFn(fn.params, fn.ret, body);
    }
  }
}
