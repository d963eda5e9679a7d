/** The typing rules the checker follows, as rules: what it accepts, and at which type. */
module ValueRules {
  import opened Wrappers
  import opened ValueTyping

  predicate Number2(l: Type, r: Type) { (l == INT || l == FLT) && (r == INT || r == FLT) }

  predicate OpRule(op: Op, l: Type, r: Type, ty: Type) {
    || (op in {And, Or} && l == BOL && r == BOL && ty == BOL)
    || (op in {Plus, Minus, Times, Over} && Number2(l, r) && ty == (if l == INT && r == INT then INT else FLT))
    || (op == Modulo && l == INT && r == INT && ty == INT)
    || (op == Plus && l == STR && r == STR && ty == STR)
    || (op == Plus && l.Arr? && l.elem != Unknown && r == l && ty == l)
    || (op == Plus && l == Arr(Unknown) && r.Arr? && r.elem != Unknown && ty == r)
    || (op in {Same, Differs} && ((l == r && l in {INT, FLT, BOL, STR}) || Number2(l, r)) && ty == BOL)
    || (op in {Less, LessEq, More, MoreEq} && Number2(l, r) && ty == BOL)
  }

  /** The first field of the name. */
  predicate FieldAt(fields: seq<Field>, name: string, k: nat) {
    k < |fields| && fields[k].name == name && forall j :: 0 <= j < k ==> fields[j].name != name
  }

  ghost predicate HasField(st: Structs, t: Type, name: string) {
    t.Struct? && t.name in st && exists k: nat :: FieldAt(st[t.name], name, k)
  }

  predicate ElementRule(t: Type, ty: Type) { t == Arr(ty) || (t == STR && ty == STR) }

  ghost predicate DotRule(st: Structs, scope: Scope, t: Type, name: string, ty: Type) {
    if HasField(st, t, name) then exists k: nat :: FieldAt(st[t.name], name, k) && ty == st[t.name][k].ty
    else name in scope && scope[name] == INT && ElementRule(t, ty)
  }

  /** Every field has an entry, a default, or an array type. */
  predicate Filled(entries: seq<Entry>, fields: seq<Field>) {
    forall k :: 0 <= k < |fields| ==>
      fields[k].fallback.Some? || fields[k].ty.Arr? || exists i :: 0 <= i < |entries| && entries[i].name == fields[k].name
  }

  /** e has type `ty` where the context asks for `asked`. */
  ghost predicate Rule(st: Structs, scope: Scope, e: Expr, asked: Option<Type>, ty: Type)
    decreases e
  {
    match e
    case Int(_) => ty == if asked == Some(FLT) then FLT else INT
    case Flt(_) => ty == FLT
    case Bol(_) => ty == BOL
    case Str(_) => ty == STR
    case Nil => ty == NUL
    case Name(x) => x in scope && ty == scope[x] && (asked == None || asked == Some(ty))
    case ArrayOf(items) =>
      && ty.Arr? && (asked.Some? && asked.value.Arr? ==> ty == asked.value)
      && (items == [] && (asked.None? || !asked.value.Arr?) ==> ty.elem == Unknown)
      && forall i :: 0 <= i < |items| ==>
           Rule(st, scope, items[i], if i > 0 || (asked.Some? && asked.value.Arr?) then Some(ty.elem) else None, ty.elem)
    case RecordOf(entries) =>
      && asked == Some(ty) && ty.Struct? && ty.name in st && Filled(entries, st[ty.name])
      && forall i :: 0 <= i < |entries| ==> EntryRule(st, scope, entries[i], st[ty.name])
    case Dot(o, name) => exists t :: Rule(st, scope, o, None, t) && DotRule(st, scope, t, name, ty)
    case At(o, i) => Rule(st, scope, i, None, INT) && exists t :: Rule(st, scope, o, None, t) && ElementRule(t, ty)
    case Negate(x) => (ty == INT || ty == FLT) && Rule(st, scope, x, None, ty)
    case Bang(x) => ty == BOL && Rule(st, scope, x, None, BOL)
    case Bin(op, l, r) =>
      exists t, u :: Rule(st, scope, l, None, t) && OpRule(op, t, u, ty)
        && Rule(st, scope, r, if op == Plus && t.Arr? && t.elem != Unknown then Some(t) else None, u)
    case Else(l, r) =>
      ty != NUL && Rule(st, scope, l, None, ty)
      && (Rule(st, scope, r, Some(ty), ty) || (ty == FLT && Rule(st, scope, r, Some(ty), INT)))
    case IfElse(t, y, n) =>
      Rule(st, scope, t, None, BOL)
      && ((Rule(st, scope, y, None, ty) && Rule(st, scope, n, None, ty))
          || (ty == FLT && Rule(st, scope, y, None, INT) && Rule(st, scope, n, None, FLT))
          || (ty == FLT && Rule(st, scope, y, None, FLT) && Rule(st, scope, n, None, INT)))
  }

  ghost predicate EntryRule(st: Structs, scope: Scope, entry: Entry, fields: seq<Field>)
    decreases entry
  {
    exists k: nat :: FieldAt(fields, entry.name, k) && Rule(st, scope, entry.value, Some(fields[k].ty), fields[k].ty)
  }

  // ---- the checker follows them ----

  predicate Is(c: Checked, ty: Type) { c.Typed? && c.ty == ty }

  lemma {:induction false} OperateIs(op: Op, a: Checked, b: Checked, ty: Type)
    ensures Is(CheckBin(op, a, b), ty) <==> a.Typed? && b.Typed? && OpRule(op, a.ty, b.ty, ty)
  {
  }

  lemma {:induction false} IfIs(c: Checked, a: Checked, b: Checked, ty: Type)
    ensures Is(CheckIf(c, a, b), ty)
            <==> Is(c, BOL) && ((Is(a, ty) && Is(b, ty)) || (ty == FLT && ((Is(a, INT) && Is(b, FLT)) || (Is(a, FLT) && Is(b, INT)))))
  {
  }

  lemma {:induction false} ElseIs(a: Checked, b: Checked, ty: Type)
    ensures Is(CheckElse(a, b), ty) <==> ty != NUL && Is(a, ty) && (Is(b, ty) || (ty == FLT && Is(b, INT)))
  {
  }

  lemma {:induction false} FieldIndexIs(fields: seq<Field>, name: string)
    ensures forall k: nat :: FieldAt(fields, name, k) <==> FieldIndex(fields, name) == Some(k)
  {
    if fields != [] {
      FieldIndexIs(fields[1..], name);
      forall k: nat ensures FieldAt(fields, name, k) <==> FieldIndex(fields, name) == Some(k) {
        if fields[0].name != name && k > 0 { FieldBehind(fields, name, k); }
      }
    }
  }

  lemma {:induction false} FieldBehind(fields: seq<Field>, name: string, k: nat)
    requires fields != [] && fields[0].name != name && k > 0
    ensures FieldAt(fields, name, k) <==> FieldAt(fields[1..], name, k - 1)
  {
    if FieldAt(fields[1..], name, k - 1) {
      forall j | 0 <= j < k ensures fields[j].name != name { if j > 0 { assert fields[1..][j - 1].name != name; } }
    }
  }

  lemma {:induction false} DotIs(st: Structs, scope: Scope, o: Checked, name: string, ty: Type)
    ensures Is(CheckDot(st, scope, o, name), ty) <==> o.Typed? && DotRule(st, scope, o.ty, name, ty)
  {
    if o.Typed? && o.ty.Struct? && o.ty.name in st {
      FieldIndexIs(st[o.ty.name], name);
      var i := FieldIndex(st[o.ty.name], name);
      if i.Some? { assert FieldAt(st[o.ty.name], name, i.value); }
    }
  }

  /** A checked part has exactly the types the rules give it. */
  ghost predicate Agrees(st: Structs, scope: Scope, e: Expr, asked: Option<Type>) {
    forall ty :: Rule(st, scope, e, asked, ty) <==> Is(Check(st, scope, e, asked), ty)
  }

  /** The checker accepts an expression exactly when the rules give it a type, and then at that
      type. */
  lemma {:induction false} AcceptsExactly(st: Structs, scope: Scope, e: Expr, asked: Option<Type>)
    ensures Agrees(st, scope, e, asked)
    decreases e, 1
  {
    match e
    case ArrayOf(_) => ArrayAgrees(st, scope, e, asked);
    case RecordOf(_) => RecordAgrees(st, scope, e, asked);
    case Dot(_, _) => DotAgrees(st, scope, e, asked);
    case At(_, _) => AtAgrees(st, scope, e, asked);
    case Negate(x) => AcceptsExactly(st, scope, x, None);
    case Bang(x) => AcceptsExactly(st, scope, x, None);
    case Bin(_, _, _) => BinAgrees(st, scope, e, asked);
    case Else(l, r) => ElseAgrees(st, scope, e, asked);
    case IfElse(t, y, n) => IfAgrees(st, scope, e, asked);
    case _ =>
  }

  lemma {:induction false} DotAgrees(st: Structs, scope: Scope, e: Expr, asked: Option<Type>)
    requires e.Dot?
    ensures Agrees(st, scope, e, asked)
    decreases e, 0
  {
    var o := Check(st, scope, e.base, None);
    AcceptsExactly(st, scope, e.base, None);
    forall ty ensures Rule(st, scope, e, asked, ty) <==> Is(Check(st, scope, e, asked), ty) {
      DotIs(st, scope, o, e.name, ty);
      if o.Typed? { assert Rule(st, scope, e.base, None, o.ty); }
    }
  }

  lemma {:induction false} AtAgrees(st: Structs, scope: Scope, e: Expr, asked: Option<Type>)
    requires e.At?
    ensures Agrees(st, scope, e, asked)
    decreases e, 0
  {
    var o := Check(st, scope, e.base, None);
    AcceptsExactly(st, scope, e.base, None);
    AcceptsExactly(st, scope, e.index, None);
    forall ty ensures Rule(st, scope, e, asked, ty) <==> Is(Check(st, scope, e, asked), ty) {
      if o.Typed? { assert Rule(st, scope, e.base, None, o.ty); }
    }
  }

  lemma {:induction false} BinAgrees(st: Structs, scope: Scope, e: Expr, asked: Option<Type>)
    requires e.Bin?
    ensures Agrees(st, scope, e, asked)
    decreases e, 0
  {
    var a := Check(st, scope, e.left, None);
    var b := Check(st, scope, e.right, RightAsked(e.op, a));
    AcceptsExactly(st, scope, e.left, None);
    AcceptsExactly(st, scope, e.right, RightAsked(e.op, a));
    forall ty ensures Rule(st, scope, e, asked, ty) <==> Is(Check(st, scope, e, asked), ty) {
      OperateIs(e.op, a, b, ty);
      if a.Typed? { assert Rule(st, scope, e.left, None, a.ty); }
      if b.Typed? { assert Rule(st, scope, e.right, RightAsked(e.op, a), b.ty); }
    }
  }

  lemma {:induction false} ElseAgrees(st: Structs, scope: Scope, e: Expr, asked: Option<Type>)
    requires e.Else?
    ensures Agrees(st, scope, e, asked)
    decreases e, 0
  {
    var a := Check(st, scope, e.left, None);
    var right := if a.Typed? then Some(a.ty) else None;
    AcceptsExactly(st, scope, e.left, None);
    AcceptsExactly(st, scope, e.right, right);
    forall ty ensures Rule(st, scope, e, asked, ty) <==> Is(Check(st, scope, e, asked), ty) {
      ElseIs(a, Check(st, scope, e.right, right), ty);
    }
  }

  lemma {:induction false} IfAgrees(st: Structs, scope: Scope, e: Expr, asked: Option<Type>)
    requires e.IfElse?
    ensures Agrees(st, scope, e, asked)
    decreases e, 0
  {
    AcceptsExactly(st, scope, e.test, None);
    AcceptsExactly(st, scope, e.yes, None);
    AcceptsExactly(st, scope, e.no, None);
    forall ty ensures Rule(st, scope, e, asked, ty) <==> Is(Check(st, scope, e, asked), ty) {
      IfIs(Check(st, scope, e.test, None), Check(st, scope, e.yes, None), Check(st, scope, e.no, None), ty);
    }
  }

  // ---- array literals ----

  lemma {:induction false} ItemsShift(st: Structs, scope: Scope, items: seq<Expr>, elem: Type)
    requires items != []
    ensures (forall i :: 0 <= i < |items[1..]| ==> Rule(st, scope, items[1..][i], Some(elem), elem))
            <==> forall i :: 0 < i < |items| ==> Rule(st, scope, items[i], Some(elem), elem)
  {
    var tail := items[1..];
    if forall i :: 0 <= i < |tail| ==> Rule(st, scope, tail[i], Some(elem), elem) {
      forall i | 0 < i < |items| ensures Rule(st, scope, items[i], Some(elem), elem) { assert tail[i - 1] == items[i]; }
    }
    if forall i :: 0 < i < |items| ==> Rule(st, scope, items[i], Some(elem), elem) {
      forall i | 0 <= i < |tail| ensures Rule(st, scope, tail[i], Some(elem), elem) { assert tail[i] == items[i + 1]; }
    }
  }

  lemma {:induction false} ItemsAgree(st: Structs, scope: Scope, e: Expr, items: seq<Expr>, elem: Type)
    requires forall i :: 0 <= i < |items| ==> items[i] < e
    ensures CheckItems(st, scope, items, elem, elem).Some?
            <==> forall i :: 0 <= i < |items| ==> Rule(st, scope, items[i], Some(elem), elem)
    decreases e, 0, |items|
  {
    if items != [] {
      assert items[0] < e;
      AcceptsExactly(st, scope, items[0], Some(elem));
      ItemsAgree(st, scope, e, items[1..], elem);
      assert Rule(st, scope, items[0], Some(elem), elem) <==> Is(Check(st, scope, items[0], Some(elem)), elem);
      ItemsShift(st, scope, items, elem);
    }
  }

  lemma {:induction false} ArrayAgrees(st: Structs, scope: Scope, e: Expr, asked: Option<Type>)
    requires e.ArrayOf?
    ensures Agrees(st, scope, e, asked)
    decreases e, 0, |e.items| + 1
  {
    if e.items != [] {
      forall ty ensures Rule(st, scope, e, asked, ty) <==> Is(Check(st, scope, e, asked), ty) { ArrayIs(st, scope, e, asked, ty); }
    }
  }

  /** The rest of an array literal's items, checked against the type of the first. */
  lemma {:induction false} ArrayChecks(st: Structs, scope: Scope, items: seq<Expr>, asked: Option<Type>, ty: Type)
    requires items != [] && ty.Arr? && (asked.Some? && asked.value.Arr? ==> ty == asked.value)
    ensures var first := if asked.Some? && asked.value.Arr? then Some(ty.elem) else None;
      Is(CheckArray(st, scope, items, asked), ty)
      <==> Is(Check(st, scope, items[0], first), ty.elem) && CheckItems(st, scope, items[1..], ty.elem, ty.elem).Some?
  {
  }

  lemma {:induction false} ArrayIs(st: Structs, scope: Scope, e: Expr, asked: Option<Type>, ty: Type)
    requires e.ArrayOf? && e.items != []
    ensures Rule(st, scope, e, asked, ty) <==> Is(Check(st, scope, e, asked), ty)
    decreases e, 0, |e.items|
  {
    var items := e.items;
    if ty.Arr? && (asked.Some? && asked.value.Arr? ==> ty == asked.value) {
      var first := if asked.Some? && asked.value.Arr? then Some(ty.elem) else None;
      AcceptsExactly(st, scope, items[0], first);
      ItemsAgree(st, scope, e, items[1..], ty.elem);
      ArrayChecks(st, scope, items, asked, ty);
      assert Rule(st, scope, items[0], first, ty.elem) <==> Is(Check(st, scope, items[0], first), ty.elem);
      ItemsShift(st, scope, items, ty.elem);
    }
  }

  // ---- record literals ----

  lemma {:induction false} EntriesAgree(st: Structs, scope: Scope, e: Expr, entries: seq<Entry>, fields: seq<Field>)
    requires forall i :: 0 <= i < |entries| ==> entries[i].value < e
    ensures CheckEntries(st, scope, entries, fields).Some?
            <==> forall i :: 0 <= i < |entries| ==> EntryRule(st, scope, entries[i], fields)
    decreases e, 0, |entries|
  {
    if entries != [] {
      EntryAgrees(st, scope, e, entries[0], fields);
      EntriesAgree(st, scope, e, entries[1..], fields);
      if forall i :: 0 <= i < |entries| ==> EntryRule(st, scope, entries[i], fields) {
        forall i | 0 <= i < |entries[1..]| ensures EntryRule(st, scope, entries[1..][i], fields) { assert entries[1..][i] == entries[i + 1]; }
      }
      if CheckEntries(st, scope, entries, fields).Some? {
        forall i | 0 <= i < |entries| ensures EntryRule(st, scope, entries[i], fields) {
          if i > 0 { assert entries[1..][i - 1] == entries[i]; }
        }
      }
    }
  }

  lemma {:induction false} EntryAgrees(st: Structs, scope: Scope, e: Expr, entry: Entry, fields: seq<Field>)
    requires entry.value < e
    ensures EntryRule(st, scope, entry, fields)
            <==> var f := FieldIndex(fields, entry.name);
                 f.Some? && Is(Check(st, scope, entry.value, Some(fields[f.value].ty)), fields[f.value].ty)
    decreases e, 0, 0
  {
    FieldIndexIs(fields, entry.name);
    var f := FieldIndex(fields, entry.name);
    if f.Some? {
      var t := fields[f.value].ty;
      assert FieldAt(fields, entry.name, f.value);
      AcceptsExactly(st, scope, entry.value, Some(t));
      assert Rule(st, scope, entry.value, Some(t), t) <==> Is(Check(st, scope, entry.value, Some(t)), t);
    }
  }

  lemma {:induction false} EntryFound(entries: seq<Entry>, name: string)
    ensures EntryIndex(entries, name).Some? <==> exists i :: 0 <= i < |entries| && entries[i].name == name
  {
    if entries != [] {
      EntryFound(entries[1..], name);
      if i :| 0 <= i < |entries| && entries[i].name == name { if i > 0 { assert entries[1..][i - 1].name == name; } }
      if i :| 0 <= i < |entries[1..]| && entries[1..][i].name == name { assert entries[i + 1].name == name; }
    }
  }

  lemma {:induction false} SlotsFilled(entries: seq<Entry>, cores: seq<Core>, fields: seq<Field>)
    requires |cores| == |entries|
    ensures Slots(entries, cores, fields).Some? <==> Filled(entries, fields)
    decreases |fields|
  {
    if fields != [] {
      EntryFound(entries, fields[0].name);
      SlotsFilled(entries, cores, fields[1..]);
      if Filled(entries, fields) {
        forall k | 0 <= k < |fields[1..]|
          ensures fields[1..][k].fallback.Some? || fields[1..][k].ty.Arr? || exists i :: 0 <= i < |entries| && entries[i].name == fields[1..][k].name
        {
          assert fields[1..][k] == fields[k + 1];
        }
      }
      if Slots(entries, cores, fields).Some? {
        forall k | 0 <= k < |fields|
          ensures fields[k].fallback.Some? || fields[k].ty.Arr? || exists i :: 0 <= i < |entries| && entries[i].name == fields[k].name
        {
          if k > 0 { assert fields[1..][k - 1] == fields[k]; }
        }
      }
    }
  }

  lemma {:induction false} RecordAgrees(st: Structs, scope: Scope, e: Expr, asked: Option<Type>)
    requires e.RecordOf?
    ensures Agrees(st, scope, e, asked)
    decreases e, 0, |e.entries| + 1
  {
    if asked.Some? && asked.value.Struct? && asked.value.name in st {
      var fields := st[asked.value.name];
      forall i | 0 <= i < |e.entries| ensures e.entries[i].value < e { assert e.entries[i] in e.entries; }
      EntriesAgree(st, scope, e, e.entries, fields);
      var cores := CheckEntries(st, scope, e.entries, fields);
      if cores.Some? { SlotsFilled(e.entries, cores.value, fields); }
    }
  }
}
