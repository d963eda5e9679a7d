/** Checked expressions compute values of their type. */
module ValueTypingProof {
  import opened Wrappers
  import opened ValueTyping

  predicate HasType(st: Structs, v: Val, t: Type)
    decreases v
  {
    match v
    case VInt(_) => t == INT
    case VFlt(_) => t == FLT
    case VBol(_) => t == BOL
    case VStr(_) => t == STR
    case VNul => t == NUL
    case VArr(items) => t.Arr? && forall i :: 0 <= i < |items| ==> HasType(st, items[i], t.elem)
    case VRec(name, fields) =>
      t == Struct(name) && name in st && |fields| == |st[name]|
      && forall i :: 0 <= i < |fields| ==> HasType(st, fields[i], st[name][i].ty)
  }

  /** Declared defaults have their fields' types. */
  ghost predicate StructsOk(st: Structs) {
    forall name, i :: name in st && 0 <= i < |st[name]| && st[name][i].fallback.Some? ==> HasType(st, st[name][i].fallback.value, st[name][i].ty)
  }

  ghost predicate Matches(st: Structs, scope: Scope, env: map<string, Val>) {
    forall x :: x in scope ==> x in env && HasType(st, env[x], scope[x])
  }

  /** A value of the type, up to the conversion of an INT to the FLT it stands for; or a stop. */
  ghost predicate Fine(st: Structs, o: Out, t: Type) { !o.Stuck? && (o.Ok? ==> HasType(st, Convert(o.v, t), t)) }

  ghost predicate Sound(st: Structs, c: Checked, env: map<string, Val>, fl: Floats) { c.Typed? ==> Fine(st, Eval(c.core, env, fl), c.ty) }

  // ---- operators ----

  lemma {:induction false} NumberFine(st: Structs, op: Op, l: Type, r: Type, a: Val, b: Val, fl: Floats)
    requires NumericType(l, r).Some? && HasType(st, Convert(a, l), l) && HasType(st, Convert(b, r), r)
    requires op in {Plus, Minus, Times, Over} || (op == Modulo && l == INT && r == INT)
    ensures Fine(st, Number(op, NumericType(l, r).value, a, b, fl), NumericType(l, r).value)
  {
    assert a.VInt? || (a.VFlt? && l == FLT);
    assert b.VInt? || (b.VFlt? && r == FLT);
  }

  lemma {:induction false} CompareFine(st: Structs, op: Op, l: Type, r: Type, a: Val, b: Val, fl: Floats)
    requires HasType(st, Convert(a, l), l) && HasType(st, Convert(b, r), r)
    requires (op in {Same, Differs} && Comparable(l, r)) || (op in {Less, LessEq, More, MoreEq} && Numeric(l) && Numeric(r))
    ensures Fine(st, Compare(op, a, b, fl), BOL)
  {
    if Numeric(l) {
      assert (a.VInt? || a.VFlt?) && (b.VInt? || b.VFlt?);
    } else {
      assert l == r && l in {BOL, STR} && Convert(a, l) == a && Convert(b, r) == b;
    }
  }

  lemma {:induction false} OperateSound(st: Structs, op: Op, a: Checked, b: Checked, env: map<string, Val>, fl: Floats)
    requires a.Typed? && b.Typed? && Sound(st, a, env, fl) && Sound(st, b, env, fl)
    ensures Sound(st, Operate(op, a.ty, b.ty, a.core, b.core), env, fl)
  {
    if Operate(op, a.ty, b.ty, a.core, b.core).Typed? {
      if op in {And, Or} {
        AndOrFine(st, a, b, env, fl);
      } else if op in {Same, Differs, Less, LessEq, More, MoreEq} {
        CompareSound(st, op, a, b, env, fl);
      } else if NumericType(a.ty, b.ty).Some? {
        NumberSound(st, op, a, b, env, fl);
      }
    }
  }

  lemma {:induction false} CompareSound(st: Structs, op: Op, a: Checked, b: Checked, env: map<string, Val>, fl: Floats)
    requires a.Typed? && b.Typed? && Sound(st, a, env, fl) && Sound(st, b, env, fl)
    requires (op in {Same, Differs} && Comparable(a.ty, b.ty)) || (op in {Less, LessEq, More, MoreEq} && Numeric(a.ty) && Numeric(b.ty))
    ensures Fine(st, Eval(CCompare(op, a.core, b.core), env, fl), BOL)
  {
    var x, y := Eval(a.core, env, fl), Eval(b.core, env, fl);
    if x.Ok? && y.Ok? { CompareFine(st, op, a.ty, b.ty, x.v, y.v, fl); }
  }

  lemma {:induction false} NumberSound(st: Structs, op: Op, a: Checked, b: Checked, env: map<string, Val>, fl: Floats)
    requires a.Typed? && b.Typed? && Sound(st, a, env, fl) && Sound(st, b, env, fl) && NumericType(a.ty, b.ty).Some?
    requires op in {Plus, Minus, Times, Over} || (op == Modulo && a.ty == INT && b.ty == INT)
    ensures var ty := NumericType(a.ty, b.ty).value; Fine(st, Eval(CNumber(op, ty, a.core, b.core), env, fl), ty)
  {
    var x, y := Eval(a.core, env, fl), Eval(b.core, env, fl);
    if x.Ok? && y.Ok? { NumberFine(st, op, a.ty, b.ty, x.v, y.v, fl); }
  }

  lemma {:induction false} AndOrFine(st: Structs, a: Checked, b: Checked, env: map<string, Val>, fl: Floats)
    requires a.Typed? && b.Typed? && a.ty == BOL && b.ty == BOL && Sound(st, a, env, fl) && Sound(st, b, env, fl)
    ensures Fine(st, Eval(CIf(BOL, a.core, b.core, CVal(VBol(false))), env, fl), BOL)
    ensures Fine(st, Eval(CIf(BOL, a.core, CVal(VBol(true)), b.core), env, fl), BOL)
  {
    assert Eval(CVal(VBol(false)), env, fl) == Ok(VBol(false)) && Eval(CVal(VBol(true)), env, fl) == Ok(VBol(true));
  }

  /** A value fine for one type, converted to the wider numeric type. */
  lemma {:induction false} Widens(st: Structs, o: Out, from: Type, to: Type)
    requires Fine(st, o, from) && (from == to || (from == INT && to == FLT))
    ensures Fine(st, ConvertOut(o, to), to) && (o.Ok? ==> HasType(st, ConvertOut(o, to).v, to))
  {
  }

  lemma {:induction false} IfSound(st: Structs, c: Checked, a: Checked, b: Checked, ty: Type, env: map<string, Val>, fl: Floats)
    requires c.Typed? && a.Typed? && b.Typed? && c.ty == BOL
    requires Sound(st, c, env, fl) && Sound(st, a, env, fl) && Sound(st, b, env, fl)
    requires (a.ty == ty || (a.ty == INT && ty == FLT)) && (b.ty == ty || (b.ty == INT && ty == FLT))
    ensures Fine(st, Eval(CIf(ty, c.core, a.core, b.core), env, fl), ty)
  {
    Widens(st, Eval(a.core, env, fl), a.ty, ty);
    Widens(st, Eval(b.core, env, fl), b.ty, ty);
  }

  lemma {:induction false} ElseSound(st: Structs, a: Checked, b: Checked, env: map<string, Val>, fl: Floats)
    requires a.Typed? && b.Typed? && Sound(st, a, env, fl) && Sound(st, b, env, fl)
    requires b.ty == a.ty || (b.ty == INT && a.ty == FLT)
    ensures Fine(st, Eval(CElse(a.ty, a.core, b.core), env, fl), a.ty)
  {
    Widens(st, Eval(a.core, env, fl), a.ty, a.ty);
    Widens(st, Eval(b.core, env, fl), b.ty, a.ty);
  }

  lemma {:induction false} IndexedSound(st: Structs, o: Checked, i: Checked, env: map<string, Val>, fl: Floats)
    requires Sound(st, o, env, fl) && Sound(st, i, env, fl)
    ensures Sound(st, Indexed(o, i), env, fl)
  {
    if Indexed(o, i).Typed? {
      var a, b := Eval(o.core, env, fl), Eval(i.core, env, fl);
      if a.Ok? && b.Ok? { assert Convert(a.v, o.ty) == a.v && b.v.VInt?; }
    }
  }

  lemma {:induction false} JoinSound(st: Structs, a: Checked, b: Checked, env: map<string, Val>, fl: Floats)
    requires a.Typed? && b.Typed? && Sound(st, a, env, fl) && Sound(st, b, env, fl)
    requires b.ty.Arr? && (a.ty == b.ty || a.ty == Arr(Unknown))
    ensures Fine(st, Eval(CJoin(a.core, b.core), env, fl), b.ty)
  {
    var x, y := Eval(a.core, env, fl), Eval(b.core, env, fl);
    if x.Ok? && y.Ok? && a.ty != b.ty { NothingUnknown(st, x.v); }
  }

  lemma {:induction false} BinSound(st: Structs, op: Op, a: Checked, b: Checked, env: map<string, Val>, fl: Floats)
    requires Sound(st, a, env, fl) && Sound(st, b, env, fl)
    ensures Sound(st, CheckBin(op, a, b), env, fl)
  {
    if CheckBin(op, a, b).Typed? {
      if op == Plus && a.ty.Arr? { JoinSound(st, a, b, env, fl); } else { OperateSound(st, op, a, b, env, fl); }
    }
  }

  lemma {:induction false} CheckIfSound(st: Structs, c: Checked, a: Checked, b: Checked, env: map<string, Val>, fl: Floats)
    requires Sound(st, c, env, fl) && Sound(st, a, env, fl) && Sound(st, b, env, fl)
    ensures Sound(st, CheckIf(c, a, b), env, fl)
  {
    var r := CheckIf(c, a, b);
    if r.Typed? { IfSound(st, c, a, b, r.ty, env, fl); }
  }

  lemma {:induction false} UnarySound(st: Structs, c: Checked, env: map<string, Val>, fl: Floats)
    requires Sound(st, c, env, fl)
    ensures Sound(st, CheckNegate(c), env, fl) && Sound(st, CheckBang(c), env, fl)
  {
  }

  /** Only the empty array has unknown elements. */
  lemma {:induction false} NothingUnknown(st: Structs, v: Val)
    requires HasType(st, v, Arr(Unknown))
    ensures v == VArr([])
  {
    if |v.items| > 0 { NoneUnknown(st, v.items[0]); }
  }

  lemma {:induction false} NoneUnknown(st: Structs, v: Val)
    ensures !HasType(st, v, Unknown)
  {
  }

  // ---- arrays and records ----

  ghost predicate EachFine(st: Structs, parts: seq<Core>, elem: Type, env: map<string, Val>, fl: Floats) {
    forall i :: 0 <= i < |parts| ==> Fine(st, Eval(parts[i], env, fl), elem)
  }

  lemma {:induction false} AllFineMore(st: Structs, first: Core, rest: seq<Core>, elem: Type, env: map<string, Val>, fl: Floats)
    requires Fine(st, Eval(first, env, fl), elem) && EachFine(st, rest, elem, env, fl)
    ensures EachFine(st, [first] + rest, elem, env, fl)
  {
    var all := [first] + rest;
    forall i | 0 <= i < |all| ensures Fine(st, Eval(all[i], env, fl), elem) {
      assert all[i] == if i == 0 then first else rest[i - 1];
    }
  }

  lemma {:induction false} AllFine(st: Structs, parts: seq<Core>, elem: Type, env: map<string, Val>, fl: Floats)
    requires EachFine(st, parts, elem, env, fl)
    ensures var r := EvalAll(parts, elem, env, fl);
      !r.0.Stuck? && (r.0.Ok? ==> |r.1| == |parts| && forall i :: 0 <= i < |r.1| ==> HasType(st, r.1[i], elem))
  {
    if parts != [] { AllFine(st, parts[1..], elem, env, fl); }
  }

  lemma {:induction false} SlotsFine(st: Structs, parts: seq<Core>, tys: seq<Type>, env: map<string, Val>, fl: Floats)
    requires |parts| == |tys| && forall i :: 0 <= i < |parts| ==> Fine(st, Eval(parts[i], env, fl), tys[i])
    ensures var r := EvalSlots(parts, tys, env, fl);
      !r.0.Stuck? && (r.0.Ok? ==> |r.1| == |parts| && forall i :: 0 <= i < |r.1| ==> HasType(st, r.1[i], tys[i]))
  {
    if parts != [] { SlotsFine(st, parts[1..], tys[1..], env, fl); }
  }

  lemma {:induction false} DefaultFine(st: Structs, f: Field, env: map<string, Val>, fl: Floats)
    requires f.fallback.Some? ==> HasType(st, f.fallback.value, f.ty)
    ensures DefaultOf(f).Some? ==> Fine(st, Eval(DefaultOf(f).value, env, fl), f.ty)
  {
    if f.fallback.None? && f.ty.Arr? { assert EvalAll([], f.ty.elem, env, fl) == (Ok(VNul), []); }
  }

  /** Every entry's value is fine for the field it names. */
  ghost predicate EntriesFine(st: Structs, entries: seq<Entry>, cores: seq<Core>, fields: seq<Field>, env: map<string, Val>, fl: Floats) {
    |cores| == |entries| && forall i :: 0 <= i < |entries| ==>
      var f := FieldIndex(fields, entries[i].name);
      f.Some? && Fine(st, Eval(cores[i], env, fl), fields[f.value].ty)
  }

  lemma {:induction false} SlotsTyped(st: Structs, entries: seq<Entry>, cores: seq<Core>, fields: seq<Field>, k: nat, env: map<string, Val>, fl: Floats)
    requires k <= |fields| && EntriesFine(st, entries, cores, fields, env, fl) && DistinctFields(fields)
    requires forall i :: 0 <= i < |fields| && fields[i].fallback.Some? ==> HasType(st, fields[i].fallback.value, fields[i].ty)
    ensures var slots := Slots(entries, cores, fields[k..]);
      slots.Some? ==> |slots.value| == |fields| - k
                      && forall i :: 0 <= i < |slots.value| ==> Fine(st, Eval(slots.value[i], env, fl), fields[k + i].ty)
    decreases |fields| - k
  {
    if k < |fields| {
      assert fields[k..][1..] == fields[k + 1..];
      SlotsTyped(st, entries, cores, fields, k + 1, env, fl);
      var e := EntryIndex(entries, fields[k].name);
      DefaultFine(st, fields[k], env, fl);
      if e.Some? { FieldFound(fields, k); }
    }
  }

  /** Field names of one struct differ. */
  predicate DistinctFields(fields: seq<Field>) { forall i, j :: 0 <= i < j < |fields| ==> fields[i].name != fields[j].name }

  lemma {:induction false} FieldFound(fields: seq<Field>, k: nat)
    requires k < |fields| && DistinctFields(fields)
    ensures FieldIndex(fields, fields[k].name) == Some(k)
  {
    if k > 0 {
      assert fields[1..][k - 1] == fields[k];
      FieldFound(fields[1..], k - 1);
    }
  }

  // ---- the theorem ----

  ghost predicate Declared(st: Structs) { StructsOk(st) && forall name :: name in st ==> DistinctFields(st[name]) }

  /** Type soundness: in an environment that matches the scope, an accepted expression computes
      a value of its type, or ends in the failure of a text index, or in what C leaves undefined;
      it never applies an operation to values it has no meaning for. */
  lemma {:induction false} CheckedIsSound(st: Structs, scope: Scope, e: Expr, expected: Option<Type>, env: map<string, Val>, fl: Floats)
    requires Declared(st) && Matches(st, scope, env)
    ensures Sound(st, Check(st, scope, e, expected), env, fl)
    decreases e, 1
  {
    match e
    case ArrayOf(items) => ArraySound(st, scope, items, expected, env, fl);
    case RecordOf(entries) => RecordSound(st, scope, entries, expected, env, fl);
    case Dot(o, name) =>
      CheckedIsSound(st, scope, o, None, env, fl);
      DotSound(st, scope, Check(st, scope, o, None), name, env, fl);
    case At(o, i) =>
      CheckedIsSound(st, scope, o, None, env, fl);
      CheckedIsSound(st, scope, i, None, env, fl);
      IndexedSound(st, Check(st, scope, o, None), Check(st, scope, i, None), env, fl);
    case Negate(x) => CheckedIsSound(st, scope, x, None, env, fl); UnarySound(st, Check(st, scope, x, None), env, fl);
    case Bang(x) => CheckedIsSound(st, scope, x, None, env, fl); UnarySound(st, Check(st, scope, x, None), env, fl);
    case Bin(op, l, r) =>
      var a := Check(st, scope, l, None);
      CheckedIsSound(st, scope, l, None, env, fl);
      CheckedIsSound(st, scope, r, RightAsked(op, a), env, fl);
      BinSound(st, op, a, Check(st, scope, r, RightAsked(op, a)), env, fl);
    case Else(l, r) =>
      var a := Check(st, scope, l, None);
      var asked := if a.Typed? then Some(a.ty) else None;
      CheckedIsSound(st, scope, l, None, env, fl);
      CheckedIsSound(st, scope, r, asked, env, fl);
      if CheckElse(a, Check(st, scope, r, asked)).Typed? { ElseSound(st, a, Check(st, scope, r, asked), env, fl); }
    case IfElse(t, y, n) =>
      CheckedIsSound(st, scope, t, None, env, fl);
      CheckedIsSound(st, scope, y, None, env, fl);
      CheckedIsSound(st, scope, n, None, env, fl);
      CheckIfSound(st, Check(st, scope, t, None), Check(st, scope, y, None), Check(st, scope, n, None), env, fl);
    case _ =>
  }

  lemma {:induction false} DotSound(st: Structs, scope: Scope, o: Checked, name: string, env: map<string, Val>, fl: Floats)
    requires Declared(st) && Matches(st, scope, env) && Sound(st, o, env, fl)
    ensures Sound(st, CheckDot(st, scope, o, name), env, fl)
  {
    if name in scope { IndexedSound(st, o, Typed(scope[name], CName(name)), env, fl); }
    if o.Typed? && o.ty.Struct? {
      var a := Eval(o.core, env, fl);
      if a.Ok? { assert Convert(a.v, o.ty) == a.v && HasType(st, a.v, o.ty); }
    }
  }

  lemma {:induction false} ArraySound(st: Structs, scope: Scope, items: seq<Expr>, expected: Option<Type>, env: map<string, Val>, fl: Floats)
    requires Declared(st) && Matches(st, scope, env)
    ensures Sound(st, CheckArray(st, scope, items, expected), env, fl)
    decreases items, 1
  {
    var r := CheckArray(st, scope, items, expected);
    if items == [] {
      AllFine(st, [], r.ty.elem, env, fl);
    } else if r.Typed? {
      var asked := if expected.Some? && expected.value.Arr? then Some(expected.value.elem) else None;
      var first := Check(st, scope, items[0], asked);
      CheckedIsSound(st, scope, items[0], asked, env, fl);
      var rest := CheckItems(st, scope, items[1..], if asked.Some? then asked.value else first.ty, first.ty);
      ItemsSound(st, scope, items[1..], if asked.Some? then asked.value else first.ty, first.ty, env, fl);
      AllFineMore(st, first.core, rest.value, first.ty, env, fl);
      AllFine(st, [first.core] + rest.value, first.ty, env, fl);
    }
  }

  lemma {:induction false} ItemsSound(st: Structs, scope: Scope, items: seq<Expr>, asked: Type, elem: Type, env: map<string, Val>, fl: Floats)
    requires Declared(st) && Matches(st, scope, env)
    ensures var r := CheckItems(st, scope, items, asked, elem);
      r.Some? ==> EachFine(st, r.value, elem, env, fl)
    decreases items, 0
  {
    if items != [] {
      var first, rest := Check(st, scope, items[0], Some(asked)), CheckItems(st, scope, items[1..], asked, elem);
      CheckedIsSound(st, scope, items[0], Some(asked), env, fl);
      ItemsSound(st, scope, items[1..], asked, elem, env, fl);
      if first.Typed? && first.ty == elem && rest.Some? {
        AllFineMore(st, first.core, rest.value, elem, env, fl);
        assert CheckItems(st, scope, items, asked, elem) == Some([first.core] + rest.value);
      }
    }
  }

  lemma {:induction false} RecordSound(st: Structs, scope: Scope, entries: seq<Entry>, expected: Option<Type>, env: map<string, Val>, fl: Floats)
    requires Declared(st) && Matches(st, scope, env)
    ensures Sound(st, CheckRecord(st, scope, entries, expected), env, fl)
    decreases entries, 1
  {
    var r := CheckRecord(st, scope, entries, expected);
    if r.Typed? {
      var fields := st[expected.value.name];
      EntriesSound(st, scope, entries, fields, env, fl);
      var cores := CheckEntries(st, scope, entries, fields).value;
      SlotsTyped(st, entries, cores, fields, 0, env, fl);
      assert fields[0..] == fields;
      SlotsFine(st, r.core.parts, Types(fields), env, fl);
    }
  }

  lemma {:induction false} EntriesSound(st: Structs, scope: Scope, entries: seq<Entry>, fields: seq<Field>, env: map<string, Val>, fl: Floats)
    requires Declared(st) && Matches(st, scope, env)
    ensures var r := CheckEntries(st, scope, entries, fields); r.Some? ==> EntriesFine(st, entries, r.value, fields, env, fl)
    decreases entries, 0
  {
    if entries != [] {
      var f := FieldIndex(fields, entries[0].name);
      assert entries[0] in entries;
      if f.Some? { CheckedIsSound(st, scope, entries[0].value, Some(fields[f.value].ty), env, fl); }
      EntriesSound(st, scope, entries[1..], fields, env, fl);
    }
  }
}
