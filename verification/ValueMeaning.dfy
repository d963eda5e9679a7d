/** What expressions mean, read off the source tree: the picked arm, operands in order, record
    entries by field name, and an INT made a FLT where an element, a field, an arm or the other
    operand is one. The checker's output computes exactly this. */
module ValueMeaning {
  import opened Wrappers
  import opened ValueTyping
  import opened ValueTypingProof

  /** The FLT an INT becomes where a FLT is stated. */
  function Promote(v: Val, t: Type): Val { if t == FLT && v.VInt? then VFlt(v.n as real) else v }

  function Promoted(o: Out, t: Type): Out { match o case Ok(v) => Ok(Promote(v, t)) case _ => o }

  /** The type the checker gives e. */
  function StaticType(st: Structs, scope: Scope, e: Expr, asked: Option<Type>): Type {
    match Check(st, scope, e, asked) case Typed(t, _) => t case Rejected => NUL
  }

  // ---- operators on values ----

  /** C's division: towards zero. */
  function Divided(a: int, b: int): int
    requires b != 0
  {
    if b > 0 then (if a < 0 then -(-a / b) else a / b) else if a < 0 then -a / -b else -(a / -b)
  }

  function OnInts(op: Op, a: int, b: int): Out {
    match op
    case Plus => Ok(VInt(a + b))
    case Minus => Ok(VInt(a - b))
    case Times => Ok(VInt(a * b))
    case Over => if b == 0 then Undefined else Ok(VInt(Divided(a, b)))
    case Modulo => if b == 0 then Undefined else Ok(VInt(a - Divided(a, b) * b))
    case Less => Ok(VBol(a < b))
    case LessEq => Ok(VBol(a <= b))
    case More => Ok(VBol(b < a))
    case MoreEq => Ok(VBol(b <= a))
    case Same => Ok(VBol(a == b))
    case Differs => Ok(VBol(a != b))
    case _ => Stuck
  }

  function OnFloats(op: Op, a: real, b: real, fl: Floats): Out {
    if op in {Plus, Minus, Times, Over} then Ok(VFlt(fl.apply(op, a, b)))
    else if op in {Less, LessEq, More, MoreEq, Same, Differs} then Ok(VBol(fl.test(op, a, b)))
    else Stuck
  }

  /** Two INTs stay INT; one FLT makes both FLT. */
  function Combine(op: Op, x: Val, y: Val, fl: Floats): Out {
    match (x, y)
    case (VInt(a), VInt(b)) => OnInts(op, a, b)
    case (VFlt(a), VFlt(b)) => OnFloats(op, a, b, fl)
    case (VInt(a), VFlt(b)) => OnFloats(op, a as real, b, fl)
    case (VFlt(a), VInt(b)) => OnFloats(op, a, b as real, fl)
    case (VStr(a), VStr(b)) =>
      if op == Plus then Ok(VStr(a + b)) else if op == Same then Ok(VBol(a == b)) else if op == Differs then Ok(VBol(a != b)) else Stuck
    case (VBol(a), VBol(b)) => if op == Same then Ok(VBol(a <==> b)) else if op == Differs then Ok(VBol(a != b)) else Stuck
    case (VArr(a), VArr(b)) => if op == Plus then Ok(VArr(a + b)) else Stuck
    case _ => Stuck
  }

  function Element(x: Val, i: Val): Out {
    match (x, i)
    case (VArr(items), VInt(k)) => if 0 <= k < |items| then Ok(items[k]) else Undefined
    case (VStr(s), VInt(k)) => if 0 <= k < |s| then Ok(VStr([s[k]])) else Abort
    case _ => Stuck
  }

  /** The value in the field of the name. */
  function FieldNamed(fields: seq<Field>, vals: seq<Val>, name: string): Option<Val> {
    if fields == [] || vals == [] then None
    else if fields[0].name == name then Some(vals[0]) else FieldNamed(fields[1..], vals[1..], name)
  }

  /** Zero, false and the empty text are absent. */
  predicate Absent(v: Val) { v in {VInt(0), VBol(false), VStr("")} || (v.VFlt? && v.x == 0.0) }

  function Negated(a: Out): Out {
    match a case Ok(VInt(n)) => Ok(VInt(-n)) case Ok(VFlt(r)) => Ok(VFlt(-r)) case Ok(_) => Stuck case _ => a
  }

  function Opposite(a: Out): Out { match a case Ok(VBol(b)) => Ok(VBol(!b)) case Ok(_) => Stuck case _ => a }

  /** The left operand first; `&&` and `||` may stop there. */
  function InOrder(op: Op, a: Out, b: Out, fl: Floats): Out {
    if !a.Ok? then a
    else if op == And then (if a.v == VBol(false) then a else b)
    else if op == Or then (if a.v == VBol(true) then a else b)
    else if !b.Ok? then b
    else Combine(op, a.v, b.v, fl)
  }

  /** `l else r`: r is looked at when l is absent, and becomes FLT when l is one. */
  function Fallback(a: Out, b: Out): Out {
    if !a.Ok? || !Absent(a.v) then a else Promoted(b, if a.v.VFlt? then FLT else NUL)
  }

  /** The arm the test picks, and no other, at the arms' joint type. */
  function Choose(c: Out, yes: Out, no: Out, ty: Type): Out {
    match c case Ok(VBol(b)) => Promoted(if b then yes else no, ty) case Ok(_) => Stuck case _ => c
  }

  // ---- expressions ----

  datatype Row = Values(vals: seq<Val>) | Stop(o: Out)

  function After(first: Out, rest: Row): Row {
    if !first.Ok? then Stop(first) else match rest case Values(vs) => Values([first.v] + vs) case Stop(_) => rest
  }

  function EntryNamed(entries: seq<Entry>, name: string): (e: Option<Entry>)
    ensures e.Some? ==> e.value in entries
  {
    if entries == [] then None else if entries[0].name == name then Some(entries[0]) else EntryNamed(entries[1..], name)
  }

  function Means(st: Structs, scope: Scope, e: Expr, asked: Option<Type>, env: map<string, Val>, fl: Floats): Out
    decreases e, 1
  {
    match e
    case Int(n) => Ok(VInt(n))
    case Flt(x) => Ok(VFlt(x))
    case Bol(b) => Ok(VBol(b))
    case Str(s) => Ok(VStr(s))
    case Nil => Ok(VNul)
    case Name(x) => if x in env then Ok(env[x]) else Stuck
    case ArrayOf(items) =>
      if items == [] then Ok(VArr([])) else
      var elem := if asked.Some? && asked.value.Arr? then asked.value.elem else StaticType(st, scope, items[0], None);
      var first := Promoted(Means(st, scope, items[0], if asked.Some? && asked.value.Arr? then Some(elem) else None, env, fl), elem);
      (match After(first, MeansItems(st, scope, items[1..], elem, env, fl)) case Values(vs) => Ok(VArr(vs)) case Stop(o) => o)
    case RecordOf(entries) =>
      if asked.None? || !asked.value.Struct? || asked.value.name !in st then Stuck else
      (match MeansFields(st, scope, entries, st[asked.value.name], env, fl)
       case Values(vs) => Ok(VRec(asked.value.name, vs))
       case Stop(o) => o)
    case Dot(o, name) =>
      var a := Means(st, scope, o, None, env, fl);
      if !a.Ok? then a else
      var field := if a.v.VRec? && a.v.name in st then FieldNamed(st[a.v.name], a.v.fields, name) else None;
      if field.Some? then Ok(field.value) else if name in env then Element(a.v, env[name]) else Stuck
    case At(o, i) =>
      var a := Means(st, scope, o, None, env, fl);
      if !a.Ok? then a else
      var k := Means(st, scope, i, None, env, fl);
      if !k.Ok? then k else Element(a.v, k.v)
    case Negate(x) => Negated(Means(st, scope, x, None, env, fl))
    case Bang(x) => Opposite(Means(st, scope, x, None, env, fl))
    case Bin(op, l, r) =>
      var tl := StaticType(st, scope, l, None);
      var asked := if op == Plus && tl.Arr? && tl.elem != Unknown then Some(tl) else None;
      InOrder(op, Means(st, scope, l, None, env, fl), Means(st, scope, r, asked, env, fl), fl)
    case Else(l, r) =>
      Fallback(Means(st, scope, l, None, env, fl), Means(st, scope, r, Some(StaticType(st, scope, l, None)), env, fl))
    case IfElse(t, y, n) =>
      var ty := if FLT in {StaticType(st, scope, y, None), StaticType(st, scope, n, None)} then FLT else NUL;
      Choose(Means(st, scope, t, None, env, fl), Means(st, scope, y, None, env, fl), Means(st, scope, n, None, env, fl), ty)
  }

  /** Further elements, each a value of the element type. */
  function MeansItems(st: Structs, scope: Scope, items: seq<Expr>, elem: Type, env: map<string, Val>, fl: Floats): Row
    decreases items, 0
  {
    if items == [] then Values([])
    else After(Promoted(Means(st, scope, items[0], Some(elem), env, fl), elem), MeansItems(st, scope, items[1..], elem, env, fl))
  }

  /** Each declared field in turn: its entry, else its default, else an empty array. */
  function MeansFields(st: Structs, scope: Scope, entries: seq<Entry>, fields: seq<Field>, env: map<string, Val>, fl: Floats): Row
    decreases entries, 1, |fields|
  {
    if fields == [] then Values([])
    else After(FieldMeans(st, scope, entries, fields[0], env, fl), MeansFields(st, scope, entries, fields[1..], env, fl))
  }

  function FieldMeans(st: Structs, scope: Scope, entries: seq<Entry>, f: Field, env: map<string, Val>, fl: Floats): Out
    decreases entries, 0, 0
  {
    var entry := EntryNamed(entries, f.name);
    if entry.Some? then Promoted(Means(st, scope, entry.value.value, Some(f.ty), env, fl), f.ty)
    else if f.fallback.Some? then Ok(f.fallback.value)
    else if f.ty.Arr? then Ok(VArr([]))
    else Stuck
  }

  // ---- the checker's output computes it ----

  lemma {:induction false} DividedIsQuotient(a: int, b: int)
    requires b != 0
    ensures Quotient(a, b) == Divided(a, b)
  {
  }

  lemma {:induction false} ConvertIsPromote(o: Out, t: Type)
    ensures ConvertOut(o, t) == Promoted(o, t)
  {
  }

  /** A value that already has its type, or a stop. */
  ghost predicate Exact(st: Structs, c: Checked, env: map<string, Val>, fl: Floats) {
    c.Typed? && !Eval(c.core, env, fl).Stuck? && (Eval(c.core, env, fl).Ok? ==> HasType(st, Eval(c.core, env, fl).v, c.ty))
  }

  lemma {:induction false} UnaryIs(c: Checked, env: map<string, Val>, fl: Floats)
    ensures CheckNegate(c).Typed? ==> Eval(CheckNegate(c).core, env, fl) == Negated(Eval(c.core, env, fl))
    ensures CheckBang(c).Typed? ==> Eval(CheckBang(c).core, env, fl) == Opposite(Eval(c.core, env, fl))
  {
  }

  /** Except for a bare INT literal where a FLT is asked for, an expression's value already has
      its static type. */
  lemma {:induction false} ExactType(st: Structs, scope: Scope, e: Expr, asked: Option<Type>, env: map<string, Val>, fl: Floats)
    requires Declared(st) && Matches(st, scope, env) && Check(st, scope, e, asked).Typed? && (e.Int? ==> asked != Some(FLT))
    ensures Exact(st, Check(st, scope, e, asked), env, fl)
    decreases e
  {
    CheckedIsSound(st, scope, e, asked, env, fl);
    if Check(st, scope, e, asked).ty == FLT { FloatType(st, scope, e, asked, env, fl); }
  }

  lemma {:induction false} FloatType(st: Structs, scope: Scope, e: Expr, asked: Option<Type>, env: map<string, Val>, fl: Floats)
    requires Declared(st) && Matches(st, scope, env) && Check(st, scope, e, asked).Typed? && (e.Int? ==> asked != Some(FLT))
    requires Check(st, scope, e, asked).ty == FLT && Sound(st, Check(st, scope, e, asked), env, fl)
    ensures Eval(Check(st, scope, e, asked).core, env, fl).Ok? ==> Eval(Check(st, scope, e, asked).core, env, fl).v.VFlt?
    decreases e, 0
  {
    if e.Negate? {
      ExactType(st, scope, e.inner, None, env, fl);
      UnaryIs(Check(st, scope, e.inner, None), env, fl);
    } else if e.Dot? {
      FloatDot(st, scope, e.base, e.name, env, fl);
    } else if e.At? {
      CheckedIsSound(st, scope, e.base, None, env, fl);
      FloatElement(st, Check(st, scope, e.base, None), Check(st, scope, e.index, None), env, fl);
    } else if e.Bin? {
      var a := Check(st, scope, e.left, None);
      FloatBin(e.op, a, Check(st, scope, e.right, RightAsked(e.op, a)), env, fl);
    } else {
      FloatRest(st, scope, e, asked, env, fl);
    }
  }

  lemma {:induction false} FloatRest(st: Structs, scope: Scope, e: Expr, asked: Option<Type>, env: map<string, Val>, fl: Floats)
    requires Matches(st, scope, env) && Check(st, scope, e, asked).Typed? && (e.Int? ==> asked != Some(FLT))
    requires !e.Negate? && !e.Dot? && !e.At? && !e.Bin?
    requires Check(st, scope, e, asked).ty == FLT && Sound(st, Check(st, scope, e, asked), env, fl)
    ensures Eval(Check(st, scope, e, asked).core, env, fl).Ok? ==> Eval(Check(st, scope, e, asked).core, env, fl).v.VFlt?
  {
  }

  lemma {:induction false} FloatBin(op: Op, a: Checked, b: Checked, env: map<string, Val>, fl: Floats)
    requires CheckBin(op, a, b).Typed? && CheckBin(op, a, b).ty == FLT
    ensures Eval(CheckBin(op, a, b).core, env, fl).Ok? ==> Eval(CheckBin(op, a, b).core, env, fl).v.VFlt?
  {
  }

  lemma {:induction false} FloatElement(st: Structs, o: Checked, i: Checked, env: map<string, Val>, fl: Floats)
    requires Sound(st, o, env, fl) && Indexed(o, i).Typed? && Indexed(o, i).ty == FLT
    ensures Eval(Indexed(o, i).core, env, fl).Ok? ==> Eval(Indexed(o, i).core, env, fl).v.VFlt?
  {
    var a := Eval(o.core, env, fl);
    if a.Ok? { assert Convert(a.v, o.ty) == a.v && HasType(st, a.v, o.ty); }
  }

  lemma {:induction false} FloatDot(st: Structs, scope: Scope, o: Expr, name: string, env: map<string, Val>, fl: Floats)
    requires Declared(st) && Matches(st, scope, env)
    requires var c := CheckDot(st, scope, Check(st, scope, o, None), name); c.Typed? && c.ty == FLT
    ensures var x := Eval(CheckDot(st, scope, Check(st, scope, o, None), name).core, env, fl); x.Ok? ==> x.v.VFlt?
  {
    var a := Check(st, scope, o, None);
    CheckedIsSound(st, scope, o, None, env, fl);
    if a.ty.Struct? && a.ty.name in st && FieldIndex(st[a.ty.name], name).Some? {
      var x := Eval(a.core, env, fl);
      if x.Ok? { assert Convert(x.v, a.ty) == x.v && HasType(st, x.v, a.ty); }
    } else {
      FloatElement(st, a, Typed(scope[name], CName(name)), env, fl);
    }
  }

  /** Arithmetic at the joint type, comparison, concatenation and joining are the operators on values. */
  lemma {:induction false} CombineIs(st: Structs, op: Op, l: Type, r: Type, a: Core, b: Core, x: Val, y: Val, env: map<string, Val>, fl: Floats)
    requires Eval(a, env, fl) == Ok(x) && Eval(b, env, fl) == Ok(y) && HasType(st, x, l) && HasType(st, y, r)
    requires CheckBin(op, Typed(l, a), Typed(r, b)).Typed? && op !in {And, Or}
    ensures Eval(CheckBin(op, Typed(l, a), Typed(r, b)).core, env, fl) == Combine(op, x, y, fl)
  {
    if op in {Less, LessEq, More, MoreEq, Same, Differs} {
      CombineCompares(st, op, l, r, a, b, x, y, env, fl);
    } else if Numeric(l) {
      CombineNumbers(st, op, l, r, a, b, x, y, env, fl);
    } else {
      PlusIs(st, l, r, a, b, x, y, env, fl);
    }
  }

  lemma {:induction false} CombineCompares(st: Structs, op: Op, l: Type, r: Type, a: Core, b: Core, x: Val, y: Val, env: map<string, Val>, fl: Floats)
    requires Eval(a, env, fl) == Ok(x) && Eval(b, env, fl) == Ok(y) && HasType(st, x, l) && HasType(st, y, r)
    requires CheckBin(op, Typed(l, a), Typed(r, b)).Typed? && op in {Less, LessEq, More, MoreEq, Same, Differs}
    ensures Eval(CheckBin(op, Typed(l, a), Typed(r, b)).core, env, fl) == Combine(op, x, y, fl)
  {
    CompareIs(st, op, l, r, x, y, fl);
    assert CheckBin(op, Typed(l, a), Typed(r, b)).core == CCompare(op, a, b);
  }

  lemma {:induction false} CombineNumbers(st: Structs, op: Op, l: Type, r: Type, a: Core, b: Core, x: Val, y: Val, env: map<string, Val>, fl: Floats)
    requires Eval(a, env, fl) == Ok(x) && Eval(b, env, fl) == Ok(y) && HasType(st, x, l) && HasType(st, y, r)
    requires CheckBin(op, Typed(l, a), Typed(r, b)).Typed? && op in {Plus, Minus, Times, Over, Modulo} && Numeric(l)
    ensures Eval(CheckBin(op, Typed(l, a), Typed(r, b)).core, env, fl) == Combine(op, x, y, fl)
  {
    NumberIs(st, op, l, r, x, y, fl);
    assert CheckBin(op, Typed(l, a), Typed(r, b)).core == CNumber(op, NumericType(l, r).value, a, b);
  }

  lemma {:induction false} PlusIs(st: Structs, l: Type, r: Type, a: Core, b: Core, x: Val, y: Val, env: map<string, Val>, fl: Floats)
    requires Eval(a, env, fl) == Ok(x) && Eval(b, env, fl) == Ok(y) && HasType(st, x, l) && HasType(st, y, r)
    requires CheckBin(Plus, Typed(l, a), Typed(r, b)).Typed? && !Numeric(l)
    ensures Eval(CheckBin(Plus, Typed(l, a), Typed(r, b)).core, env, fl) == Combine(Plus, x, y, fl)
  {
  }

  lemma {:induction false} NumberIs(st: Structs, op: Op, l: Type, r: Type, x: Val, y: Val, fl: Floats)
    requires op in {Plus, Minus, Times, Over, Modulo} && Numeric(l) && Numeric(r) && HasType(st, x, l) && HasType(st, y, r)
    requires op == Modulo ==> l == INT && r == INT
    ensures Number(op, NumericType(l, r).value, x, y, fl) == Combine(op, x, y, fl)
  {
    if x.VInt? && y.VInt? {
      if y.n != 0 { DividedIsQuotient(x.n, y.n); }
    } else {
      assert NumericType(l, r) == Some(FLT);
    }
  }

  lemma {:induction false} CompareIs(st: Structs, op: Op, l: Type, r: Type, x: Val, y: Val, fl: Floats)
    requires op in {Less, LessEq, More, MoreEq, Same, Differs} && HasType(st, x, l) && HasType(st, y, r)
    requires (op in {Same, Differs} && Comparable(l, r)) || (Numeric(l) && Numeric(r))
    ensures Compare(op, x, y, fl) == Combine(op, x, y, fl)
  {
  }

  lemma {:induction false} BinIs(st: Structs, op: Op, a: Checked, b: Checked, env: map<string, Val>, fl: Floats)
    requires Exact(st, a, env, fl) && Exact(st, b, env, fl) && CheckBin(op, a, b).Typed?
    ensures Eval(CheckBin(op, a, b).core, env, fl) == InOrder(op, Eval(a.core, env, fl), Eval(b.core, env, fl), fl)
  {
    var x, y := Eval(a.core, env, fl), Eval(b.core, env, fl);
    if op in {And, Or} {
      LogicIs(st, a, b, env, fl);
    } else if x.Ok? && y.Ok? {
      CombineIs(st, op, a.ty, b.ty, a.core, b.core, x.v, y.v, env, fl);
    } else {
      StopsFirst(op, a, b, env, fl);
    }
  }

  lemma {:induction false} StopsFirst(op: Op, a: Checked, b: Checked, env: map<string, Val>, fl: Floats)
    requires CheckBin(op, a, b).Typed? && op !in {And, Or} && !(Eval(a.core, env, fl).Ok? && Eval(b.core, env, fl).Ok?)
    ensures Eval(CheckBin(op, a, b).core, env, fl) == Both(Eval(a.core, env, fl), Eval(b.core, env, fl))
  {
  }

  lemma {:induction false} LogicIs(st: Structs, a: Checked, b: Checked, env: map<string, Val>, fl: Floats)
    requires Exact(st, a, env, fl) && Exact(st, b, env, fl) && a.ty == b.ty == BOL
    ensures Eval(CIf(BOL, a.core, b.core, CVal(VBol(false))), env, fl) == InOrder(And, Eval(a.core, env, fl), Eval(b.core, env, fl), fl)
    ensures Eval(CIf(BOL, a.core, CVal(VBol(true)), b.core), env, fl) == InOrder(Or, Eval(a.core, env, fl), Eval(b.core, env, fl), fl)
  {
    assert Eval(CVal(VBol(false)), env, fl) == Ok(VBol(false)) && Eval(CVal(VBol(true)), env, fl) == Ok(VBol(true));
  }

  lemma {:induction false} ElseIs(st: Structs, a: Checked, b: Checked, env: map<string, Val>, fl: Floats)
    requires Exact(st, a, env, fl) && Sound(st, b, env, fl) && CheckElse(a, b).Typed?
    ensures Eval(CheckElse(a, b).core, env, fl) == Fallback(Eval(a.core, env, fl), Eval(b.core, env, fl))
  {
    var x := Eval(a.core, env, fl);
    if x.Ok? { assert Convert(x.v, a.ty) == x.v && (Truthy(x.v) <==> !Absent(x.v)); }
  }

  lemma {:induction false} IfIs(c: Checked, a: Checked, b: Checked, env: map<string, Val>, fl: Floats)
    requires CheckIf(c, a, b).Typed?
    ensures Eval(CheckIf(c, a, b).core, env, fl)
            == Choose(Eval(c.core, env, fl), Eval(a.core, env, fl), Eval(b.core, env, fl), if FLT in {a.ty, b.ty} then FLT else NUL)
  {
  }

  lemma {:induction false} ElementIs(o: Checked, i: Checked, env: map<string, Val>, fl: Floats, st: Structs)
    requires Indexed(o, i).Typed? && Exact(st, o, env, fl) && Exact(st, i, env, fl)
    ensures var a, k := Eval(o.core, env, fl), Eval(i.core, env, fl);
      Eval(Indexed(o, i).core, env, fl) == if !a.Ok? then a else if !k.Ok? then k else Element(a.v, k.v)
  {
  }

  lemma {:induction false} FieldNamedIs(fields: seq<Field>, vals: seq<Val>, name: string)
    requires |fields| == |vals|
    ensures var i := FieldIndex(fields, name); FieldNamed(fields, vals, name) == if i.Some? then Some(vals[i.value]) else None
  {
    if fields != [] && fields[0].name != name { FieldNamedIs(fields[1..], vals[1..], name); }
  }

  lemma {:induction false} FieldRead(st: Structs, a: Checked, i: nat, env: map<string, Val>, fl: Floats)
    requires Exact(st, a, env, fl) && a.ty.Struct? && a.ty.name in st && i < |st[a.ty.name]|
    ensures var x := Eval(a.core, env, fl);
      if x.Ok? then x.v.VRec? && x.v.name == a.ty.name && |x.v.fields| == |st[a.ty.name]| && Eval(CField(a.core, i), env, fl) == Ok(x.v.fields[i])
      else Eval(CField(a.core, i), env, fl) == x
  {
  }

  lemma {:induction false} DotMeans(st: Structs, scope: Scope, o: Expr, name: string, asked: Option<Type>, env: map<string, Val>, fl: Floats)
    requires Declared(st) && Matches(st, scope, env) && Check(st, scope, Dot(o, name), asked).Typed?
    requires var a := Check(st, scope, o, None); a.Typed? ==> Eval(a.core, env, fl) == Means(st, scope, o, None, env, fl)
    ensures Eval(Check(st, scope, Dot(o, name), asked).core, env, fl) == Means(st, scope, Dot(o, name), asked, env, fl)
  {
    var a := Check(st, scope, o, None);
    var x := Eval(a.core, env, fl);
    ExactType(st, scope, o, None, env, fl);
    if x.Ok? && x.v.VRec? { FieldNamedIs(st[x.v.name], x.v.fields, name); }
    if a.ty.Struct? && a.ty.name in st && FieldIndex(st[a.ty.name], name).Some? {
      FieldRead(st, a, FieldIndex(st[a.ty.name], name).value, env, fl);
    } else {
      ElementIs(a, Typed(scope[name], CName(name)), env, fl, st);
    }
  }

  /** The checker's output computes the meaning of the source, for every accepted expression. */
  lemma {:induction false} CheckedMeans(st: Structs, scope: Scope, e: Expr, asked: Option<Type>, env: map<string, Val>, fl: Floats)
    requires Declared(st) && Matches(st, scope, env) && Check(st, scope, e, asked).Typed?
    ensures Eval(Check(st, scope, e, asked).core, env, fl) == Means(st, scope, e, asked, env, fl)
    decreases e, 1
  {
    match e
    case ArrayOf(items) => ArrayMeans(st, scope, items, asked, env, fl);
    case RecordOf(entries) => RecordMeans(st, scope, entries, asked, env, fl);
    case Dot(o, name) =>
      CheckedMeans(st, scope, o, None, env, fl);
      DotMeans(st, scope, o, name, asked, env, fl);
    case At(o, i) => AtMeans(st, scope, o, i, asked, env, fl);
    case Negate(x) => CheckedMeans(st, scope, x, None, env, fl); UnaryIs(Check(st, scope, x, None), env, fl);
    case Bang(x) => CheckedMeans(st, scope, x, None, env, fl); UnaryIs(Check(st, scope, x, None), env, fl);
    case Bin(op, l, r) => BinMeans(st, scope, op, l, r, asked, env, fl);
    case Else(l, r) => ElseMeans(st, scope, l, r, asked, env, fl);
    case IfElse(t, y, n) => IfMeans(st, scope, t, y, n, asked, env, fl);
    case _ =>
  }

  lemma {:induction false} AtMeans(st: Structs, scope: Scope, o: Expr, i: Expr, asked: Option<Type>, env: map<string, Val>, fl: Floats)
    requires Declared(st) && Matches(st, scope, env) && Check(st, scope, At(o, i), asked).Typed?
    ensures Eval(Check(st, scope, At(o, i), asked).core, env, fl) == Means(st, scope, At(o, i), asked, env, fl)
    decreases At(o, i), 0
  {
    CheckedMeans(st, scope, o, None, env, fl);
    CheckedMeans(st, scope, i, None, env, fl);
    ExactType(st, scope, o, None, env, fl);
    ExactType(st, scope, i, None, env, fl);
    ElementIs(Check(st, scope, o, None), Check(st, scope, i, None), env, fl, st);
  }

  lemma {:induction false} BinMeans(st: Structs, scope: Scope, op: Op, l: Expr, r: Expr, asked: Option<Type>, env: map<string, Val>, fl: Floats)
    requires Declared(st) && Matches(st, scope, env) && Check(st, scope, Bin(op, l, r), asked).Typed?
    ensures Eval(Check(st, scope, Bin(op, l, r), asked).core, env, fl) == Means(st, scope, Bin(op, l, r), asked, env, fl)
    decreases Bin(op, l, r), 0
  {
    var a := Check(st, scope, l, None);
    var right := RightAsked(op, a);
    CheckedMeans(st, scope, l, None, env, fl);
    CheckedMeans(st, scope, r, right, env, fl);
    ExactType(st, scope, l, None, env, fl);
    ExactType(st, scope, r, right, env, fl);
    BinIs(st, op, a, Check(st, scope, r, right), env, fl);
  }

  lemma {:induction false} ElseMeans(st: Structs, scope: Scope, l: Expr, r: Expr, asked: Option<Type>, env: map<string, Val>, fl: Floats)
    requires Declared(st) && Matches(st, scope, env) && Check(st, scope, Else(l, r), asked).Typed?
    ensures Eval(Check(st, scope, Else(l, r), asked).core, env, fl) == Means(st, scope, Else(l, r), asked, env, fl)
    decreases Else(l, r), 0
  {
    var a := Check(st, scope, l, None);
    CheckedMeans(st, scope, l, None, env, fl);
    CheckedMeans(st, scope, r, Some(a.ty), env, fl);
    ExactType(st, scope, l, None, env, fl);
    CheckedIsSound(st, scope, r, Some(a.ty), env, fl);
    ElseIs(st, a, Check(st, scope, r, Some(a.ty)), env, fl);
  }

  lemma {:induction false} IfReads(st: Structs, scope: Scope, t: Expr, y: Expr, n: Expr, asked: Option<Type>, l: Type, r: Type,
                                   env: map<string, Val>, fl: Floats)
    requires StaticType(st, scope, y, None) == l && StaticType(st, scope, n, None) == r
    ensures Means(st, scope, IfElse(t, y, n), asked, env, fl)
            == Choose(Means(st, scope, t, None, env, fl), Means(st, scope, y, None, env, fl), Means(st, scope, n, None, env, fl),
                      if FLT in {l, r} then FLT else NUL)
  {
  }

  lemma {:induction false} IfMeans(st: Structs, scope: Scope, t: Expr, y: Expr, n: Expr, asked: Option<Type>, env: map<string, Val>, fl: Floats)
    requires Declared(st) && Matches(st, scope, env) && Check(st, scope, IfElse(t, y, n), asked).Typed?
    ensures Eval(Check(st, scope, IfElse(t, y, n), asked).core, env, fl) == Means(st, scope, IfElse(t, y, n), asked, env, fl)
    decreases IfElse(t, y, n), 0
  {
    var c, a, b := Check(st, scope, t, None), Check(st, scope, y, None), Check(st, scope, n, None);
    CheckedMeans(st, scope, t, None, env, fl);
    CheckedMeans(st, scope, y, None, env, fl);
    CheckedMeans(st, scope, n, None, env, fl);
    IfIs(c, a, b, env, fl);
    IfReads(st, scope, t, y, n, asked, a.ty, b.ty, env, fl);
  }

  // ---- arrays and records ----

  ghost predicate SameRow(o: Out, vals: seq<Val>, row: Row) { if o.Ok? then row == Values(vals) else row == Stop(o) }

  lemma {:induction false} ArrayStep(first: Core, rest: seq<Core>, elem: Type, env: map<string, Val>, fl: Floats)
    ensures EvalAll([first] + rest, elem, env, fl) ==
      var x, r := ConvertOut(Eval(first, env, fl), elem), EvalAll(rest, elem, env, fl);
      if !x.Ok? then (x, []) else if !r.0.Ok? then r else (r.0, [x.v] + r.1)
  {
    assert ([first] + rest)[1..] == rest;
  }

  lemma {:induction false} ArrayMeans(st: Structs, scope: Scope, items: seq<Expr>, asked: Option<Type>, env: map<string, Val>, fl: Floats)
    requires Declared(st) && Matches(st, scope, env) && CheckArray(st, scope, items, asked).Typed?
    ensures Eval(CheckArray(st, scope, items, asked).core, env, fl) == Means(st, scope, ArrayOf(items), asked, env, fl)
    decreases items, 1
  {
    if items == [] {
      assert EvalAll([], CheckArray(st, scope, items, asked).core.elem, env, fl) == (Ok(VNul), []);
    } else {
      var want := if asked.Some? && asked.value.Arr? then Some(asked.value.elem) else None;
      var first := Check(st, scope, items[0], want);
      assert items[0] in items;
      CheckedMeans(st, scope, items[0], want, env, fl);
      ItemsMean(st, scope, items[1..], first.ty, env, fl);
      ArrayStep(first.core, CheckItems(st, scope, items[1..], first.ty, first.ty).value, first.ty, env, fl);
    }
  }

  lemma {:induction false} ItemsMean(st: Structs, scope: Scope, items: seq<Expr>, elem: Type, env: map<string, Val>, fl: Floats)
    requires Declared(st) && Matches(st, scope, env) && CheckItems(st, scope, items, elem, elem).Some?
    ensures var r := EvalAll(CheckItems(st, scope, items, elem, elem).value, elem, env, fl);
      SameRow(r.0, r.1, MeansItems(st, scope, items, elem, env, fl))
    decreases items, 0
  {
    if items != [] {
      var parts := CheckItems(st, scope, items, elem, elem).value;
      assert parts[1..] == CheckItems(st, scope, items[1..], elem, elem).value;
      CheckedMeans(st, scope, items[0], Some(elem), env, fl);
      ItemsMean(st, scope, items[1..], elem, env, fl);
    }
  }

  lemma {:induction false} RecordMeans(st: Structs, scope: Scope, entries: seq<Entry>, asked: Option<Type>, env: map<string, Val>, fl: Floats)
    requires Declared(st) && Matches(st, scope, env) && CheckRecord(st, scope, entries, asked).Typed?
    ensures Eval(CheckRecord(st, scope, entries, asked).core, env, fl) == Means(st, scope, RecordOf(entries), asked, env, fl)
    decreases entries, 1
  {
    var fields := st[asked.value.name];
    var cores := CheckEntries(st, scope, entries, fields).value;
    EntriesMean(st, scope, entries, fields, env, fl);
    FieldsMean(st, scope, entries, cores, fields, 0, env, fl);
    assert fields[0..] == fields;
  }

  /** Every entry's checked value is what it means as the field it names. */
  ghost predicate EntriesDone(st: Structs, scope: Scope, entries: seq<Entry>, cores: seq<Core>, fields: seq<Field>, env: map<string, Val>, fl: Floats) {
    |cores| == |entries| && forall i :: 0 <= i < |entries| ==>
      var f := FieldIndex(fields, entries[i].name);
      f.Some? && Eval(cores[i], env, fl) == Means(st, scope, entries[i].value, Some(fields[f.value].ty), env, fl)
  }

  lemma {:induction false} EntriesMean(st: Structs, scope: Scope, entries: seq<Entry>, fields: seq<Field>, env: map<string, Val>, fl: Floats)
    requires Declared(st) && Matches(st, scope, env) && CheckEntries(st, scope, entries, fields).Some?
    ensures EntriesDone(st, scope, entries, CheckEntries(st, scope, entries, fields).value, fields, env, fl)
    decreases entries, 0
  {
    if entries != [] {
      var cores := CheckEntries(st, scope, entries, fields).value;
      var f := FieldIndex(fields, entries[0].name).value;
      assert entries[0] in entries;
      CheckedMeans(st, scope, entries[0].value, Some(fields[f].ty), env, fl);
      EntriesMean(st, scope, entries[1..], fields, env, fl);
      assert cores[1..] == CheckEntries(st, scope, entries[1..], fields).value;
      forall i | 0 < i < |entries|
        ensures var f := FieldIndex(fields, entries[i].name);
          f.Some? && Eval(cores[i], env, fl) == Means(st, scope, entries[i].value, Some(fields[f.value].ty), env, fl)
      {
        assert entries[i] == entries[1..][i - 1] && cores[i] == cores[1..][i - 1];
      }
    }
  }

  lemma {:induction false} EntryNamedIs(entries: seq<Entry>, name: string)
    ensures var i := EntryIndex(entries, name); EntryNamed(entries, name) == if i.Some? then Some(entries[i.value]) else None
  {
    if entries != [] && entries[0].name != name { EntryNamedIs(entries[1..], name); }
  }

  /** What fills the first field. */
  function SlotOf(entries: seq<Entry>, cores: seq<Core>, f: Field): Option<Core>
    requires |cores| == |entries|
  {
    var e := EntryIndex(entries, f.name); if e.Some? then Some(cores[e.value]) else DefaultOf(f)
  }

  lemma {:induction false} SlotStep(entries: seq<Entry>, cores: seq<Core>, fields: seq<Field>, env: map<string, Val>, fl: Floats)
    requires |cores| == |entries| && fields != [] && Slots(entries, cores, fields).Some?
    ensures SlotOf(entries, cores, fields[0]).Some? && Slots(entries, cores, fields[1..]).Some?
    ensures EvalSlots(Slots(entries, cores, fields).value, Types(fields), env, fl) ==
      var first := ConvertOut(Eval(SlotOf(entries, cores, fields[0]).value, env, fl), fields[0].ty);
      var rest := EvalSlots(Slots(entries, cores, fields[1..]).value, Types(fields[1..]), env, fl);
      if !first.Ok? then (first, []) else if !rest.0.Ok? then rest else (rest.0, [first.v] + rest.1)
  {
    var slots := Slots(entries, cores, fields).value;
    assert slots[1..] == Slots(entries, cores, fields[1..]).value && Types(fields)[1..] == Types(fields[1..]);
  }

  lemma {:induction false} SlotMeans(st: Structs, scope: Scope, entries: seq<Entry>, cores: seq<Core>, fields: seq<Field>, f: Field,
                                     env: map<string, Val>, fl: Floats)
    requires EntriesDone(st, scope, entries, cores, fields, env, fl) && SlotOf(entries, cores, f).Some?
    requires FieldIndex(fields, f.name).Some? && fields[FieldIndex(fields, f.name).value] == f
    requires f.fallback.Some? ==> HasType(st, f.fallback.value, f.ty)
    ensures ConvertOut(Eval(SlotOf(entries, cores, f).value, env, fl), f.ty) == FieldMeans(st, scope, entries, f, env, fl)
  {
    EntryNamedIs(entries, f.name);
    if EntryIndex(entries, f.name).None? && f.fallback.None? { assert EvalAll([], f.ty.elem, env, fl) == (Ok(VNul), []); }
  }

  lemma {:induction false} FieldsMean(st: Structs, scope: Scope, entries: seq<Entry>, cores: seq<Core>, fields: seq<Field>, k: nat,
                                      env: map<string, Val>, fl: Floats)
    requires k <= |fields| && DistinctFields(fields) && EntriesDone(st, scope, entries, cores, fields, env, fl)
    requires forall i :: 0 <= i < |fields| && fields[i].fallback.Some? ==> HasType(st, fields[i].fallback.value, fields[i].ty)
    requires Slots(entries, cores, fields[k..]).Some?
    ensures var r := EvalSlots(Slots(entries, cores, fields[k..]).value, Types(fields[k..]), env, fl);
      SameRow(r.0, r.1, MeansFields(st, scope, entries, fields[k..], env, fl))
    decreases |fields| - k
  {
    if k < |fields| {
      var f := fields[k];
      assert fields[k..][0] == f && fields[k..][1..] == fields[k + 1..];
      FieldsMean(st, scope, entries, cores, fields, k + 1, env, fl);
      EntryNamedIs(entries, f.name);
      FieldFound(fields, k);
      SlotStep(entries, cores, fields[k..], env, fl);
      SlotMeans(st, scope, entries, cores, fields, f, env, fl);
    }
  }
}
