/** The expression checker over scalars, text, arrays and fixed records, and what the checked
    expressions compute. */
module ValueTyping {
  import opened Wrappers

  /** Unknown is the element of an empty array literal that nothing has typed. */
  datatype Type = INT | FLT | BOL | STR | NUL | Unknown | Arr(elem: Type) | Struct(name: string)

  datatype Val = VInt(n: int) | VFlt(x: real) | VBol(b: bool) | VStr(s: string) | VNul
               | VArr(items: seq<Val>) | VRec(name: string, fields: seq<Val>)

  /** A declared field, with its default value when it has one. */
  datatype Field = Field(name: string, ty: Type, fallback: Option<Val>)

  type Structs = map<string, seq<Field>>

  type Scope = map<string, Type>

  datatype Op = Plus | Minus | Times | Over | Modulo | Less | LessEq | More | MoreEq | Same | Differs | And | Or

  datatype Expr =
    | Int(n: int) | Flt(x: real) | Bol(b: bool) | Str(s: string) | Nil
    | Name(id: string)
    | ArrayOf(items: seq<Expr>)
    | RecordOf(entries: seq<Entry>)
    | Dot(base: Expr, name: string)
    | At(base: Expr, index: Expr)
    | Negate(inner: Expr)
    | Bang(inner: Expr)
    | Bin(op: Op, left: Expr, right: Expr)
    | Else(left: Expr, right: Expr)
    | IfElse(test: Expr, yes: Expr, no: Expr)

  datatype Entry = Entry(name: string, value: Expr)

  /** A checked expression: what is emitted for it, with the types its conversions go to. */
  datatype Core =
    | CVal(v: Val)
    | CName(id: string)
    | CArray(elem: Type, parts: seq<Core>)
    | CRecord(name: string, tys: seq<Type>, parts: seq<Core>)
    | CField(base: Core, index: nat)
    | CAt(base: Core, at: Core)
    | CCharAt(base: Core, at: Core)
    | CNegate(inner: Core)
    | CNot(inner: Core)
    | CNumber(op: Op, ty: Type, left: Core, right: Core)
    | CCompare(op: Op, left: Core, right: Core)
    | CConcat(left: Core, right: Core)
    | CJoin(left: Core, right: Core)
    | CElse(ty: Type, left: Core, right: Core)
    | CIf(ty: Type, test: Core, yes: Core, no: Core)

  datatype Checked = Rejected | Typed(ty: Type, core: Core)

  // ---- the checker ----

  predicate Numeric(t: Type) { t == INT || t == FLT }

  function NumericType(l: Type, r: Type): Option<Type> {
    if !Numeric(l) || !Numeric(r) then None else Some(if l == FLT || r == FLT then FLT else INT)
  }

  function FieldIndex(fields: seq<Field>, name: string): (i: Option<nat>)
    ensures i.Some? ==> i.value < |fields| && fields[i.value].name == name
  {
    if fields == [] then None
    else if fields[0].name == name then Some(0)
    else var rest := FieldIndex(fields[1..], name); if rest.None? then None else Some(rest.value + 1)
  }

  /** The first entry with the name, as emission finds it. */
  function EntryIndex(entries: seq<Entry>, name: string): (i: Option<nat>)
    ensures i.Some? ==> i.value < |entries| && entries[i.value].name == name
  {
    if entries == [] then None
    else if entries[0].name == name then Some(0)
    else var rest := EntryIndex(entries[1..], name); if rest.None? then None else Some(rest.value + 1)
  }

  /** A missing entry is filled from the default, or is an empty array. */
  function DefaultOf(f: Field): Option<Core> {
    if f.fallback.Some? then Some(CVal(f.fallback.value)) else if f.ty.Arr? then Some(CArray(f.ty.elem, [])) else None
  }

  function Operate(op: Op, l: Type, r: Type, a: Core, b: Core): Checked {
    match op
    case And => if l == BOL && r == BOL then Typed(BOL, CIf(BOL, a, b, CVal(VBol(false)))) else Rejected
    case Or => if l == BOL && r == BOL then Typed(BOL, CIf(BOL, a, CVal(VBol(true)), b)) else Rejected
    case Plus =>
      if l == STR && r == STR then Typed(STR, CConcat(a, b))
      else if NumericType(l, r).Some? then Typed(NumericType(l, r).value, CNumber(op, NumericType(l, r).value, a, b))
      else Rejected
    case Modulo => if l == INT && r == INT then Typed(INT, CNumber(op, INT, a, b)) else Rejected
    case Minus => if NumericType(l, r).Some? then Typed(NumericType(l, r).value, CNumber(op, NumericType(l, r).value, a, b)) else Rejected
    case Times => if NumericType(l, r).Some? then Typed(NumericType(l, r).value, CNumber(op, NumericType(l, r).value, a, b)) else Rejected
    case Over => if NumericType(l, r).Some? then Typed(NumericType(l, r).value, CNumber(op, NumericType(l, r).value, a, b)) else Rejected
    case Same => if Comparable(l, r) then Typed(BOL, CCompare(op, a, b)) else Rejected
    case Differs => if Comparable(l, r) then Typed(BOL, CCompare(op, a, b)) else Rejected
    case _ => if Numeric(l) && Numeric(r) then Typed(BOL, CCompare(op, a, b)) else Rejected
  }

  predicate Comparable(l: Type, r: Type) { (l == r && l in {INT, FLT, BOL, STR}) || (Numeric(l) && Numeric(r)) }

  /** `expected` is the type the context asks for; only literals and names look at it. */
  function Check(st: Structs, scope: Scope, e: Expr, expected: Option<Type>): Checked
    decreases e, 1
  {
    match e
    case Int(n) => Typed(if expected == Some(FLT) then FLT else INT, CVal(VInt(n)))
    case Flt(x) => Typed(FLT, CVal(VFlt(x)))
    case Bol(b) => Typed(BOL, CVal(VBol(b)))
    case Str(s) => Typed(STR, CVal(VStr(s)))
    case Nil => Typed(NUL, CVal(VNul))
    case Name(x) =>
      if x !in scope || (expected.Some? && scope[x] != expected.value) then Rejected else Typed(scope[x], CName(x))
    case ArrayOf(items) => CheckArray(st, scope, items, expected)
    case RecordOf(entries) => CheckRecord(st, scope, entries, expected)
    case Dot(o, name) => CheckDot(st, scope, Check(st, scope, o, None), name)
    case At(o, i) => Indexed(Check(st, scope, o, None), Check(st, scope, i, None))
    case Negate(x) => CheckNegate(Check(st, scope, x, None))
    case Bang(x) => CheckBang(Check(st, scope, x, None))
    case Bin(op, l, r) =>
      var a := Check(st, scope, l, None);
      CheckBin(op, a, Check(st, scope, r, RightAsked(op, a)))
    case Else(l, r) =>
      var a := Check(st, scope, l, None);
      CheckElse(a, Check(st, scope, r, if a.Typed? then Some(a.ty) else None))
    case IfElse(t, y, n) => CheckIf(Check(st, scope, t, None), Check(st, scope, y, None), Check(st, scope, n, None))
  }

  function CheckNegate(c: Checked): Checked { if c.Typed? && Numeric(c.ty) then Typed(c.ty, CNegate(c.core)) else Rejected }

  function CheckBang(c: Checked): Checked { if c.Typed? && c.ty == BOL then Typed(BOL, CNot(c.core)) else Rejected }

  /** Only the right side of an array's `+` is asked for a type. */
  function RightAsked(op: Op, a: Checked): Option<Type> {
    if a.Typed? && op == Plus && a.ty.Arr? && a.ty.elem != Unknown then Some(a.ty) else None
  }

  function CheckBin(op: Op, a: Checked, b: Checked): Checked {
    if a.Rejected? || b.Rejected? then Rejected
    else if op == Plus && a.ty.Arr? then
      (if a.ty.elem == Unknown then (if b.ty.Arr? && b.ty.elem != Unknown then Typed(b.ty, CJoin(a.core, b.core)) else Rejected)
       else if b.ty == a.ty then Typed(a.ty, CJoin(a.core, b.core)) else Rejected)
    else Operate(op, a.ty, b.ty, a.core, b.core)
  }

  function CheckElse(a: Checked, b: Checked): Checked {
    if a.Rejected? || b.Rejected? || a.ty == NUL || !(b.ty == a.ty || (b.ty == INT && a.ty == FLT)) then Rejected
    else Typed(a.ty, CElse(a.ty, a.core, b.core))
  }

  function CheckIf(c: Checked, a: Checked, b: Checked): Checked {
    if a.Rejected? || b.Rejected? || c.Rejected? || c.ty != BOL then Rejected
    else if a.ty == b.ty then Typed(a.ty, CIf(a.ty, c.core, a.core, b.core))
    else if NumericType(a.ty, b.ty).Some? then Typed(FLT, CIf(FLT, c.core, a.core, b.core))
    else Rejected
  }

  function CheckArray(st: Structs, scope: Scope, items: seq<Expr>, expected: Option<Type>): Checked
    decreases items, 1
  {
    if items == [] then
      var ty := if expected.Some? && expected.value.Arr? then expected.value else Arr(Unknown);
      Typed(ty, CArray(ty.elem, []))
    else
      var asked := if expected.Some? && expected.value.Arr? then Some(expected.value.elem) else None;
      var first := Check(st, scope, items[0], asked);
      if first.Rejected? then Rejected
      else
        var rest := CheckItems(st, scope, items[1..], if asked.Some? then asked.value else first.ty, first.ty);
        if rest.None? || (expected.Some? && expected.value.Arr? && expected.value != Arr(first.ty)) then Rejected
        else Typed(Arr(first.ty), CArray(first.ty, [first.core] + rest.value))
  }

  /** The items after the first: each must come out as `elem` when `asked` is asked for. */
  function CheckItems(st: Structs, scope: Scope, items: seq<Expr>, asked: Type, elem: Type): Option<seq<Core>>
    decreases items, 0
  {
    if items == [] then Some([])
    else
      var first := Check(st, scope, items[0], Some(asked));
      var rest := CheckItems(st, scope, items[1..], asked, elem);
      if first.Rejected? || first.ty != elem || rest.None? then None else Some([first.core] + rest.value)
  }

  function CheckRecord(st: Structs, scope: Scope, entries: seq<Entry>, expected: Option<Type>): Checked
    decreases entries, 1
  {
    if expected.None? || !expected.value.Struct? || expected.value.name !in st then Rejected
    else
      var fields := st[expected.value.name];
      var cores := CheckEntries(st, scope, entries, fields);
      if cores.None? then Rejected
      else
        var slots := Slots(entries, cores.value, fields);
        if slots.None? then Rejected else Typed(expected.value, CRecord(expected.value.name, Types(fields), slots.value))
  }

  function CheckEntries(st: Structs, scope: Scope, entries: seq<Entry>, fields: seq<Field>): (r: Option<seq<Core>>)
    ensures r.Some? ==> |r.value| == |entries|
    decreases entries, 0
  {
    if entries == [] then Some([])
    else
      assert entries[0] in entries;
      var f := FieldIndex(fields, entries[0].name);
      if f.None? then None
      else
        var first := Check(st, scope, entries[0].value, Some(fields[f.value].ty));
        var rest := CheckEntries(st, scope, entries[1..], fields);
        if first.Rejected? || first.ty != fields[f.value].ty || rest.None? then None else Some([first.core] + rest.value)
  }

  function Types(fields: seq<Field>): (r: seq<Type>)
    ensures |r| == |fields| && forall i :: 0 <= i < |r| ==> r[i] == fields[i].ty
  {
    if fields == [] then [] else [fields[0].ty] + Types(fields[1..])
  }

  /** What fills each declared field, in order; None when a field has neither entry nor default. */
  function Slots(entries: seq<Entry>, cores: seq<Core>, fields: seq<Field>): Option<seq<Core>>
    requires |cores| == |entries|
    decreases |fields|
  {
    if fields == [] then Some([])
    else
      var e, rest := EntryIndex(entries, fields[0].name), Slots(entries, cores, fields[1..]);
      var core := if e.Some? then Some(cores[e.value]) else DefaultOf(fields[0]);
      if core.None? || rest.None? then None else Some([core.value] + rest.value)
  }

  function Indexed(o: Checked, i: Checked): Checked {
    if o.Rejected? || i.Rejected? || i.ty != INT then Rejected
    else if o.ty.Arr? then Typed(o.ty.elem, CAt(o.core, i.core))
    else if o.ty == STR then Typed(STR, CCharAt(o.core, i.core))
    else Rejected
  }

  /** A field, or else an INT local used as an index. */
  function CheckDot(st: Structs, scope: Scope, o: Checked, name: string): Checked {
    if o.Rejected? then Rejected
    else if o.ty.Struct? && o.ty.name in st && FieldIndex(st[o.ty.name], name).Some? then
      var i := FieldIndex(st[o.ty.name], name).value;
      Typed(st[o.ty.name][i].ty, CField(o.core, i))
    else if name in scope then Indexed(o, Typed(scope[name], CName(name)))
    else Rejected
  }

  // ---- what is computed ----

  /** Undefined is an array index out of range or an integer division by zero, which the
      generated C does not check. Stuck is an operation on values it has no meaning for. */
  datatype Out = Ok(v: Val) | Abort | Undefined | Stuck

  /** Floating-point arithmetic and comparison, left open. */
  datatype Floats = Floats(apply: (Op, real, real) -> real, test: (Op, real, real) -> bool)

  /** The conversion C makes when a value goes where `t` is declared. */
  function Convert(v: Val, t: Type): Val { if t == FLT && v.VInt? then VFlt(v.n as real) else v }

  function ConvertOut(o: Out, t: Type): Out { if o.Ok? then Ok(Convert(o.v, t)) else o }

  /** Division truncates toward zero and the remainder takes the dividend's sign. */
  function Quotient(a: int, b: int): int
    requires b != 0
  {
    if (a >= 0) == (b > 0) then Abs(a) / Abs(b) else 0 - Abs(a) / Abs(b)
  }

  function Abs(a: int): nat { if a < 0 then -a else a }

  function Number(op: Op, ty: Type, l: Val, r: Val, fl: Floats): Out {
    if ty == INT then
      if !l.VInt? || !r.VInt? then Stuck
      else match op
        case Plus => Ok(VInt(l.n + r.n))
        case Minus => Ok(VInt(l.n - r.n))
        case Times => Ok(VInt(l.n * r.n))
        case Over => if r.n == 0 then Undefined else Ok(VInt(Quotient(l.n, r.n)))
        case Modulo => if r.n == 0 then Undefined else Ok(VInt(l.n - r.n * Quotient(l.n, r.n)))
        case _ => Stuck
    else
      var a, b := Convert(l, FLT), Convert(r, FLT);
      if !a.VFlt? || !b.VFlt? || op == Modulo then Stuck else Ok(VFlt(fl.apply(op, a.x, b.x)))
  }

  function Compare(op: Op, l: Val, r: Val, fl: Floats): Out {
    match (l, r)
    case (VInt(a), VInt(b)) =>
      Ok(VBol(match op case Less => a < b case LessEq => a <= b case More => a > b case MoreEq => a >= b case Differs => a != b case _ => a == b))
    case (VBol(a), VBol(b)) => if op == Same then Ok(VBol(a == b)) else if op == Differs then Ok(VBol(a != b)) else Stuck
    case (VStr(a), VStr(b)) => if op == Same then Ok(VBol(a == b)) else if op == Differs then Ok(VBol(a != b)) else Stuck
    case _ =>
      var a, b := Convert(l, FLT), Convert(r, FLT);
      if !a.VFlt? || !b.VFlt? then Stuck else Ok(VBol(fl.test(op, a.x, b.x)))
  }

  /** What `else` takes for present: a scalar that is not zero or empty, anything else. */
  function Truthy(v: Val): bool {
    match v
    case VInt(n) => n != 0
    case VFlt(x) => x != 0.0
    case VBol(b) => b
    case VStr(s) => s != ""
    case _ => true
  }

  function Both(l: Out, r: Out): Out { if !l.Ok? then l else r }

  function Eval(c: Core, env: map<string, Val>, fl: Floats): Out
    decreases c
  {
    match c
    case CVal(v) => Ok(v)
    case CName(x) => if x in env then Ok(env[x]) else Stuck
    case CArray(elem, parts) => var r := EvalAll(parts, elem, env, fl); if r.0.Ok? then Ok(VArr(r.1)) else r.0
    case CRecord(name, tys, parts) => var r := EvalSlots(parts, tys, env, fl); if r.0.Ok? then Ok(VRec(name, r.1)) else r.0
    case CField(o, i) =>
      var a := Eval(o, env, fl);
      if !a.Ok? then a else if a.v.VRec? && i < |a.v.fields| then Ok(a.v.fields[i]) else Stuck
    case CAt(o, i) =>
      var a, b := Eval(o, env, fl), Eval(i, env, fl);
      if !Both(a, b).Ok? then Both(a, b)
      else if !a.v.VArr? || !b.v.VInt? then Stuck
      else if 0 <= b.v.n < |a.v.items| then Ok(a.v.items[b.v.n]) else Undefined
    case CCharAt(o, i) =>
      var a, b := Eval(o, env, fl), Eval(i, env, fl);
      if !Both(a, b).Ok? then Both(a, b)
      else if !a.v.VStr? || !b.v.VInt? then Stuck
      else if 0 <= b.v.n < |a.v.s| then Ok(VStr([a.v.s[b.v.n]])) else Abort
    case CNegate(x) =>
      var a := Eval(x, env, fl);
      if !a.Ok? then a else if a.v.VInt? then Ok(VInt(0 - a.v.n)) else if a.v.VFlt? then Ok(VFlt(0.0 - a.v.x)) else Stuck
    case CNot(x) => var a := Eval(x, env, fl); if !a.Ok? then a else if a.v.VBol? then Ok(VBol(!a.v.b)) else Stuck
    case CNumber(op, ty, l, r) =>
      var a, b := Eval(l, env, fl), Eval(r, env, fl);
      if !Both(a, b).Ok? then Both(a, b) else Number(op, ty, a.v, b.v, fl)
    case CCompare(op, l, r) =>
      var a, b := Eval(l, env, fl), Eval(r, env, fl);
      if !Both(a, b).Ok? then Both(a, b) else Compare(op, a.v, b.v, fl)
    case CConcat(l, r) =>
      var a, b := Eval(l, env, fl), Eval(r, env, fl);
      if !Both(a, b).Ok? then Both(a, b) else if a.v.VStr? && b.v.VStr? then Ok(VStr(a.v.s + b.v.s)) else Stuck
    case CJoin(l, r) =>
      var a, b := Eval(l, env, fl), Eval(r, env, fl);
      if !Both(a, b).Ok? then Both(a, b) else if a.v.VArr? && b.v.VArr? then Ok(VArr(a.v.items + b.v.items)) else Stuck
    case CElse(ty, l, r) =>
      var a := ConvertOut(Eval(l, env, fl), ty);
      if !a.Ok? || Truthy(a.v) then a else ConvertOut(Eval(r, env, fl), ty)
    case CIf(ty, t, y, n) =>
      var a := Eval(t, env, fl);
      if !a.Ok? then a
      else if !a.v.VBol? then Stuck
      else ConvertOut(if a.v.b then Eval(y, env, fl) else Eval(n, env, fl), ty)
  }

  /** Elements are converted to the element type; the first failure is the outcome. */
  function EvalAll(parts: seq<Core>, elem: Type, env: map<string, Val>, fl: Floats): (Out, seq<Val>)
    decreases parts
  {
    if parts == [] then (Ok(VNul), [])
    else
      var first := ConvertOut(Eval(parts[0], env, fl), elem);
      if !first.Ok? then (first, []) else
      var rest := EvalAll(parts[1..], elem, env, fl);
      if !rest.0.Ok? then rest else (rest.0, [first.v] + rest.1)
  }

  /** Likewise, each part to its own field's type. */
  function EvalSlots(parts: seq<Core>, tys: seq<Type>, env: map<string, Val>, fl: Floats): (Out, seq<Val>)
    decreases parts
  {
    if parts == [] || tys == [] then (Ok(VNul), [])
    else
      var first := ConvertOut(Eval(parts[0], env, fl), tys[0]);
      if !first.Ok? then (first, []) else
      var rest := EvalSlots(parts[1..], tys[1..], env, fl);
      if !rest.0.Ok? then rest else (rest.0, [first.v] + rest.1)
  }
}
