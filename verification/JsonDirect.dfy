/** Record literals whose JSON text is put together at compile time. */
module JsonDirect {
  import opened TextOrder
  import opened Lexing
  import opened Json
  import JsonProof

  /** A literal of scalars, nested records and arrays; a scalar is known when it is printed. */
  datatype Literal = Scalar(v: Value) | Record(fields: seq<Field>) | Array(items: seq<Literal>)

  datatype Field = Field(name: string, value: Literal)

  /** One emitted append: fixed text, or a scalar printed at run time. */
  datatype Op = Text(s: string) | Put(v: Value)

  datatype Emitted = Emitted(name: string, ops: seq<Op>)

  function Run(ops: seq<Op>): string {
    if ops == [] then "" else (if ops[0].Text? then ops[0].s else Print(ops[0].v)) + Run(ops[1..])
  }

  function InsertField(f: Emitted, fs: seq<Emitted>): seq<Emitted> {
    if fs == [] then [f]
    else if Compare(f.name, fs[0].name) <= 0 then [f] + fs
    else [fs[0]] + InsertField(f, fs[1..])
  }

  function SortFields(fs: seq<Emitted>): seq<Emitted> { if fs == [] then [] else InsertField(fs[0], SortFields(fs[1..])) }

  /** The name is quoted as it stands. */
  function FieldOps(f: Emitted): seq<Op> { [Text("\"" + f.name + "\":")] + f.ops }

  function JoinFields(fs: seq<Emitted>): seq<Op> {
    if fs == [] then [] else FieldOps(fs[0]) + (if |fs| == 1 then [] else [Text(",")] + JoinFields(fs[1..]))
  }

  function Emit(l: Literal): seq<Op>
    decreases l
  {
    match l
    case Scalar(v) => [Put(v)]
    case Record(fields) => [Text("{")] + (JoinFields(SortFields(EmitFields(fields))) + [Text("}")])
    case Array(items) => [Text("[")] + (EmitItems(items) + [Text("]")])
  }

  function EmitFields(fields: seq<Field>): seq<Emitted>
    decreases fields
  {
    if fields == [] then []
    else
      assert fields[0] in fields;
      [Emitted(fields[0].name, Emit(fields[0].value))] + EmitFields(fields[1..])
  }

  function EmitItems(items: seq<Literal>): seq<Op>
    decreases items
  {
    if items == [] then [] else Emit(items[0]) + (if |items| == 1 then [] else [Text(",")] + EmitItems(items[1..]))
  }

  // ---- the value the general printer would get ----

  function ValueOf(l: Literal): Value
    decreases l
  {
    match l
    case Scalar(v) => v
    case Record(fields) => Obj(EntriesOf(fields))
    case Array(items) => Arr(ValuesOf(items))
  }

  function EntriesOf(fields: seq<Field>): seq<Entry>
    decreases fields
  {
    if fields == [] then []
    else
      assert fields[0] in fields;
      [Entry(fields[0].name, ValueOf(fields[0].value))] + EntriesOf(fields[1..])
  }

  function ValuesOf(items: seq<Literal>): seq<Value>
    decreases items
  {
    if items == [] then [] else [ValueOf(items[0])] + ValuesOf(items[1..])
  }

  /** Field names are identifiers. */
  predicate Named(l: Literal)
    decreases l
  {
    match l
    case Scalar(_) => true
    case Record(fields) => forall i :: 0 <= i < |fields| ==> (forall k :: 0 <= k < |fields[i].name| ==> IsWordChar(fields[i].name[k])) && Named(fields[i].value)
    case Array(items) => forall i :: 0 <= i < |items| ==> Named(items[i])
  }

  // ---- the two agree ----

  lemma {:induction false} RunBoth(a: seq<Op>, b: seq<Op>)
    ensures Run(a + b) == Run(a) + Run(b)
  {
    if a == [] {
      assert a + b == b && "" + Run(b) == Run(b);
    } else {
      assert (a + b)[1..] == a[1..] + b;
      RunBoth(a[1..], b);
    }
  }

  lemma {:induction false} RunText(s: string)
    ensures Run([Text(s)]) == s
  {
    assert [Text(s)][1..] == [] && s + "" == s;
  }

  lemma {:induction false} NamesNeedNoEscape(name: string)
    requires forall k :: 0 <= k < |name| ==> IsWordChar(name[k])
    ensures CEscape(name) == "\"" + name + "\"" && EscapeAll(name) == name
  {
    if name != "" {
      NamesNeedNoEscape(name[1..]);
      assert Escape(name[0]) + name[1..] == name;
    }
  }

  /** The emitted fields print what the entries print. */
  ghost predicate Parallel(fs: seq<Emitted>, ms: seq<Member>) {
    |fs| == |ms| && forall i :: 0 <= i < |fs| ==>
      fs[i].name == ms[i].key && Run(fs[i].ops) == ms[i].text && CEscape(ms[i].key) == "\"" + ms[i].key + "\""
  }

  lemma {:induction false} InsertParallel(f: Emitted, m: Member, fs: seq<Emitted>, ms: seq<Member>)
    requires Parallel([f], [m]) && Parallel(fs, ms)
    ensures Parallel(InsertField(f, fs), Insert(m, ms))
  {
    assert [f][0].name == [m][0].key;
    if fs != [] && Compare(f.name, fs[0].name) > 0 {
      assert Parallel(fs[1..], ms[1..]);
      InsertParallel(f, m, fs[1..], ms[1..]);
    }
  }

  lemma {:induction false} SortParallel(fs: seq<Emitted>, ms: seq<Member>)
    requires Parallel(fs, ms)
    ensures Parallel(SortFields(fs), SortMembers(ms))
  {
    if fs != [] {
      assert Parallel(fs[1..], ms[1..]) && Parallel([fs[0]], [ms[0]]);
      SortParallel(fs[1..], ms[1..]);
      InsertParallel(fs[0], ms[0], SortFields(fs[1..]), SortMembers(ms[1..]));
    }
  }

  lemma {:induction false} Regroup(a: string, b: string, c: string, d: string)
    ensures a + (b + c) + d == (a + b) + (c + d)
  {
  }

  lemma {:induction false} FieldText(f: Emitted, m: Member)
    requires f.name == m.key && Run(f.ops) == m.text && CEscape(m.key) == "\"" + m.key + "\""
    ensures Run(FieldOps(f)) == MemberText(m)
  {
    RunBoth([Text("\"" + f.name + "\":")], f.ops);
    RunText("\"" + f.name + "\":");
    Regroup("\"" + f.name, "\"", ":", m.text);
    assert "\":" == "\"" + ":";
  }

  lemma {:induction false} JoinText(fs: seq<Emitted>, ms: seq<Member>)
    requires Parallel(fs, ms)
    ensures Run(JoinFields(fs)) == Commas(MemberTexts(ms))
  {
    if fs != [] {
      FieldText(fs[0], ms[0]);
      if |fs| == 1 {
        assert MemberTexts(ms) == [MemberText(ms[0])];
        assert FieldOps(fs[0]) + [] == FieldOps(fs[0]) && MemberText(ms[0]) + "" == MemberText(ms[0]);
      } else {
        assert Parallel(fs[1..], ms[1..]);
        JoinText(fs[1..], ms[1..]);
        RunBoth([Text(",")], JoinFields(fs[1..]));
        RunText(",");
        RunBoth(FieldOps(fs[0]), [Text(",")] + JoinFields(fs[1..]));
        assert MemberTexts(ms)[1..] == MemberTexts(ms[1..]);
      }
    }
  }

  lemma {:induction false} Enclosed(open: string, inside: seq<Op>, close: string)
    ensures Run([Text(open)] + (inside + [Text(close)])) == open + (Run(inside) + close)
  {
    RunBoth([Text(open)], inside + [Text(close)]);
    RunBoth(inside, [Text(close)]);
    RunText(open);
    RunText(close);
  }

  /** The text put together at compile time is the text the general printer would give for the
      entries in the order written, repeated names included. */
  lemma {:induction false} DirectIsGeneral(l: Literal)
    requires Named(l)
    ensures Run(Emit(l)) == Print(ValueOf(l))
    decreases l, 2
  {
    match l
    case Scalar(v) => assert [Put(v)][1..] == [] && Print(v) + "" == Print(v);
    case Record(fields) =>
      FieldsParallel(fields);
      SortParallel(EmitFields(fields), Members(EntriesOf(fields)));
      JoinText(SortFields(EmitFields(fields)), SortMembers(Members(EntriesOf(fields))));
      Enclosed("{", JoinFields(SortFields(EmitFields(fields))), "}");
    case Array(items) =>
      ItemsText(items);
      Enclosed("[", EmitItems(items), "]");
  }

  lemma {:induction false} FieldsParallel(fields: seq<Field>)
    requires Named(Record(fields))
    ensures Parallel(EmitFields(fields), Members(EntriesOf(fields)))
    decreases fields, 1
  {
    if fields != [] {
      assert fields[0] in fields;
      assert Named(Record(fields[1..])) by { assert forall i :: 0 <= i < |fields[1..]| ==> fields[1..][i] == fields[i + 1]; }
      FieldsParallel(fields[1..]);
      DirectIsGeneral(fields[0].value);
      NamesNeedNoEscape(fields[0].name);
      assert EntriesOf(fields)[1..] == EntriesOf(fields[1..]);
    }
  }

  lemma {:induction false} ItemsText(items: seq<Literal>)
    requires Named(Array(items))
    ensures Run(EmitItems(items)) == Commas(Prints(ValuesOf(items))) && |ValuesOf(items)| == |items| == |Prints(ValuesOf(items))|
    decreases items, 1
  {
    if items != [] {
      assert Named(Array(items[1..])) by { assert forall i :: 0 <= i < |items[1..]| ==> items[1..][i] == items[i + 1]; }
      DirectIsGeneral(items[0]);
      ItemsText(items[1..]);
      assert ValuesOf(items)[1..] == ValuesOf(items[1..]);
      assert Prints(ValuesOf(items))[1..] == Prints(ValuesOf(items[1..]));
      if |items| == 1 {
        assert Emit(items[0]) + [] == Emit(items[0]) && Print(ValueOf(items[0])) + "" == Print(ValueOf(items[0]));
      } else {
        RunBoth([Text(",")], EmitItems(items[1..]));
        RunText(",");
        RunBoth(Emit(items[0]), [Text(",")] + EmitItems(items[1..]));
      }
    }
  }

  /** With distinct names, it is the text of the value itself, in whatever order a hash map
      holds the entries. */
  lemma {:induction false} DirectIsAnyOrder(l: Literal, v: Value)
    requires Named(l) && DistinctKeys(ValueOf(l)) && DistinctKeys(v) && Means(v) == Means(ValueOf(l))
    ensures Run(Emit(l)) == Print(v)
  {
    DirectIsGeneral(l);
    JsonProof.PrintIsCanonical(v, ValueOf(l));
  }
}
