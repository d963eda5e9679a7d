/** JSON text is canonical, and a reader gives the value back. */
module JsonProof {
  import opened Wrappers
  import opened TextOrder
  import opened Lexing
  import opened Json

  // ---- numbers ----

  ghost predicate Digits(t: string) { forall i :: 0 <= i < |t| ==> IsDigit(t[i]) }

  lemma {:induction false} DecimalReads(n: nat)
    ensures Decimal(n) != "" && Digits(Decimal(n)) && DigitsValue(Decimal(n)) == n
    ensures n >= 10 ==> |Decimal(n)| > 1
    ensures n > 0 ==> Decimal(n)[0] != '0'
  {
    if n < 10 {
      assert Decimal(n)[..0] == "";
    } else {
      DecimalReads(n / 10);
      assert Decimal(n)[..|Decimal(n)| - 1] == Decimal(n / 10);
      assert Decimal(n)[0] == Decimal(n / 10)[0];
    }
  }

  lemma {:induction false} RunOf(t: string, rest: string)
    requires Digits(t) && (rest == "" || !IsDigit(rest[0]))
    ensures DigitRun(t + rest) == |t|
  {
    if t == "" { assert t + rest == rest; }
    else { assert (t + rest)[1..] == t[1..] + rest; RunOf(t[1..], rest); }
  }

  /** What may come after a value inside a larger text. */
  predicate Stops(rest: string) { rest == "" || rest[0] in {',', ']', '}'} }

  lemma {:induction false} Prefix(a: string, b: string)
    ensures (a + b)[..|a|] == a && (a + b)[|a|..] == b
  {
  }

  lemma {:induction false} DigitsRead(n: nat, rest: string)
    requires Stops(rest)
    ensures var t := Decimal(n) + rest;
      DigitRun(t) == |Decimal(n)| && t[..|Decimal(n)|] == Decimal(n) && t[|Decimal(n)|..] == rest && t[0] == Decimal(n)[0]
  {
    DecimalReads(n);
    RunOf(Decimal(n), rest);
    Prefix(Decimal(n), rest);
  }

  lemma {:induction false} NatReads(n: nat, rest: string)
    requires Stops(rest)
    ensures ReadInt(Decimal(n) + rest) == Some((MInt(n), rest))
  {
    DecimalReads(n);
    DigitsRead(n, rest);
    assert IsDigit(Decimal(n)[0]);
  }

  lemma {:induction false} NegativeReads(n: nat, rest: string)
    requires Stops(rest) && n > 0
    ensures ReadInt("-" + Decimal(n) + rest) == Some((MInt(0 - n as int), rest))
  {
    var body := Decimal(n) + rest;
    DecimalReads(n);
    DigitsRead(n, rest);
    assert "-" + Decimal(n) + rest == "-" + body && ("-" + body)[1..] == body;
  }

  lemma {:induction false} IntReads(n: int, rest: string)
    requires Stops(rest)
    ensures ReadInt(PrintInt(n) + rest) == Some((MInt(n), rest))
  {
    if n < 0 { NegativeReads(-n, rest); } else { NatReads(n, rest); }
  }

  // ---- strings ----

  lemma {:induction false} OneEscapeReads(c: char, rest: string, sofar: string)
    ensures ReadChars(Escape(c) + rest, sofar) == if c >= ' ' || c == '\n' || c == '\t' then ReadChars(rest, sofar + [c]) else None
  {
    var t := Escape(c) + rest;
    assert t[|Escape(c)|..] == rest;
  }

  lemma {:induction false} CharsRead(s: string, rest: string, sofar: string)
    ensures ReadChars(EscapeAll(s) + ("\"" + rest), sofar) == if Clean(s) then Some((sofar + s, rest)) else None
    decreases |s|
  {
    var tail := "\"" + rest;
    if s == "" {
      assert EscapeAll(s) + tail == tail && tail[1..] == rest && sofar + s == sofar;
    } else {
      var c, others := s[0], s[1..];
      assert s == [c] + others;
      assert EscapeAll(s) + tail == Escape(c) + (EscapeAll(others) + tail);
      OneEscapeReads(c, EscapeAll(others) + tail, sofar);
      CharsRead(others, rest, sofar + [c]);
      assert (sofar + [c]) + others == sofar + s;
      CleanSplits(c, others);
    }
  }

  lemma {:induction false} CleanSplits(c: char, others: string)
    ensures Clean([c] + others) <==> (c >= ' ' || c == '\n' || c == '\t') && Clean(others)
  {
    var s := [c] + others;
    assert s[0] == c && forall i :: 0 <= i < |others| ==> s[i + 1] == others[i];
    assert forall j :: 0 < j < |s| ==> s[j] == others[j - 1];
  }

  lemma {:induction false} QuotedReads(s: string, rest: string)
    ensures CEscape(s) + rest != "" && (CEscape(s) + rest)[0] == '"'
    ensures ReadChars((CEscape(s) + rest)[1..], "") == if Clean(s) then Some((s, rest)) else None
  {
    assert (CEscape(s) + rest)[1..] == EscapeAll(s) + ("\"" + rest);
    CharsRead(s, rest, "");
    assert "" + s == s;
  }

  // ---- values ----

  /** The text reads as m, in front of anything that may follow a value; or not at all. */
  ghost predicate Reads(text: string, m: Meaning, clean: bool) {
    forall rest :: Stops(rest) ==> ReadValue(text + rest) == if clean then Some((m, rest)) else None
  }

  /** The text starts like a value: no blank, and no closing bracket. */
  predicate Opens(text: string) { text != "" && text[0] !in {' ', '\t', '\n', '\r', ']', '}', ','} }

  lemma {:induction false} OpensRead(text: string, rest: string)
    requires Opens(text)
    ensures SkipWs(text + rest) == text + rest && (text + rest)[0] == text[0]
  {
  }

  lemma {:induction false} StopHead(c: char, rest: string)
    requires c in {',', ']', '}', ':'}
    ensures SkipWs([c] + rest) == [c] + rest && ([c] + rest)[1..] == rest && (c != ':' ==> Stops([c] + rest))
  {
  }

  /** Texts in front of a closing bracket, with what each reads as. */
  ghost predicate AllRead(texts: seq<string>, ms: seq<Meaning>, clean: seq<bool>) {
    && |texts| == |ms| == |clean|
    && forall i :: 0 <= i < |texts| ==> Reads(texts[i], ms[i], clean[i]) && Opens(texts[i])
  }

  lemma {:induction false} CommasSplit(texts: seq<string>, close: string)
    requires texts != []
    ensures Commas(texts) + close == texts[0] + (if |texts| == 1 then close else [','] + (Commas(texts[1..]) + close))
  {
  }

  function AllTrue(bs: seq<bool>): bool { bs == [] || (bs[0] && AllTrue(bs[1..])) }

  lemma {:induction false} ItemsRead(texts: seq<string>, ms: seq<Meaning>, clean: seq<bool>, rest: string)
    requires texts != [] && AllRead(texts, ms, clean)
    ensures ReadItems(Commas(texts) + ("]" + rest)) == if AllTrue(clean) then Some((ms, rest)) else None
    decreases |texts|
  {
    var close := "]" + rest;
    CommasSplit(texts, close);
    if |texts| == 1 {
      assert clean[1..] == [];
      LastItem(texts[0], ms[0], clean[0], rest);
      assert [ms[0]] == ms;
    } else {
      assert AllRead(texts[1..], ms[1..], clean[1..]);
      ItemsRead(texts[1..], ms[1..], clean[1..], rest);
      ItemStep(texts[0], ms[0], clean[0], Commas(texts[1..]) + close);
      assert [ms[0]] + ms[1..] == ms;
    }
  }

  lemma {:induction false} LastItem(text: string, m: Meaning, clean: bool, rest: string)
    requires Reads(text, m, clean)
    ensures ReadItems(text + ("]" + rest)) == if clean then Some(([m], rest)) else None
  {
    StopHead(']', rest);
    assert ReadValue(text + ("]" + rest)) == if clean then Some((m, "]" + rest)) else None;
  }

  lemma {:induction false} ItemStep(text: string, m: Meaning, clean: bool, tail: string)
    requires Reads(text, m, clean)
    ensures var others := ReadItems(tail);
      ReadItems(text + ([','] + tail))
      == if !clean || others.None? then None else Some(([m] + others.value.0, others.value.1))
  {
    StopHead(',', tail);
    assert ReadValue(text + ([','] + tail)) == if clean then Some((m, [','] + tail)) else None;
  }

  // ---- members ----

  ghost predicate MembersRead(ms: seq<Member>) { forall m :: m in ms ==> Reads(m.text, m.means, m.clean) && Opens(m.text) }

  lemma {:induction false} FieldReads(m: Member, rest: string)
    requires Reads(m.text, m.means, m.clean) && Opens(m.text) && Stops(rest)
    ensures ReadField(MemberText(m) + rest) == if Clean(m.key) && m.clean then Some(((m.key, m.means), rest)) else None
  {
    var tail := [':'] + (m.text + rest);
    assert MemberText(m) + rest == CEscape(m.key) + tail;
    QuotedReads(m.key, tail);
    StopHead(':', m.text + rest);
    assert SkipWs(CEscape(m.key) + tail) == CEscape(m.key) + tail;
  }

  lemma {:induction false} FieldsRead(ms: seq<Member>, rest: string)
    requires ms != [] && MembersRead(ms)
    ensures ReadFields(Commas(MemberTexts(ms)) + ("}" + rest)) == if Readable(ms) then Some((Fields(ms), rest)) else None
    decreases |ms|
  {
    var close := "}" + rest;
    var texts := MemberTexts(ms);
    CommasSplit(texts, close);
    StopHead('}', rest);
    assert ms[0] in ms && ms == [ms[0]] + ms[1..];
    assert texts[1..] == MemberTexts(ms[1..]);
    if |ms| == 1 {
      FieldReads(ms[0], close);
      assert ms[1..] == [] && Fields(ms) == map[ms[0].key := ms[0].means];
    } else {
      var tail := Commas(texts[1..]) + close;
      StopHead(',', tail);
      FieldReads(ms[0], [','] + tail);
      FieldsRead(ms[1..], rest);
    }
  }

  // ---- sorting ----

  ghost predicate SameMembers(a: seq<Member>, b: seq<Member>) { forall m :: m in a <==> m in b }

  ghost predicate DistinctNames(ms: seq<Member>) { forall i, j :: 0 <= i < j < |ms| ==> ms[i].key != ms[j].key }

  ghost predicate Ascending(ms: seq<Member>) { forall i, j :: 0 <= i < j < |ms| ==> Compare(ms[i].key, ms[j].key) < 0 }

  /** Everything in ms comes after the key. */
  ghost predicate Before(key: string, ms: seq<Member>) { forall m :: m in ms ==> Compare(key, m.key) < 0 }

  lemma {:induction false} FrontBefore(m: Member, ms: seq<Member>)
    requires Ascending(ms) && ms != [] && Compare(m.key, ms[0].key) < 0
    ensures Before(m.key, ms)
  {
    forall x | x in ms ensures Compare(m.key, x.key) < 0 {
      var j :| 0 <= j < |ms| && ms[j] == x;
      if j > 0 { CompareIsTransitive(m.key, ms[0].key, ms[j].key); }
    }
  }

  lemma {:induction false} PutFirst(m: Member, ms: seq<Member>)
    requires Ascending(ms) && Before(m.key, ms)
    ensures Ascending([m] + ms) && SameMembers([m] + ms, [m] + ms)
  {
    var all := [m] + ms;
    forall i, j | 0 <= i < j < |all| ensures Compare(all[i].key, all[j].key) < 0 {
      if i == 0 { assert all[j] in ms; } else { assert all[i] == ms[i - 1] && all[j] == ms[j - 1]; }
    }
  }

  lemma {:induction false} InsertSorts(m: Member, ms: seq<Member>)
    requires Ascending(ms) && forall x :: x in ms ==> x.key != m.key
    ensures Ascending(Insert(m, ms)) && SameMembers(Insert(m, ms), [m] + ms) && |Insert(m, ms)| == |ms| + 1
  {
    if ms != [] {
      CompareIsAntisymmetric(m.key, ms[0].key);
      assert ms[0] in ms && ms == [ms[0]] + ms[1..];
      if Compare(m.key, ms[0].key) <= 0 {
        FrontBefore(m, ms);
        PutFirst(m, ms);
      } else {
        InsertSorts(m, ms[1..]);
        var rest := Insert(m, ms[1..]);
        forall x | x in rest ensures Compare(ms[0].key, x.key) < 0 {
          assert x in [m] + ms[1..];
          if x != m { var j :| 0 <= j < |ms[1..]| && ms[1..][j] == x; assert ms[j + 1] == x; }
        }
        PutFirst(ms[0], rest);
      }
    }
  }

  lemma {:induction false} SortSorts(ms: seq<Member>)
    requires DistinctNames(ms)
    ensures Ascending(SortMembers(ms)) && SameMembers(SortMembers(ms), ms) && |SortMembers(ms)| == |ms|
  {
    if ms != [] {
      assert ms == [ms[0]] + ms[1..];
      SortSorts(ms[1..]);
      forall x | x in SortMembers(ms[1..]) ensures x.key != ms[0].key {
        assert x in ms[1..];
        var j :| 0 <= j < |ms[1..]| && ms[1..][j] == x;
        assert ms[j + 1] == x;
      }
      InsertSorts(ms[0], SortMembers(ms[1..]));
    }
  }

  lemma {:induction false} FirstIsLeast(a: seq<Member>, b: seq<Member>)
    requires Ascending(a) && Ascending(b) && SameMembers(a, b) && a + b != []
    ensures a != [] && b != [] && a[0] == b[0]
  {
    var any := (a + b)[0];
    assert any in a + b && any in a && any in b;
    assert a[0] in a && a[0] in b && b[0] in b && b[0] in a;
    var i :| 0 <= i < |a| && a[i] == b[0];
    var j :| 0 <= j < |b| && b[j] == a[0];
    CompareIsAntisymmetric(a[0].key, b[0].key);
  }

  /** Whatever sorting algorithm is used, the result is the same. */
  lemma {:induction false} AscendingIsUnique(a: seq<Member>, b: seq<Member>)
    requires Ascending(a) && Ascending(b) && SameMembers(a, b)
    ensures a == b
    decreases |a|
  {
    if a + b != [] {
      FirstIsLeast(a, b);
      assert a == [a[0]] + a[1..] && b == [b[0]] + b[1..];
      TailsSame(a, b);
      AscendingIsUnique(a[1..], b[1..]);
    } else {
      assert |a + b| == |a| + |b|;
    }
  }

  lemma {:induction false} TailsSame(a: seq<Member>, b: seq<Member>)
    requires Ascending(a) && Ascending(b) && SameMembers(a, b) && a != [] && b != [] && a[0] == b[0]
    ensures SameMembers(a[1..], b[1..])
  {
    CompareIsAntisymmetric(a[0].key, a[0].key);
    forall m ensures m in a[1..] <==> m in b[1..] {
      if m in a[1..] { var i :| 0 <= i < |a[1..]| && a[1..][i] == m; assert a[i + 1] == m && m in a && m in b && m != a[0]; }
      if m in b[1..] { var i :| 0 <= i < |b[1..]| && b[1..][i] == m; assert b[i + 1] == m && m in b && m in a && m != b[0]; }
    }
  }

  lemma {:induction false} LaterNames(ms: seq<Member>)
    requires DistinctNames(ms) && ms != []
    ensures DistinctNames(ms[1..]) && forall m :: m in ms[1..] ==> m.key != ms[0].key
  {
    forall m | m in ms[1..] ensures m.key != ms[0].key {
      var j :| 0 <= j < |ms[1..]| && ms[1..][j] == m;
      assert ms[j + 1] == m;
    }
  }

  lemma {:induction false} FieldsFrom(ms: seq<Member>, k: string)
    requires k in Fields(ms)
    ensures exists m :: m in ms && m.key == k
  {
    assert ms == [ms[0]] + ms[1..];
    if k != ms[0].key {
      FieldsFrom(ms[1..], k);
      var m :| m in ms[1..] && m.key == k;
      assert m in ms;
    } else {
      assert ms[0] in ms;
    }
  }

  lemma {:induction false} FieldsOf(ms: seq<Member>, m: Member)
    requires DistinctNames(ms) && m in ms
    ensures m.key in Fields(ms) && Fields(ms)[m.key] == m.means
  {
    assert ms == [ms[0]] + ms[1..];
    LaterNames(ms);
    if m in ms[1..] {
      FieldsOf(ms[1..], m);
    } else {
      assert m == ms[0];
      if m.key in Fields(ms[1..]) { FieldsFrom(ms[1..], m.key); }
    }
  }

  lemma {:induction false} SameFields(a: seq<Member>, b: seq<Member>)
    requires DistinctNames(a) && DistinctNames(b) && SameMembers(a, b)
    ensures Fields(a) == Fields(b)
  {
    forall k ensures (k in Fields(a) <==> k in Fields(b)) && (k in Fields(a) && k in Fields(b) ==> Fields(a)[k] == Fields(b)[k]) {
      if k in Fields(a) {
        FieldsFrom(a, k);
        var m :| m in a && m.key == k;
        FieldsOf(a, m);
        FieldsOf(b, m);
      }
      if k in Fields(b) {
        FieldsFrom(b, k);
        var m :| m in b && m.key == k;
        FieldsOf(a, m);
      }
    }
  }

  // ---- printed values read back ----

  lemma {:induction false} WordReads(word: string, m: Meaning, rest: string)
    requires word != ""
    ensures ReadWord(word + rest, word, m) == Some((m, rest))
  {
    assert (word + rest)[|word|..] == rest;
  }

  lemma {:induction false} IntValueReads(n: int)
    ensures Reads(Print(Int(n)), MInt(n), true) && Opens(Print(Int(n)))
  {
    DecimalReads(if n < 0 then -n else n);
    var text := PrintInt(n);
    assert IsDigit(text[0]) || text[0] == '-';
    forall rest | Stops(rest) ensures ReadValue(text + rest) == Some((MInt(n), rest)) {
      OpensRead(text, rest);
      IntReads(n, rest);
    }
  }

  lemma {:induction false} StrValueReads(s: string)
    ensures Reads(Print(Str(s)), MStr(s), Clean(s)) && Opens(Print(Str(s)))
  {
    forall rest | Stops(rest) ensures ReadValue(CEscape(s) + rest) == if Clean(s) then Some((MStr(s), rest)) else None {
      OpensRead(CEscape(s), rest);
      QuotedReads(s, rest);
    }
  }

  lemma {:induction false} WordValueReads(word: string, m: Meaning)
    requires (word == "null" && m == MNull) || (word == "true" && m == MBool(true)) || (word == "false" && m == MBool(false))
    ensures Reads(word, m, true) && Opens(word)
  {
    forall rest | Stops(rest) ensures ReadValue(word + rest) == Some((m, rest)) {
      OpensRead(word, rest);
      WordReads(word, m, rest);
    }
  }

  lemma {:induction false} ScalarReads(v: Value)
    requires v.Null? || v.Bool? || v.Int? || v.Str?
    ensures Reads(Print(v), Means(v), CleanAll(v)) && Opens(Print(v))
  {
    match v
    case Null => WordValueReads("null", MNull);
    case Bool(b) => WordValueReads(if b then "true" else "false", MBool(b));
    case Int(n) => IntValueReads(n);
    case Str(s) => StrValueReads(s);
  }

  function Cleans(items: seq<Value>): (r: seq<bool>)
    ensures |r| == |items| && forall i :: 0 <= i < |items| ==> r[i] == CleanAll(items[i])
  {
    if items == [] then [] else [CleanAll(items[0])] + Cleans(items[1..])
  }

  lemma {:induction false} PrintsAre(items: seq<Value>)
    ensures |Prints(items)| == |items| == |MeansAll(items)|
    ensures forall i :: 0 <= i < |items| ==> Prints(items)[i] == Print(items[i]) && MeansAll(items)[i] == Means(items[i])
  {
    if items != [] { PrintsAre(items[1..]); }
  }

  lemma {:induction false} MembersAre(entries: seq<Entry>)
    ensures |Members(entries)| == |entries|
    ensures forall i :: 0 <= i < |entries| ==>
      Members(entries)[i] == Member(entries[i].key, Print(entries[i].value), Means(entries[i].value), CleanAll(entries[i].value))
  {
    if entries != [] { MembersAre(entries[1..]); }
  }

  /** Bracketed texts, read as one array. */
  lemma {:induction false} ArrayReads(texts: seq<string>, ms: seq<Meaning>, clean: seq<bool>, rest: string)
    requires AllRead(texts, ms, clean)
    ensures ReadArray(Commas(texts) + ("]" + rest)) == if AllTrue(clean) then Some((MArr(ms), rest)) else None
  {
    StopHead(']', rest);
    if texts == [] {
      assert Commas(texts) + ("]" + rest) == "]" + rest && ms == [];
    } else {
      ItemsRead(texts, ms, clean, rest);
      CommasSplit(texts, "]" + rest);
      OpensRead(texts[0], if |texts| == 1 then "]" + rest else [','] + (Commas(texts[1..]) + ("]" + rest)));
    }
  }

  lemma {:induction false} ObjectReads(ms: seq<Member>, rest: string)
    requires MembersRead(ms)
    ensures ReadObject(Commas(MemberTexts(ms)) + ("}" + rest)) == if Readable(ms) then Some((MObj(Fields(ms)), rest)) else None
  {
    var texts := MemberTexts(ms);
    StopHead('}', rest);
    if ms == [] {
      assert Commas(texts) + ("}" + rest) == "}" + rest;
    } else {
      FieldsRead(ms, rest);
      CommasSplit(texts, "}" + rest);
      assert Opens(texts[0]) by { assert texts[0] == MemberText(ms[0]) && texts[0][0] == CEscape(ms[0].key)[0]; }
      OpensRead(texts[0], if |texts| == 1 then "}" + rest else [','] + (Commas(texts[1..]) + ("}" + rest)));
    }
  }

  lemma {:induction false} BracketReads(open: char, inside: string)
    requires open == '[' || open == '{'
    ensures ReadValue([open] + inside) == if open == '[' then ReadArray(inside) else ReadObject(inside)
  {
    assert ([open] + inside)[1..] == inside && SkipWs([open] + inside) == [open] + inside;
  }

  /** Every value's text reads as the value, wherever it stands, and cannot be read when a
      text inside has a control character that is not escaped. */
  lemma {:induction false} ValueReads(v: Value)
    requires DistinctKeys(v)
    ensures Reads(Print(v), Means(v), CleanAll(v)) && Opens(Print(v))
    decreases v, 1
  {
    match v
    case Arr(items) => ArrayValueReads(items);
    case Obj(entries) => EntriesRead(entries); ObjectValueReads(entries);
    case _ => ScalarReads(v);
  }

  lemma {:induction false} CleansAll(items: seq<Value>)
    ensures AllTrue(Cleans(items)) <==> CleanAll(Arr(items))
  {
    if items != [] {
      CleansAll(items[1..]);
      assert Cleans(items)[1..] == Cleans(items[1..]);
      assert CleanAll(Arr(items)) <==> CleanAll(items[0]) && CleanAll(Arr(items[1..])) by {
        assert forall i :: 0 < i < |items| ==> items[i] == items[1..][i - 1];
      }
    }
  }

  lemma {:induction false} ArrayValueReads(items: seq<Value>)
    requires DistinctKeys(Arr(items))
    ensures Reads(Print(Arr(items)), Means(Arr(items)), CleanAll(Arr(items)))
    decreases Arr(items), 0
  {
    PrintsAre(items);
    forall i | 0 <= i < |items| ensures Reads(Prints(items)[i], MeansAll(items)[i], Cleans(items)[i]) && Opens(Prints(items)[i]) {
      ValueReads(items[i]);
    }
    CleansAll(items);
    TextsRead(Prints(items), MeansAll(items), Cleans(items));
  }

  lemma {:induction false} Regroup(open: char, inside: string, close: string, rest: string)
    ensures ([open] + (inside + close)) + rest == [open] + (inside + (close + rest))
  {
  }

  lemma {:induction false} TextsRead(texts: seq<string>, ms: seq<Meaning>, clean: seq<bool>)
    requires AllRead(texts, ms, clean)
    ensures Reads("[" + (Commas(texts) + "]"), MArr(ms), AllTrue(clean))
  {
    forall rest | Stops(rest)
      ensures ReadValue("[" + (Commas(texts) + "]") + rest) == if AllTrue(clean) then Some((MArr(ms), rest)) else None
    {
      Regroup('[', Commas(texts), "]", rest);
      BracketReads('[', Commas(texts) + ("]" + rest));
      ArrayReads(texts, ms, clean, rest);
    }
  }

  lemma {:induction false} MembersTextReads(ms: seq<Member>)
    requires MembersRead(ms)
    ensures Reads("{" + (Commas(MemberTexts(ms)) + "}"), MObj(Fields(ms)), Readable(ms))
  {
    forall rest | Stops(rest)
      ensures ReadValue("{" + (Commas(MemberTexts(ms)) + "}") + rest) == if Readable(ms) then Some((MObj(Fields(ms)), rest)) else None
    {
      Regroup('{', Commas(MemberTexts(ms)), "}", rest);
      BracketReads('{', Commas(MemberTexts(ms)) + ("}" + rest));
      ObjectReads(ms, rest);
    }
  }

  lemma {:induction false} EntriesRead(entries: seq<Entry>)
    requires DistinctKeys(Obj(entries))
    ensures MembersRead(Members(entries)) && DistinctNames(Members(entries))
    decreases Obj(entries), 0
  {
    var ms := Members(entries);
    MembersAre(entries);
    forall m | m in ms ensures Reads(m.text, m.means, m.clean) && Opens(m.text) {
      var i :| 0 <= i < |ms| && ms[i] == m;
      assert entries[i] in entries;
      ValueReads(entries[i].value);
    }
  }

  lemma {:induction false} ObjectValueReads(entries: seq<Entry>)
    requires DistinctKeys(Obj(entries)) && MembersRead(Members(entries)) && DistinctNames(Members(entries))
    ensures Reads(Print(Obj(entries)), Means(Obj(entries)), CleanAll(Obj(entries)))
  {
    var ms := Members(entries);
    SortSorts(ms);
    AscendingIsDistinct(SortMembers(ms));
    SameFields(SortMembers(ms), ms);
    ReadableIsClean(entries, SortMembers(ms));
    MembersTextReads(SortMembers(ms));
  }

  lemma {:induction false} AscendingIsDistinct(ms: seq<Member>)
    requires Ascending(ms)
    ensures DistinctNames(ms)
  {
    forall i, j | 0 <= i < j < |ms| ensures ms[i].key != ms[j].key { CompareIsAntisymmetric(ms[i].key, ms[j].key); }
  }

  lemma {:induction false} ReadableIsClean(entries: seq<Entry>, sorted: seq<Member>)
    requires SameMembers(sorted, Members(entries))
    ensures Readable(sorted) <==> CleanAll(Obj(entries))
  {
    var ms := Members(entries);
    MembersAre(entries);
    if Readable(sorted) {
      forall i | 0 <= i < |entries| ensures Clean(entries[i].key) && CleanAll(entries[i].value) { assert ms[i] in ms; }
    }
    if CleanAll(Obj(entries)) {
      forall m | m in sorted ensures Clean(m.key) && m.clean { var i :| 0 <= i < |ms| && ms[i] == m; }
    }
  }

  /** Reading a printed value gives what it is, exactly when its texts are clean. */
  lemma {:induction false} ReadInvertsPrint(v: Value)
    requires DistinctKeys(v)
    ensures Read(Print(v)) == if CleanAll(v) then Some(Means(v)) else None
  {
    ValueReads(v);
    assert Stops("") && Print(v) + "" == Print(v);
  }

  // ---- one text for one value ----

  /** Equal values print alike, in whatever order their hash maps give the entries. */
  lemma {:induction false} PrintIsCanonical(v: Value, w: Value)
    requires DistinctKeys(v) && DistinctKeys(w) && Means(v) == Means(w)
    ensures Print(v) == Print(w) && CleanAll(v) == CleanAll(w)
    decreases v, 2
  {
    match v
    case Arr(items) =>
      PrintsAre(items);
      PrintsAre(w.items);
      forall i | 0 <= i < |items| ensures Print(items[i]) == Print(w.items[i]) && CleanAll(items[i]) == CleanAll(w.items[i]) {
        assert MeansAll(items)[i] == MeansAll(w.items)[i];
        PrintIsCanonical(items[i], w.items[i]);
      }
      assert Prints(items) == Prints(w.items);
    case Obj(entries) => ObjectIsCanonical(entries, w.entries);
    case _ =>
  }

  lemma {:induction false} ObjectIsCanonical(v: seq<Entry>, w: seq<Entry>)
    requires DistinctKeys(Obj(v)) && DistinctKeys(Obj(w)) && Fields(Members(v)) == Fields(Members(w))
    ensures Print(Obj(v)) == Print(Obj(w)) && CleanAll(Obj(v)) == CleanAll(Obj(w))
    decreases Obj(v), 1
  {
    SameEntries(v, w);
    var a, b := Members(v), Members(w);
    SortSorts(a);
    SortSorts(b);
    AscendingIsUnique(SortMembers(a), SortMembers(b));
    ReadableIsClean(v, a);
    ReadableIsClean(w, b);
  }

  lemma {:induction false} SameEntries(v: seq<Entry>, w: seq<Entry>)
    requires DistinctKeys(Obj(v)) && DistinctKeys(Obj(w)) && Fields(Members(v)) == Fields(Members(w))
    ensures DistinctNames(Members(v)) && DistinctNames(Members(w)) && SameMembers(Members(v), Members(w))
    decreases Obj(v), 0
  {
    var a, b := Members(v), Members(w);
    MembersAre(v);
    MembersAre(w);
    forall i, j | 0 <= i < |v| && 0 <= j < |w| && v[i].key == w[j].key ensures a[i] == b[j] {
      FieldsOf(a, a[i]);
      FieldsOf(b, b[j]);
      assert v[i] in v;
      PrintIsCanonical(v[i].value, w[j].value);
    }
    MatchingMembers(a, b);
  }

  lemma {:induction false} MatchingMembers(a: seq<Member>, b: seq<Member>)
    requires DistinctNames(a) && DistinctNames(b) && Fields(a) == Fields(b)
    requires forall i, j :: 0 <= i < |a| && 0 <= j < |b| && a[i].key == b[j].key ==> a[i] == b[j]
    ensures SameMembers(a, b)
  {
    forall m ensures m in a <==> m in b {
      if m in a { FieldsOf(a, m); FieldsFrom(b, m.key); }
      if m in b { FieldsOf(b, m); FieldsFrom(a, m.key); }
    }
  }

  /** Among values whose texts are clean, equal text and equal value are the same thing. */
  lemma {:induction false} TextIsIdentity(v: Value, w: Value)
    requires DistinctKeys(v) && DistinctKeys(w) && CleanAll(v) && CleanAll(w)
    ensures Print(v) == Print(w) <==> Means(v) == Means(w)
  {
    ReadInvertsPrint(v);
    ReadInvertsPrint(w);
    if Means(v) == Means(w) { PrintIsCanonical(v, w); }
  }

  // ---- the order of keys ----

  /** Each key stands before the next in the dictionary. */
  ghost predicate KeysAscend(ms: seq<Member>) { forall i, j :: 0 <= i < j < |ms| ==> Earlier(ms[i].key, ms[j].key) }

  /** An object prints its own entries, each once, with their keys in dictionary order. */
  lemma {:induction false} PrintedKeysAscend(entries: seq<Entry>)
    requires DistinctKeys(Obj(entries))
    ensures exists ms :: KeysAscend(ms) && multiset(ms) == multiset(Members(entries))
                         && Print(Obj(entries)) == "{" + (Commas(MemberTexts(ms)) + "}")
  {
    var ms := Members(entries);
    var out := SortMembers(ms);
    MembersAre(entries);
    SortSorts(ms);
    forall i, j | 0 <= i < j < |out| ensures Earlier(out[i].key, out[j].key) { CompareIsEarlier(out[i].key, out[j].key); }
    SortKeepsAll(ms);
    assert KeysAscend(out);
  }

  lemma {:induction false} SortKeepsAll(ms: seq<Member>)
    ensures multiset(SortMembers(ms)) == multiset(ms)
  {
    if ms != [] {
      assert ms == [ms[0]] + ms[1..];
      SortKeepsAll(ms[1..]);
      InsertKeepsAll(ms[0], SortMembers(ms[1..]));
    }
  }

  lemma {:induction false} InsertKeepsAll(m: Member, ms: seq<Member>)
    ensures multiset(Insert(m, ms)) == multiset([m] + ms)
  {
    if ms != [] && Compare(m.key, ms[0].key) > 0 {
      assert ms == [ms[0]] + ms[1..];
      InsertKeepsAll(m, ms[1..]);
    }
  }
}
