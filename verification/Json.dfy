/** Printing of dynamic values as JSON, and a reader of the grammar it is meant for. */
module Json {
  import opened Wrappers
  import opened TextOrder
  import opened Lexing

  /** A value as the runtime holds it; an object lists its entries in the order its hash map
      happens to give them. */
  datatype Value = Null | Bool(b: bool) | Int(n: int) | Str(s: string) | Arr(items: seq<Value>) | Obj(entries: seq<Entry>)

  datatype Entry = Entry(key: string, value: Value)

  /** What a value is: objects are maps. */
  datatype Meaning = MNull | MBool(b: bool) | MInt(n: int) | MStr(s: string) | MArr(items: seq<Meaning>) | MObj(fields: map<string, Meaning>)

  /** A printed entry, with what its value is and whether a reader can take it back. */
  datatype Member = Member(key: string, text: string, means: Meaning, clean: bool)

  // ---- printing ----

  function Digit(n: nat): char
    requires n < 10
  {
    '0' + n as char
  }

  function Decimal(n: nat): string { if n < 10 then [Digit(n)] else Decimal(n / 10) + [Digit(n % 10)] }

  function PrintInt(n: int): string { if n < 0 then "-" + Decimal(-n) else Decimal(n) }

  function Insert(m: Member, ms: seq<Member>): seq<Member> {
    if ms == [] then [m]
    else if Compare(m.key, ms[0].key) <= 0 then [m] + ms
    else [ms[0]] + Insert(m, ms[1..])
  }

  function SortMembers(ms: seq<Member>): seq<Member> { if ms == [] then [] else Insert(ms[0], SortMembers(ms[1..])) }

  function Commas(texts: seq<string>): string {
    if texts == [] then "" else texts[0] + (if |texts| == 1 then "" else "," + Commas(texts[1..]))
  }

  function MemberText(m: Member): string { CEscape(m.key) + (":" + m.text) }

  function MemberTexts(ms: seq<Member>): seq<string> { if ms == [] then [] else [MemberText(ms[0])] + MemberTexts(ms[1..]) }

  function PrintMembers(ms: seq<Member>): string { "{" + (Commas(MemberTexts(SortMembers(ms))) + "}") }

  function Print(v: Value): string
    decreases v
  {
    match v
    case Null => "null"
    case Bool(b) => if b then "true" else "false"
    case Int(n) => PrintInt(n)
    case Str(s) => CEscape(s)
    case Arr(items) => "[" + (Commas(Prints(items)) + "]")
    case Obj(entries) => PrintMembers(Members(entries))
  }

  function Prints(items: seq<Value>): seq<string>
    decreases items
  {
    if items == [] then [] else [Print(items[0])] + Prints(items[1..])
  }

  function Members(entries: seq<Entry>): seq<Member>
    decreases entries
  {
    if entries == [] then []
    else
      assert entries[0] in entries;
      [Member(entries[0].key, Print(entries[0].value), Means(entries[0].value), CleanAll(entries[0].value))] + Members(entries[1..])
  }

  // ---- meaning ----

  /** Text a reader accepts once it is printed: no control characters but those escaped. */
  predicate Clean(s: string) { forall i :: 0 <= i < |s| ==> s[i] >= ' ' || s[i] == '\n' || s[i] == '\t' }

  predicate CleanAll(v: Value)
    decreases v
  {
    match v
    case Str(s) => Clean(s)
    case Arr(items) => forall i :: 0 <= i < |items| ==> CleanAll(items[i])
    case Obj(entries) => forall i :: 0 <= i < |entries| ==> Clean(entries[i].key) && CleanAll(entries[i].value)
    case _ => true
  }

  predicate Readable(ms: seq<Member>) { forall m :: m in ms ==> Clean(m.key) && m.clean }

  function Fields(ms: seq<Member>): map<string, Meaning> {
    if ms == [] then map[] else map[ms[0].key := ms[0].means] + Fields(ms[1..])
  }

  function Means(v: Value): Meaning
    decreases v
  {
    match v
    case Null => MNull
    case Bool(b) => MBool(b)
    case Int(n) => MInt(n)
    case Str(s) => MStr(s)
    case Arr(items) => MArr(MeansAll(items))
    case Obj(entries) => MObj(Fields(Members(entries)))
  }

  function MeansAll(items: seq<Value>): seq<Meaning>
    decreases items
  {
    if items == [] then [] else [Means(items[0])] + MeansAll(items[1..])
  }

  /** Keys are distinct in every object. */
  predicate DistinctKeys(v: Value)
    decreases v
  {
    match v
    case Arr(items) => forall i :: 0 <= i < |items| ==> DistinctKeys(items[i])
    case Obj(entries) =>
      && (forall i, j :: 0 <= i < j < |entries| ==> entries[i].key != entries[j].key)
      && forall i :: 0 <= i < |entries| ==> DistinctKeys(entries[i].value)
    case _ => true
  }

  // ---- reading (RFC 8259) ----

  /** Insignificant whitespace, section 2. */
  function SkipWs(t: string): (r: string)
    ensures |r| <= |t|
  {
    if t != "" && t[0] in {' ', '\t', '\n', '\r'} then SkipWs(t[1..]) else t
  }

  function Simple(e: char): Option<char> {
    if e == '"' || e == '\\' || e == '/' then Some(e)
    else if e == 'b' then Some(8 as char) else if e == 'f' then Some(12 as char)
    else if e == 'n' then Some('\n') else if e == 'r' then Some('\r') else if e == 't' then Some('\t')
    else None
  }

  function Hex(c: char): Option<nat> {
    if '0' <= c <= '9' then Some((c - '0') as nat)
    else if 'a' <= c <= 'f' then Some((c - 'a') as nat + 10)
    else if 'A' <= c <= 'F' then Some((c - 'A') as nat + 10)
    else None
  }

  function HexChar(t: string): Option<char> {
    if |t| < 4 || Hex(t[0]).None? || Hex(t[1]).None? || Hex(t[2]).None? || Hex(t[3]).None? then None
    else
      var code := 4096 * Hex(t[0]).value + 256 * Hex(t[1]).value + 16 * Hex(t[2]).value + Hex(t[3]).value;
      if 0xD800 <= code < 0xE000 then None else Some(code as char)
  }

  /** The characters of a string after its opening quote, section 7. */
  function ReadChars(t: string, sofar: string): (r: Option<(string, string)>)
    ensures r.Some? ==> |r.value.1| < |t|
    decreases |t|
  {
    if t == "" || t[0] < ' ' then None
    else if t[0] == '"' then Some((sofar, t[1..]))
    else if t[0] != '\\' then ReadChars(t[1..], sofar + [t[0]])
    else if |t| < 2 then None
    else if t[1] == 'u' then (if HexChar(t[2..]).None? then None else ReadChars(t[6..], sofar + [HexChar(t[2..]).value]))
    else if Simple(t[1]).None? then None
    else ReadChars(t[2..], sofar + [Simple(t[1]).value])
  }

  function DigitRun(t: string): (n: nat)
    ensures n <= |t|
  {
    if t != "" && IsDigit(t[0]) then 1 + DigitRun(t[1..]) else 0
  }

  function DigitsValue(t: string): nat
    requires forall i :: 0 <= i < |t| ==> IsDigit(t[i])
  {
    if t == "" then 0 else
    assert IsDigit(t[|t| - 1]);
    10 * DigitsValue(t[..|t| - 1]) + (t[|t| - 1] as int - '0' as int)
  }

  lemma {:induction false} RunIsDigits(t: string)
    ensures forall i :: 0 <= i < DigitRun(t) ==> IsDigit(t[i])
    ensures DigitRun(t) < |t| ==> !IsDigit(t[DigitRun(t)])
  {
    if t != "" && IsDigit(t[0]) { RunIsDigits(t[1..]); }
  }

  /** A number without fraction or exponent, section 6. */
  function ReadInt(t: string): (r: Option<(Meaning, string)>)
    ensures r.Some? ==> |r.value.1| < |t|
  {
    var minus := t != "" && t[0] == '-';
    var body := if minus then t[1..] else t;
    var n := DigitRun(body);
    if n == 0 || (n > 1 && body[0] == '0') || (n < |body| && body[n] in {'.', 'e', 'E'}) then None
    else
      RunIsDigits(body);
      var value := DigitsValue(body[..n]);
      Some((MInt(if minus then 0 - value else value), body[n..]))
  }

  function ReadWord(t: string, word: string, m: Meaning): (r: Option<(Meaning, string)>)
    requires word != ""
    ensures r.Some? ==> |r.value.1| < |t|
  {
    if word <= t then Some((m, t[|word|..])) else None
  }

  function ReadValue(t: string): (r: Option<(Meaning, string)>)
    ensures r.Some? ==> |r.value.1| < |t|
    decreases |t|, 1
  {
    var s := SkipWs(t);
    if s == "" then None
    else if s[0] == 'n' then ReadWord(s, "null", MNull)
    else if s[0] == 't' then ReadWord(s, "true", MBool(true))
    else if s[0] == 'f' then ReadWord(s, "false", MBool(false))
    else if s[0] == '"' then
      var r := ReadChars(s[1..], "");
      if r.None? then None else Some((MStr(r.value.0), r.value.1))
    else if s[0] == '[' then ReadArray(s[1..])
    else if s[0] == '{' then ReadObject(s[1..])
    else ReadInt(s)
  }

  /** After the opening bracket. */
  function ReadArray(t: string): (r: Option<(Meaning, string)>)
    ensures r.Some? ==> |r.value.1| < |t|
    decreases |t|, 3
  {
    var after := SkipWs(t);
    if after != "" && after[0] == ']' then Some((MArr([]), after[1..]))
    else
      var r := ReadItems(t);
      if r.None? then None else Some((MArr(r.value.0), r.value.1))
  }

  /** After the opening brace. */
  function ReadObject(t: string): (r: Option<(Meaning, string)>)
    ensures r.Some? ==> |r.value.1| < |t|
    decreases |t|, 4
  {
    var after := SkipWs(t);
    if after != "" && after[0] == '}' then Some((MObj(map[]), after[1..]))
    else
      var r := ReadFields(t);
      if r.None? then None else Some((MObj(r.value.0), r.value.1))
  }

  /** One or more values with commas between them, and the closing bracket. */
  function ReadItems(t: string): (r: Option<(seq<Meaning>, string)>)
    ensures r.Some? ==> |r.value.1| < |t|
    decreases |t|, 2
  {
    var first := ReadValue(t);
    if first.None? then None
    else
      var after := SkipWs(first.value.1);
      if after == "" then None
      else if after[0] == ']' then Some(([first.value.0], after[1..]))
      else if after[0] != ',' then None
      else
        var rest := ReadItems(after[1..]);
        if rest.None? then None else Some(([first.value.0] + rest.value.0, rest.value.1))
  }

  /** One name and value. */
  function ReadField(t: string): (r: Option<((string, Meaning), string)>)
    ensures r.Some? ==> |r.value.1| < |t|
    decreases |t|, 2
  {
    var s := SkipWs(t);
    if s == "" || s[0] != '"' then None
    else
      var name := ReadChars(s[1..], "");
      if name.None? then None
      else
        var colon := SkipWs(name.value.1);
        if colon == "" || colon[0] != ':' then None
        else
          var value := ReadValue(colon[1..]);
          if value.None? then None else Some(((name.value.0, value.value.0), value.value.1))
  }

  function ReadFields(t: string): (r: Option<(map<string, Meaning>, string)>)
    ensures r.Some? ==> |r.value.1| < |t|
    decreases |t|, 3
  {
    var first := ReadField(t);
    if first.None? then None
    else
      var (name, value) := first.value.0;
      var after := SkipWs(first.value.1);
      if after == "" then None
      else if after[0] == '}' then Some((map[name := value], after[1..]))
      else if after[0] != ',' then None
      else
        var rest := ReadFields(after[1..]);
        if rest.None? then None else Some((map[name := value] + rest.value.0, rest.value.1))
  }

  /** A whole text. */
  function Read(t: string): Option<Meaning> {
    var r := ReadValue(t);
    if r.None? || SkipWs(r.value.1) != "" then None else Some(r.value.0)
  }
}
