/** The printer as the runtime runs it: appends to one growing text. */
module JsonMachine {
  import opened TextOrder
  import opened Lexing
  import opened Json

  function InsertEntry(e: Entry, es: seq<Entry>): seq<Entry> {
    if es == [] then [e]
    else if Compare(e.key, es[0].key) <= 0 then [e] + es
    else [es[0]] + InsertEntry(e, es[1..])
  }

  /** What sorting the entries by key gives; keys are distinct, so any sort gives it. */
  function SortEntries(es: seq<Entry>): seq<Entry> { if es == [] then [] else InsertEntry(es[0], SortEntries(es[1..])) }

  lemma {:induction false} InsertMembers(e: Entry, es: seq<Entry>)
    ensures Members(InsertEntry(e, es)) == Insert(Members([e])[0], Members(es))
  {
    var all := InsertEntry(e, es);
    assert all[1..] == if es == [] then [] else if Compare(e.key, es[0].key) <= 0 then es else InsertEntry(e, es[1..]);
    if es != [] && Compare(e.key, es[0].key) > 0 { InsertMembers(e, es[1..]); }
  }

  /** Sorting before printing is sorting what is printed. */
  lemma {:induction false} SortedMembers(es: seq<Entry>)
    ensures Members(SortEntries(es)) == SortMembers(Members(es))
  {
    if es != [] {
      SortedMembers(es[1..]);
      InsertMembers(es[0], SortEntries(es[1..]));
    }
  }

  lemma {:induction false} SortKeepsEntries(es: seq<Entry>)
    ensures forall e :: e in SortEntries(es) ==> e in es
  {
    if es != [] {
      SortKeepsEntries(es[1..]);
      InsertKeepsEntries(es[0], SortEntries(es[1..]));
    }
  }

  lemma {:induction false} InsertKeepsEntries(x: Entry, es: seq<Entry>)
    ensures forall e :: e in InsertEntry(x, es) ==> e == x || e in es
  {
    if es != [] && Compare(x.key, es[0].key) > 0 { InsertKeepsEntries(x, es[1..]); }
  }

  /** The texts from the i-th on, each after a comma unless it is the first. */
  function Rest(texts: seq<string>, i: nat): string
    requires i <= |texts|
  {
    (if 0 < i < |texts| then "," else "") + Commas(texts[i..])
  }

  lemma {:induction false} RestStep(texts: seq<string>, i: nat)
    requires i < |texts|
    ensures Rest(texts, i) == (if i > 0 then "," else "") + texts[i] + Rest(texts, i + 1)
  {
    var tail := texts[i..];
    assert tail[1..] == texts[i + 1..];
    assert Commas(tail) == texts[i] + Rest(texts, i + 1) by {
      if |tail| == 1 { assert Rest(texts, i + 1) == "" + Commas([]) && texts[i] + "" == texts[i]; }
    }
  }

  lemma {:induction false} RestEnds(texts: seq<string>)
    ensures Rest(texts, 0) == Commas(texts) && Rest(texts, |texts|) == ""
  {
    assert texts[0..] == texts && texts[|texts|..] == [];
  }

  lemma {:induction false} EntryTexts(es: seq<Entry>, i: nat)
    requires i < |es|
    ensures |MemberTexts(Members(es))| == |es|
    ensures MemberTexts(Members(es))[i] == CEscape(es[i].key) + (":" + Print(es[i].value))
  {
    assert Members(es)[1..] == Members(es[1..]);
    assert MemberTexts(Members(es))[1..] == MemberTexts(Members(es[1..]));
    if i > 0 { EntryTexts(es[1..], i - 1); } else if |es| > 1 { EntryTexts(es[1..], 0); }
  }

  lemma {:induction false} ItemTexts(items: seq<Value>, i: nat)
    requires i < |items|
    ensures |Prints(items)| == |items| && Prints(items)[i] == Print(items[i])
  {
    assert Prints(items)[1..] == Prints(items[1..]);
    if i > 0 { ItemTexts(items[1..], i - 1); } else if |items| > 1 { ItemTexts(items[1..], 0); }
  }

  class Printer {
    var out: string

    constructor ()
      ensures out == ""
    {
      out := "";
    }

    method Append(text: string)
      modifies this
      ensures out == old(out) + text
    {
      out := out + text;
    }

    method PrintString(text: string)
      modifies this
      ensures out == old(out) + CEscape(text)
    {
      ghost var was := out;
      Append("\"");
      EscapesLeft(was, text);
      for i := 0 to |text|
        invariant Escaping(out, was, text, i)
      {
        EscapesStep(out, was, text, i);
        Append(Escape(text[i]));
      }
      EscapesDone(out, was, text);
      Append("\"");
    }

    method PrintArray(items: seq<Value>)
      modifies this
      ensures out == old(out) + Print(Arr(items))
      decreases items, 1
    {
      ghost var texts, was := Prints(items), out;
      if items != [] { ItemTexts(items, 0); }
      Append("[");
      ListStarts(out, texts);
      ghost var open := out;
      for i := 0 to |items|
        invariant |texts| == |items| && Listing(out, open, texts, i)
      {
        ItemTexts(items, i);
        ListStep(out, open, texts, i);
        if i > 0 { Append(","); }
        PrintValue(items[i]);
      }
      ListEnds(out, open, texts);
      Append("]");
      Close(was, "[", Commas(texts), "]");
    }

    method PrintMap(entries: seq<Entry>)
      modifies this
      ensures out == old(out) + Print(Obj(entries))
      decreases entries, 2
    {
      ghost var was := out;
      var sorted := SortEntries(entries);
      SortedMembers(entries);
      Append("{");
      PrintEntries(entries, sorted);
      Append("}");
      Close(was, "{", Commas(MemberTexts(Members(sorted))), "}");
    }

    method PrintEntries(ghost entries: seq<Entry>, sorted: seq<Entry>)
      requires sorted == SortEntries(entries)
      modifies this
      ensures out == old(out) + Commas(MemberTexts(Members(sorted)))
      decreases entries, 1
    {
      ghost var texts, open := MemberTexts(Members(sorted)), out;
      SortKeepsEntries(entries);
      if sorted != [] { EntryTexts(sorted, 0); }
      ListStarts(out, texts);
      for i := 0 to |sorted|
        invariant |texts| == |sorted| && Listing(out, open, texts, i)
      {
        EntryTexts(sorted, i);
        ListStep(out, open, texts, i);
        if i > 0 { Append(","); }
        assert sorted[i] in entries;
        PrintEntry(entries, sorted[i]);
      }
      ListEnds(out, open, texts);
    }

    method PrintEntry(ghost entries: seq<Entry>, e: Entry)
      requires e in entries
      modifies this
      ensures out == old(out) + (CEscape(e.key) + (":" + Print(e.value)))
      decreases entries, 0
    {
      PrintString(e.key);
      Append(":");
      PrintValue(e.value);
      assert old(out) + CEscape(e.key) + ":" + Print(e.value) == old(out) + (CEscape(e.key) + (":" + Print(e.value)));
    }

    method PrintValue(v: Value)
      modifies this
      ensures out == old(out) + Print(v)
      decreases v, 3
    {
      match v
      case Null => Append("null");
      case Bool(b) => Append(if b then "true" else "false");
      case Int(n) => Append(PrintInt(n));
      case Str(s) => PrintString(s);
      case Arr(items) => PrintArray(items);
      case Obj(entries) => PrintMap(entries);
    }
  }

  // ---- what the loops have written ----

  ghost predicate Escaping(out: string, was: string, text: string, i: nat)
    requires i <= |text|
  {
    out + EscapeAll(text[i..]) == was + "\"" + EscapeAll(text)
  }

  lemma {:induction false} EscapesLeft(was: string, text: string)
    ensures Escaping(was + "\"", was, text, 0)
  {
    assert text[0..] == text;
  }

  lemma {:induction false} EscapesStep(out: string, was: string, text: string, i: nat)
    requires i < |text| && Escaping(out, was, text, i)
    ensures Escaping(out + Escape(text[i]), was, text, i + 1)
  {
    assert text[i..][1..] == text[i + 1..];
    assert out + (Escape(text[i]) + EscapeAll(text[i + 1..])) == (out + Escape(text[i])) + EscapeAll(text[i + 1..]);
  }

  lemma {:induction false} EscapesDone(out: string, was: string, text: string)
    requires Escaping(out, was, text, |text|)
    ensures out + "\"" == was + CEscape(text)
  {
    assert text[|text|..] == "" && out + "" == out;
    assert was + "\"" + EscapeAll(text) + "\"" == was + ("\"" + EscapeAll(text) + "\"");
  }

  ghost predicate Listing(out: string, open: string, texts: seq<string>, i: nat)
    requires i <= |texts|
  {
    out + Rest(texts, i) == open + Commas(texts)
  }

  lemma {:induction false} ListStarts(open: string, texts: seq<string>)
    ensures Listing(open, open, texts, 0)
  {
    RestEnds(texts);
  }

  lemma {:induction false} ListStep(out: string, open: string, texts: seq<string>, i: nat)
    requires i < |texts| && Listing(out, open, texts, i)
    ensures Listing((if i > 0 then out + "," else out) + texts[i], open, texts, i + 1)
  {
    RestStep(texts, i);
    assert out + ((if i > 0 then "," else "") + texts[i] + Rest(texts, i + 1))
        == ((if i > 0 then out + "," else out) + texts[i]) + Rest(texts, i + 1);
  }

  lemma {:induction false} ListEnds(out: string, open: string, texts: seq<string>)
    requires Listing(out, open, texts, |texts|)
    ensures out == open + Commas(texts)
  {
    RestEnds(texts);
    assert out + "" == out;
  }

  lemma {:induction false} Close(a: string, b: string, c: string, d: string)
    ensures a + b + c + d == a + (b + (c + d))
  {
  }
}
