/** The string runtime's loops: counting and filling passes over exactly sized buffers. */
module StringMachine {
  import opened Strings
  import opened Buffers

  method MatchAt(text: string, i: nat, what: string) returns (ok: bool)
    requires i <= |text|
    ensures ok <==> what <= text[i..]
  {
    if |what| > |text| - i { return false; }
    for j := 0 to |what|
      invariant forall m :: 0 <= m < j ==> text[i + m] == what[m]
    {
      if text[i + j] != what[j] {
        assert text[i..][j] != what[j];
        return false;
      }
    }
    assert text[i..][..|what|] == what;
    ok := true;
  }

  method CountPass(text: string, what: string) returns (count: nat)
    requires what != ""
    ensures count == Count(text, what)
  {
    count := 0;
    var i := 0;
    while i + |what| <= |text|
      invariant i <= |text| && count + Count(text[i..], what) == Count(text, what)
      decreases |text| - i
    {
      var ok := MatchAt(text, i, what);
      assert text[i..][1..] == text[i + 1..];
      if ok {
        assert text[i..][|what|..] == text[i + |what|..];
        count, i := count + 1, i + |what|;
      } else {
        i := i + 1;
      }
    }
    NoneInShort(text[i..], what);
  }

  lemma {:induction false} NoneInShort(t: string, what: string)
    requires |t| < |what|
    ensures Count(t, what) == 0
    decreases |t|
  {
    if t != "" { NoneInShort(t[1..], what); }
  }

  /** What has been written, and what the rest of the text becomes, is the result. */
  ghost predicate OnTrack(done: string, text: string, i: nat, what: string, next: string)
    requires i <= |text|
  {
    done + Replace(text[i..], what, next) == Replace(text, what, next)
  }

  lemma {:induction false} StartsOnTrack(text: string, what: string, next: string)
    ensures OnTrack("", text, 0, what, next)
  {
    assert text[0..] == text && "" + Replace(text, what, next) == Replace(text, what, next);
  }

  lemma {:induction false} EndsOnTrack(done: string, text: string, what: string, next: string)
    requires OnTrack(done, text, |text|, what, next)
    ensures done == Replace(text, what, next)
  {
    assert text[|text|..] == "" && done + "" == done;
  }

  lemma {:induction false} StaysOnTrack(done: string, text: string, i: nat, what: string, next: string)
    requires i < |text| && what != "" && OnTrack(done, text, i, what, next)
    ensures var step := if what <= text[i..] then |what| else 1;
      var piece := if what <= text[i..] then next else [text[i]];
      OnTrack(done + piece, text, i + step, what, next) && |done + piece| <= |Replace(text, what, next)|
  {
    var step := if what <= text[i..] then |what| else 1;
    var piece := if what <= text[i..] then next else [text[i]];
    assert text[i..][step..] == text[i + step..];
    Regroup(done, piece, Replace(text[i + step..], what, next));
  }

  lemma {:induction false} Regroup(a: string, b: string, c: string)
    ensures a + (b + c) == (a + b) + c
  {
  }

  /** The writing pass fills the counted buffer to its last place. */
  method WritingPass(text: string, what: string, next: string, out: array<char>)
    requires what != "" && out.Length == |Replace(text, what, next)|
    modifies out
    ensures out[..] == Replace(text, what, next)
  {
    var i, pos: nat := 0, 0;
    ghost var done := "";
    StartsOnTrack(text, what, next);
    while i < |text|
      invariant i <= |text| && pos == |done| <= out.Length && out[..pos] == done
      invariant OnTrack(done, text, i, what, next)
      decreases |text| - i
    {
      StaysOnTrack(done, text, i, what, next);
      var ok := MatchAt(text, i, what);
      var piece := if ok then next else [text[i]];
      done := done + piece;
      Put(out, pos, piece);
      i, pos := i + if ok then |what| else 1, pos + |piece|;
    }
    EndsOnTrack(done, text, what, next);
    assert out[..pos] == out[..];
  }

  method ReplaceAll(text: string, what: string, next: string) returns (out: array<char>)
    ensures fresh(out) && out[..] == Replace(text, what, next)
  {
    if what == "" {
      ReplaceNothing(text, next);
      out := new char[|text|](i requires 0 <= i < |text| => text[i]);
      return;
    }
    var count := CountPass(text, what);
    ReplaceLength(text, what, next);
    out := new char[|text| + count * (|next| - |what|)](_ => ' ');
    WritingPass(text, what, next, out);
  }

  lemma {:induction false} ReplaceNothing(text: string, next: string)
    ensures Replace(text, "", next) == text
    decreases |text|
  {
    if text != "" { ReplaceNothing(text[1..], next); }
  }

  method SplitAll(text: string, sep: string) returns (parts: seq<string>)
    ensures parts == Split(text, sep)
  {
    parts := [];
    var start, i := 0, 0;
    while i <= |text|
      invariant 0 <= start <= i <= |text| + 1 && (i == |text| + 1 <==> start == |text| + 1)
      invariant i <= |text| ==> parts + Cut(text[i..], sep, text[start..i]) == Split(text, sep)
      invariant i > |text| ==> parts == Split(text, sep)
      decreases |text| + 1 - i
    {
      var matched := false;
      if sep != "" { matched := MatchAt(text, i, sep); }
      ghost var was, s := parts, text[i..];
      if matched || i == |text| {
        parts := parts + [text[start..i]];
        if matched {
          assert s[|sep|..] == text[i + |sep|..] && text[i + |sep|..i + |sep|] == "";
          assert was + ([text[start..i]] + Cut(text[i + |sep|..], sep, "")) == parts + Cut(text[i + |sep|..], sep, "");
        }
        i := i + if matched then |sep| else 1;
        start := i;
      } else {
        assert s[1..] == text[i + 1..] && text[start..i] + [text[i]] == text[start..i + 1];
        i := i + 1;
      }
    }
  }

  /** What the first `k` parts contribute, with separators only between parts. */
  function Front(parts: seq<string>, sep: string, k: nat): string
    requires k <= |parts|
  {
    if k == 0 then "" else Front(parts, sep, k - 1) + (if k > 1 then sep else "") + parts[k - 1]
  }

  lemma {:induction false} FrontThenJoin(parts: seq<string>, sep: string, k: nat)
    requires k <= |parts|
    ensures Front(parts, sep, k) + (if 0 < k < |parts| then sep else "") + Join(parts[k..], sep) == Join(parts, sep)
    decreases k
  {
    if k == 0 {
      assert parts[0..] == parts && "" + "" + Join(parts, sep) == Join(parts, sep);
    } else {
      FrontThenJoin(parts, sep, k - 1);
      var tail := parts[k - 1..];
      assert tail[1..] == parts[k..] && tail[0] == parts[k - 1];
      var gap := if k > 1 then sep else "";
      if k < |parts| {
        assert Front(parts, sep, k - 1) + gap + (parts[k - 1] + sep + Join(parts[k..], sep))
            == (Front(parts, sep, k - 1) + gap + parts[k - 1]) + sep + Join(parts[k..], sep);
      } else {
        assert Join(parts[k..], sep) == "" && Join(tail, sep) == parts[k - 1];
      }
    }
  }

  lemma {:induction false} FrontIsJoin(parts: seq<string>, sep: string)
    ensures Front(parts, sep, |parts|) == Join(parts, sep)
  {
    FrontThenJoin(parts, sep, |parts|);
    assert Join(parts[|parts|..], sep) == "";
  }

  lemma {:induction false} FrontGrows(parts: seq<string>, sep: string, k: nat)
    requires k <= |parts|
    ensures |Front(parts, sep, k)| <= |Front(parts, sep, |parts|)|
    decreases |parts| - k
  {
    if k < |parts| { FrontGrows(parts, sep, k + 1); }
  }

  function Lengths(parts: seq<string>, k: nat): nat
    requires k <= |parts|
  {
    if k == 0 then 0 else Lengths(parts, k - 1) + |parts[k - 1]|
  }

  lemma {:induction false} FrontLength(parts: seq<string>, sep: string, k: nat)
    requires k <= |parts|
    ensures |Front(parts, sep, k)| == Lengths(parts, k) + (if k > 1 then |sep| * (k - 1) else 0)
  {
    if k > 0 {
      FrontLength(parts, sep, k - 1);
      if k > 1 { assert |sep| * (k - 1) == |sep| * (k - 2) + |sep|; }
    }
  }

  method JoinAll(parts: seq<string>, sep: string) returns (out: array<char>)
    ensures fresh(out) && out[..] == Join(parts, sep)
  {
    var length := 0;
    for i := 0 to |parts|
      invariant length == Lengths(parts, i)
    {
      length := length + |parts[i]|;
    }
    if |parts| > 1 { length := length + |sep| * (|parts| - 1); }
    FrontLength(parts, sep, |parts|);
    out := new char[length](_ => ' ');
    var pos := 0;
    for i := 0 to |parts|
      invariant pos == |Front(parts, sep, i)| <= out.Length && out[..pos] == Front(parts, sep, i)
    {
      FrontGrows(parts, sep, i + 1);
      var piece := (if i > 0 then sep else "") + parts[i];
      Put(out, pos, piece);
      assert Front(parts, sep, i) + piece == Front(parts, sep, i + 1);
      pos := pos + |piece|;
    }
    FrontIsJoin(parts, sep);
    assert out[..pos] == out[..];
  }
}
