/** The rewriting pass as the program runs it: an index, a mode, and a growing output. */
module RewriterMachine {
  import opened Rewriter

  lemma {:induction false} InkJoins(prev: char, a: string, b: string)
    ensures LastInk(prev, a + b) == LastInk(LastInk(prev, a), b)
    decreases |b|
  {
    if b == "" { assert a + b == a; }
    else {
      assert (a + b)[..|a + b| - 1] == a + b[..|b| - 1];
      InkJoins(prev, a, b[..|b| - 1]);
    }
  }

  method PrevInk(src: string, before: nat) returns (c: char)
    requires before <= |src|
    ensures c == LastInk(' ', src[..before])
  {
    var i := before;
    while i > 0 && IsSpace(src[i - 1])
      invariant 0 <= i <= before && LastInk(' ', src[..i]) == LastInk(' ', src[..before])
    {
      assert src[..i][..i - 1] == src[..i - 1];
      i := i - 1;
    }
    c := if i == 0 then ' ' else src[i - 1];
  }

  method NextInk(src: string, after: nat) returns (c: char)
    requires after <= |src|
    ensures c == FirstInk(src[after..])
  {
    var i := after;
    while i < |src| && IsSpace(src[i])
      invariant after <= i <= |src| && SkipSpaces(src[i..]) == SkipSpaces(src[after..])
    {
      assert src[i..][1..] == src[i + 1..];
      i := i + 1;
    }
    c := if i == |src| then ' ' else src[i];
  }

  method WordEnd(src: string, start: nat) returns (end: nat)
    requires start <= |src|
    ensures start <= end <= |src| && end - start == Run(src[start..])
  {
    end := start;
    while end < |src| && IdentChar(src[end])
      invariant start <= end <= |src| && end - start + Run(src[end..]) == Run(src[start..])
    {
      assert src[end..][1..] == src[end + 1..];
      end := end + 1;
    }
  }

  /** One piece: how far it goes and the mode after it. */
  method Scan(src: string, i: nat, mode: Mode) returns (end: nat, next: Mode)
    requires i < |src|
    ensures end == i + Piece(src[i..], mode) && next == After(src[i..], mode)
  {
    var ch := src[i];
    var ahead := if i + 1 < |src| then src[i + 1] else ' ';
    end, next := i + 1, mode;
    match mode
    case LineComment =>
      if ch == '\n' || ch == '\r' { next := InCode; }
    case BlockComment =>
      if ch == '*' && ahead == '/' { end, next := i + 2, InCode; }
    case InString =>
      if ch == '\\' && i + 1 < |src| { end := i + 2; }
      else if ch == '"' { next := InCode; }
    case InRaw =>
      if ch == '`' { next := InCode; }
    case InCode =>
      if ch == '/' && ahead == '/' { end, next := i + 2, LineComment; }
      else if ch == '/' && ahead == '*' { end, next := i + 2, BlockComment; }
      else if ch == '"' { next := InString; }
      else if ch == '`' { next := InRaw; }
      else if IdentStart(ch) { end := WordEnd(src, i); }
  }

  /** The names are collected in source order; only membership is asked of them. */
  method CollectNames(src: string) returns (names: set<string>)
    ensures names == Collect(src, InCode, Top)
  {
    names := {};
    var i, mode, depth := 0, InCode, Top;
    while i < |src|
      invariant i <= |src| && names + Collect(src[i..], mode, depth) == Collect(src, InCode, Top)
      decreases |src| - i
    {
      ghost var s := src[i..];
      var end, next := Scan(src, i, mode);
      assert s[end - i..] == src[end..] && s[..end - i] == src[i..end];
      if mode == InCode && IdentStart(src[i]) && depth == Top {
        names := names + NamedBy(src[i..end], src[end..]);
      }
      if mode == InCode { depth := Bump(depth, src[i]); }
      i, mode := end, next;
    }
  }

  lemma {:induction false} NothingToInsert(s: string, mode: Mode, prev: char, prefix: string)
    ensures RewriteFrom(s, mode, prev, {}, prefix) == s
    decreases |s|
  {
    if s != "" {
      var n := Piece(s, mode);
      NothingToInsert(s[n..], After(s, mode), LastInk(prev, s[..n]), prefix);
      assert "" + (s[..n] + s[n..]) == s;
    }
  }

  method PrefixFor(src: string, i: nat, end: nat, mode: Mode, names: set<string>, prefix: string) returns (added: string)
    requires i < |src| && end == i + Piece(src[i..], mode)
    ensures added == Inserted(src[i..], mode, LastInk(' ', src[..i]), names, prefix)
  {
    added := "";
    if mode == InCode && IdentStart(src[i]) {
      var word := src[i..end];
      assert src[i..][..end - i] == word && src[i..][end - i..] == src[end..];
      var prev := PrevInk(src, i);
      var after := NextInk(src, end);
      if word in names && !(prefix <= word) && prev != '.' && after != '.' { added := prefix; }
    }
  }

  /** What has been written, and what the rest of the source will add, is the rewritten text. */
  ghost predicate OnTrack(out: string, src: string, i: nat, mode: Mode, names: set<string>, prefix: string, all: string)
    requires i <= |src|
  {
    out + RewriteFrom(src[i..], mode, LastInk(' ', src[..i]), names, prefix) == all
  }

  lemma {:induction false} StartsOnTrack(src: string, names: set<string>, prefix: string)
    ensures OnTrack("", src, 0, InCode, names, prefix, RewriteFrom(src, InCode, ' ', names, prefix))
  {
    assert src[0..] == src && src[..0] == "";
    assert "" + RewriteFrom(src, InCode, ' ', names, prefix) == RewriteFrom(src, InCode, ' ', names, prefix);
  }

  lemma {:induction false} EndsOnTrack(out: string, src: string, mode: Mode, names: set<string>, prefix: string, all: string)
    requires OnTrack(out, src, |src|, mode, names, prefix, all)
    ensures out == all
  {
    assert src[|src|..] == "" && out + "" == out;
  }

  lemma {:induction false} StaysOnTrack(out: string, src: string, i: nat, mode: Mode, names: set<string>, prefix: string, all: string)
    requires i < |src| && OnTrack(out, src, i, mode, names, prefix, all)
    ensures var end := i + Piece(src[i..], mode);
      var added := Inserted(src[i..], mode, LastInk(' ', src[..i]), names, prefix);
      OnTrack(out + added + src[i..end], src, end, After(src[i..], mode), names, prefix, all)
  {
    var s, prev := src[i..], LastInk(' ', src[..i]);
    var n := Piece(s, mode);
    assert s[n..] == src[i + n..] && s[..n] == src[i..i + n];
    assert src[..i] + src[i..i + n] == src[..i + n];
    InkJoins(' ', src[..i], src[i..i + n]);
    Unfolds(s, mode, prev, names, prefix);
    Regroup(out, Inserted(s, mode, prev, names, prefix), s[..n], RewriteFrom(s[n..], After(s, mode), LastInk(prev, s[..n]), names, prefix));
  }

  lemma {:induction false} Unfolds(s: string, mode: Mode, prev: char, names: set<string>, prefix: string)
    requires s != ""
    ensures var n := Piece(s, mode);
      RewriteFrom(s, mode, prev, names, prefix)
      == Inserted(s, mode, prev, names, prefix) + (s[..n] + RewriteFrom(s[n..], After(s, mode), LastInk(prev, s[..n]), names, prefix))
  {
  }

  lemma {:induction false} Regroup(a: string, b: string, c: string, d: string)
    ensures a + (b + (c + d)) == (a + b + c) + d
  {
  }

  method RewriteLocalModule(src: string, prefix: string) returns (out: string)
    ensures out == Rewrite(src, prefix)
  {
    var names := CollectNames(src);
    if names == {} {
      NothingToInsert(src, InCode, ' ', prefix);
      return src;
    }
    out := RewriteWith(src, names, prefix);
  }

  method RewriteWith(src: string, names: set<string>, prefix: string) returns (out: string)
    ensures out == RewriteFrom(src, InCode, ' ', names, prefix)
  {
    ghost var all := RewriteFrom(src, InCode, ' ', names, prefix);
    out := "";
    var i, mode := 0, InCode;
    StartsOnTrack(src, names, prefix);
    while i < |src|
      invariant i <= |src| && OnTrack(out, src, i, mode, names, prefix, all)
      decreases |src| - i
    {
      StaysOnTrack(out, src, i, mode, names, prefix, all);
      var end, next := Scan(src, i, mode);
      var added := PrefixFor(src, i, end, mode, names, prefix);
      out := out + added + src[i..end];
      i, mode := end, next;
    }
    EndsOnTrack(out, src, mode, names, prefix, all);
  }
}
