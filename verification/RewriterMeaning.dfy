/** What prefixing a module means on its text as it is written: comments, literals, words and
    other characters. */
module RewriterMeaning {
  import opened Rewriter

  /** A comment or literal left open at the end of the text has no `end`. */
  datatype Chunk =
    | Line(text: string, end: string)
    | Block(text: string, end: string)
    | Quote(text: string, end: string)
    | Raw(text: string, end: string)
    | Word(text: string)
    | Mark(c: char)

  function SpellOne(c: Chunk): string {
    match c
    case Line(t, end) => "//" + (t + end)
    case Block(t, end) => "/*" + (t + end)
    case Quote(t, end) => "\"" + (t + end)
    case Raw(t, end) => "`" + (t + end)
    case Word(w) => w
    case Mark(m) => [m]
  }

  function Spell(cs: seq<Chunk>): string {
    if cs == [] then "" else SpellOne(cs[0]) + Spell(cs[1..])
  }

  predicate Letter(c: char) { 'a' <= c <= 'z' || 'A' <= c <= 'Z' || c == '_' }

  predicate Ident(w: string) {
    w != "" && Letter(w[0]) && forall i :: 0 <= i < |w| ==> Letter(w[i]) || '0' <= w[i] <= '9'
  }

  /** No identifier goes on in `tail`. */
  predicate Bound(tail: string) { tail == "" || !(Letter(tail[0]) || '0' <= tail[0] <= '9') }

  /** The text of a string literal: a backslash takes the next character with it. */
  predicate Escaped(t: string) {
    t == "" || (if t[0] == '\\' then |t| >= 2 && Escaped(t[2..]) else t[0] != '"' && Escaped(t[1..]))
  }

  predicate Without(t: string, c: char) { forall i :: 0 <= i < |t| ==> t[i] != c }

  predicate NoStarSlash(t: string) { forall i :: 0 <= i < |t| - 1 ==> t[i] != '*' || t[i + 1] != '/' }

  /** Whether a chunk is what it says when `rest` follows. */
  predicate Fits(c: Chunk, rest: string) {
    match c
    case Line(t, end) => Without(t, '\n') && Without(t, '\r') && (end == "\n" || end == "\r" || (end == "" && rest == ""))
    case Block(t, end) => NoStarSlash(t) && (end == "*/" || (end == "" && rest == ""))
    case Quote(t, end) => Escaped(t) && (end == "\"" || ((end == "" || end == "\\") && rest == ""))
    case Raw(t, end) => Without(t, '`') && (end == "`" || (end == "" && rest == ""))
    case Word(w) => Ident(w) && Bound(rest)
    case Mark(m) => !Letter(m) && m != '"' && m != '`' && (m == '/' && rest != "" ==> rest[0] != '/' && rest[0] != '*')
  }

  predicate Source(cs: seq<Chunk>) { forall i :: 0 <= i < |cs| ==> Fits(cs[i], Spell(cs[i + 1..])) }

  // ---- names ----

  predicate Blank(gap: string) {
    forall i :: 0 <= i < |gap| ==> gap[i] in {' ', '\t', '\n', '\U{000B}', '\U{000C}', '\r'}
  }

  /** `n` is the first word of s, after spaces alone. */
  ghost predicate Begins(s: string, n: string) {
    exists gap, tail :: Blank(gap) && Bound(tail) && Ident(n) && s == gap + (n + tail)
  }

  function Balance(b: string): int {
    if b == "" then 0 else (if b[0] == '[' then 1 else if b[0] == ']' then -1 else 0) + Balance(b[1..])
  }

  /** From an opening bracket to the one that closes it. */
  predicate Bracketed(b: string) {
    b != "" && b[0] == '[' && Balance(b) == 0 && forall k :: 0 < k < |b| ==> Balance(b[..k]) > 0
  }

  /** The declarations `TYPE n`, `INT n`, `FN n`, `ARR[STR] n` and their like. */
  ghost predicate Declares(word: string, rest: string, n: string) {
    || (word in {"TYPE", "INT", "FLT", "BOL", "STR", "DYN", "FN", "MAP", "ARR", "REF", "TSK"} && Begins(rest, n))
    || (word in {"FN", "MAP", "ARR", "REF", "TSK"}
        && exists gap, b, more :: Blank(gap) && Bracketed(b) && rest == gap + (b + more) && Begins(more, n))
  }

  /** How deep after these chunks, where a closing mark too many counts for nothing. */
  function Level(cs: seq<Chunk>, open: char, close: char): nat {
    if cs == [] then 0 else
    var n, c := Level(cs[..|cs| - 1], open, close), cs[|cs| - 1];
    if c == Mark(open) then n + 1 else if c == Mark(close) && n > 0 then n - 1 else n
  }

  predicate TopLevel(cs: seq<Chunk>) { Level(cs, '(', ')') == 0 && Level(cs, '{', '}') == 0 && Level(cs, '[', ']') == 0 }

  ghost predicate DeclaresAt(cs: seq<Chunk>, i: nat, n: string)
    requires i < |cs|
  {
    cs[i].Word? && TopLevel(cs[..i]) && Declares(cs[i].text, Spell(cs[i + 1..]), n)
  }

  ghost predicate Exported(cs: seq<Chunk>, n: string) { exists i :: 0 <= i < |cs| && DeclaresAt(cs, i, n) }

  // ---- which words are prefixed ----

  ghost predicate DotBefore(s: string) { exists front, gap :: Blank(gap) && s == front + ("." + gap) }

  ghost predicate DotAfter(s: string) { exists gap, tail :: Blank(gap) && s == gap + ("." + tail) }

  ghost predicate Carried(cs: seq<Chunk>, i: nat, names: set<string>, prefix: string)
    requires i < |cs|
  {
    && cs[i].Word? && cs[i].text in names && !(prefix <= cs[i].text)
    && !DotBefore(Spell(cs[..i])) && !DotAfter(Spell(cs[i + 1..]))
  }

  /** The text from chunk i on, with the prefix in front of exactly the words that carry it. */
  ghost function Prefixed(cs: seq<Chunk>, i: nat, names: set<string>, prefix: string): string
    requires i <= |cs|
    decreases |cs| - i
  {
    if i == |cs| then "" else
    (if Carried(cs, i, names, prefix) then prefix else "") + (SpellOne(cs[i]) + Prefixed(cs, i + 1, names, prefix))
  }

  // ---- spaces ----

  lemma {:induction false} SpaceIsBlank(c: char)
    ensures IsSpace(c) <==> Blank([c])
  {
    assert [c][0] == c;
    if '\t' <= c <= '\r' { assert c as int == 9 || c as int == 10 || c as int == 11 || c as int == 12 || c as int == 13; }
  }

  lemma {:induction false} SkipSpan(s: string)
    ensures var r := SkipSpaces(s); var gap := s[..|s| - |r|];
      Blank(gap) && s == gap + r && (r != "" ==> !IsSpace(r[0]))
  {
    if s != "" && IsSpace(s[0]) {
      SkipSpan(s[1..]);
      SpaceIsBlank(s[0]);
      var r := SkipSpaces(s);
      assert s[..|s| - |r|] == [s[0]] + s[1..][..|s| - 1 - |r|];
      assert [s[0]][0] == s[0];
    } else {
      assert s[..0] == "" && "" + s == s;
    }
  }

  lemma {:induction false} SkipBlank(gap: string, r: string)
    requires Blank(gap) && (r == "" || !IsSpace(r[0]))
    ensures SkipSpaces(gap + r) == r
  {
    if gap == "" {
      assert gap + r == r;
    } else {
      SpaceIsBlank(gap[0]);
      assert [gap[0]][0] == gap[0];
      assert (gap + r)[1..] == gap[1..] + r;
      SkipBlank(gap[1..], r);
    }
  }

  lemma {:induction false} LetterIsStart(c: char)
    ensures Letter(c) == IdentStart(c) && (Letter(c) || '0' <= c <= '9') == IdentChar(c)
    ensures IdentChar(c) || c == '[' || c == '.' ==> !IsSpace(c)
  {
  }

  lemma {:induction false} LeadOf(n: string, tail: string)
    requires Ident(n) && Bound(tail)
    ensures Lead(n + tail) == {n} && Run(n + tail) == |n| && (n + tail)[..|n|] == n && (n + tail)[|n|..] == tail
  {
    RunOf(n, tail);
  }

  lemma {:induction false} LeadSpan(s: string, n: string)
    requires n in Lead(s)
    ensures Ident(n) && n <= s && Bound(s[|n|..])
  {
    RunSpan(s);
  }

  lemma {:induction false} BeginsExactly(s: string, n: string)
    ensures Begins(s, n) <==> n in NameAfterKeyword(s)
  {
    var r := SkipSpaces(s);
    if n in NameAfterKeyword(s) {
      SkipSpan(s);
      LeadSpan(r, n);
      var gap, tail := s[..|s| - |r|], r[|n|..];
      assert r == n + tail && s == gap + (n + tail);
      assert Blank(gap) && Bound(tail);
    }
    if gap, tail :| Blank(gap) && Bound(tail) && Ident(n) && s == gap + (n + tail) {
      LeadOf(n, tail);
      LetterIsStart(n[0]);
      SkipBlank(gap, n + tail);
    }
  }

  // ---- brackets ----

  /** From inside d open brackets to the end of the last one. */
  predicate Closes(b: string, d: int) { d + Balance(b) == 0 && forall k :: 0 <= k < |b| ==> d + Balance(b[..k]) > 0 }

  lemma {:induction false} BalanceFront(b: string, k: nat)
    requires 0 < k <= |b|
    ensures Balance(b[..k]) == Balance(b[..1]) + Balance(b[1..][..k - 1])
    ensures Balance(b[..1]) == if b[0] == '[' then 1 else if b[0] == ']' then -1 else 0
  {
    assert b[..k][1..] == b[1..][..k - 1];
    assert b[..1][1..] == "";
  }

  lemma {:induction false} ClosesTail(b: string, d: int)
    requires d > 0 && b != ""
    ensures Closes(b, d) <==> Closes(b[1..], d + Balance(b[..1]))
  {
    var v := d + Balance(b[..1]);
    assert b[..|b|] == b && b[1..][..|b| - 1] == b[1..];
    BalanceFront(b, |b|);
    if Closes(b, d) {
      forall k | 0 <= k < |b[1..]| ensures v + Balance(b[1..][..k]) > 0 {
        BalanceFront(b, k + 1);
        assert d + Balance(b[..k + 1]) > 0;
      }
    }
    if Closes(b[1..], v) {
      forall k | 0 <= k < |b| ensures d + Balance(b[..k]) > 0 {
        if k > 0 { BalanceFront(b, k); assert v + Balance(b[1..][..k - 1]) > 0; } else { assert b[..0] == ""; }
      }
    }
  }

  lemma {:induction false} ClosesAtOnce(b: string)
    requires Closes(b, 0)
    ensures b == ""
  {
    assert |b| > 0 ==> b[..0] == "" && 0 + Balance(b[..0]) > 0;
  }

  lemma {:induction false} SkipClosed(b: string, rest: string, d: int)
    requires d > 0 && Closes(b, d)
    ensures SkipBrackets(b + rest, d) == rest
    decreases |b|
  {
    assert b != "";
    ClosesTail(b, d);
    BalanceFront(b, 1);
    assert (b + rest)[1..] == b[1..] + rest;
    if b[0] == ']' && d == 1 {
      ClosesAtOnce(b[1..]);
      assert "" + rest == rest;
    } else {
      SkipClosed(b[1..], rest, d + Balance(b[..1]));
    }
  }

  /** What was skipped closes the brackets, or the text ended. */
  lemma {:induction false} SkippedCloses(s: string, d: int)
    requires d > 0 && SkipBrackets(s, d) != ""
    ensures var r := SkipBrackets(s, d); s == s[..|s| - |r|] + r && Closes(s[..|s| - |r|], d)
    decreases |s|
  {
    var r := SkipBrackets(s, d);
    var b := s[..|s| - |r|];
    if s[0] == ']' && d == 1 {
      assert b == s[..1] && b[1..] == "";
      BalanceFront(b, 1);
      assert Closes("", 0);
    } else {
      var v := d + (if s[0] == '[' then 1 else if s[0] == ']' then -1 else 0);
      SkippedCloses(s[1..], v);
      assert b[1..] == s[1..][..|s| - 1 - |r|];
      BalanceFront(b, 1);
    }
    ClosesTail(b, d);
  }

  lemma {:induction false} BracketedCloses(b: string)
    requires b != "" && b[0] == '['
    ensures Bracketed(b) <==> Closes(b[1..], 1)
  {
    assert b[..|b|] == b && b[1..][..|b| - 1] == b[1..];
    BalanceFront(b, |b|);
    if Bracketed(b) {
      forall k | 0 <= k < |b[1..]| ensures 1 + Balance(b[1..][..k]) > 0 { BalanceFront(b, k + 1); assert Balance(b[..k + 1]) > 0; }
    }
    if Closes(b[1..], 1) {
      forall k | 0 < k < |b| ensures Balance(b[..k]) > 0 { BalanceFront(b, k); assert 1 + Balance(b[1..][..k - 1]) > 0; }
    }
  }

  lemma {:induction false} PastBrackets(gap: string, b: string, more: string)
    requires Blank(gap) && Bracketed(b)
    ensures NameAfterHead(gap + (b + more)) == NameAfterKeyword(more)
  {
    var j := b + more;
    SkipBlank(gap, j);
    BracketedCloses(b);
    assert j[1..] == b[1..] + more;
    SkipClosed(b[1..], more, 1);
    assert SkipBrackets(j, 0) == more;
  }

  /** Only a bracket keeps a head's name from standing right after it. */
  lemma {:induction false} BareHead(s: string, n: string)
    requires var j := SkipSpaces(s); j == "" || j[0] != '['
    ensures n in NameAfterHead(s) <==> Begins(s, n)
    ensures !exists gap, b, more :: Blank(gap) && Bracketed(b) && s == gap + (b + more) && Begins(more, n)
  {
    BeginsExactly(s, n);
    forall gap, b, more | Blank(gap) && Bracketed(b) ensures s != gap + (b + more) {
      SkipBlank(gap, b + more);
    }
  }

  lemma {:induction false} BracketsEnd(j: string)
    requires j != "" && j[0] == '[' && SkipBrackets(j, 0) != ""
    ensures var b := j[..|j| - |SkipBrackets(j, 0)|]; Bracketed(b) && j == b + SkipBrackets(j, 0)
  {
    var more := SkipBrackets(j, 0);
    assert more == SkipBrackets(j[1..], 1);
    SkippedCloses(j[1..], 1);
    var b := j[..|j| - |more|];
    assert b[1..] == j[1..][..|j| - 1 - |more|];
    BracketedCloses(b);
  }

  lemma {:induction false} BracketedHead(s: string, n: string)
    requires var j := SkipSpaces(s); j != "" && j[0] == '['
    ensures !Begins(s, n)
    ensures n in NameAfterHead(s) ==> exists gap, b, more :: Blank(gap) && Bracketed(b) && s == gap + (b + more) && Begins(more, n)
  {
    var j := SkipSpaces(s);
    SkipSpan(s);
    BeginsExactly(s, n);
    if n in NameAfterHead(s) {
      var gap, more := s[..|s| - |j|], SkipBrackets(j, 0);
      BeginsExactly(more, n);
      BracketsEnd(j);
      var b := j[..|j| - |more|];
      assert Blank(gap) && Bracketed(b) && s == gap + (b + more) && Begins(more, n);
    }
  }

  /** The name after a head, after its brackets if it has any. */
  lemma {:induction false} HeadExactly(s: string, n: string)
    ensures n in NameAfterHead(s)
            <==> Begins(s, n) || exists gap, b, more :: Blank(gap) && Bracketed(b) && s == gap + (b + more) && Begins(more, n)
  {
    var j := SkipSpaces(s);
    if j != "" && j[0] == '[' {
      BracketedHead(s, n);
      if gap, b, more :| Blank(gap) && Bracketed(b) && s == gap + (b + more) && Begins(more, n) {
        PastBrackets(gap, b, more);
        BeginsExactly(more, n);
      }
    } else {
      BareHead(s, n);
    }
  }

  lemma {:induction false} NamedExactly(word: string, rest: string, n: string)
    ensures n in NamedBy(word, rest) <==> Declares(word, rest, n)
  {
    HeadExactly(rest, n);
    BeginsExactly(rest, n);
  }

  // ---- scanning comments and literals ----

  /** From inside a comment or literal the scanner comes back to code after n characters, or to
      the end of the text. */
  predicate Crosses(s: string, mode: Mode, n: nat)
    decreases |s|
  {
    if mode == InCode then n == 0
    else if s == "" then n == 0
    else Piece(s, mode) <= n && Crosses(s[Piece(s, mode)..], After(s, mode), n - Piece(s, mode))
  }

  lemma {:induction false} Cut(s: string, k: nat, n: nat)
    requires k <= n <= |s|
    ensures s[k..][n - k..] == s[n..] && s[..k] + s[k..][..n - k] == s[..n]
  {
  }

  lemma {:induction false} Apart(a: string, b: string)
    ensures (a + b)[|a|..] == b && (a + b)[..|a|] == a
  {
  }

  lemma {:induction false} CrossCollects(s: string, mode: Mode, n: nat, d: Depth)
    requires Crosses(s, mode, n) && n <= |s|
    ensures Collect(s, mode, d) == Collect(s[n..], InCode, d)
    decreases |s|
  {
    if mode != InCode && s != "" {
      var k := Piece(s, mode);
      CrossCollects(s[k..], After(s, mode), n - k, d);
      Cut(s, k, n);
    }
  }

  lemma {:induction false} InkPast(prev: char, a: string, b: string)
    ensures LastInk(prev, a + b) == LastInk(LastInk(prev, a), b)
    decreases |b|
  {
    if b == "" {
      assert a + b == a;
    } else {
      assert (a + b)[..|a + b| - 1] == a + b[..|b| - 1];
      InkPast(prev, a, b[..|b| - 1]);
    }
  }

  lemma {:induction false} Glue(a: string, b: string, c: string)
    ensures "" + (a + (b + c)) == (a + b) + c
  {
  }

  lemma {:induction false} CrossRewrites(s: string, mode: Mode, n: nat, prev: char, names: set<string>, prefix: string)
    requires Crosses(s, mode, n) && n <= |s|
    ensures RewriteFrom(s, mode, prev, names, prefix)
            == s[..n] + RewriteFrom(s[n..], InCode, LastInk(prev, s[..n]), names, prefix)
    decreases |s|
  {
    if mode == InCode || s == "" {
      assert s[..n] == "" && s[n..] == s;
      assert "" + RewriteFrom(s, mode, prev, names, prefix) == RewriteFrom(s, mode, prev, names, prefix);
    } else {
      var k := Piece(s, mode);
      var t, ink := s[k..], LastInk(prev, s[..k]);
      CrossRewrites(t, After(s, mode), n - k, ink, names, prefix);
      Cut(s, k, n);
      InkPast(prev, s[..k], t[..n - k]);
      Glue(s[..k], t[..n - k], RewriteFrom(s[n..], InCode, LastInk(prev, s[..n]), names, prefix));
    }
  }

  lemma {:induction false} Step(s: string, mode: Mode, k: nat, n: nat)
    requires mode != InCode && k <= |s| && s != "" && Piece(s, mode) == k <= n && Crosses(s[k..], After(s, mode), n - k)
    ensures Crosses(s, mode, n)
  {
  }

  lemma {:induction false} LineCrosses(t: string, end: string, rest: string)
    requires Fits(Line(t, end), rest)
    ensures Crosses(t + end + rest, LineComment, |t| + |end|)
    decreases |t|
  {
    var s := t + end + rest;
    if t == "" {
      assert end != "" ==> s[0] == end[0] && s[1..] == rest;
    } else {
      assert s[0] == t[0] && s[1..] == t[1..] + end + rest;
      LineCrosses(t[1..], end, rest);
      Step(s, LineComment, 1, |t| + |end|);
    }
  }

  lemma {:induction false} RawCrosses(t: string, end: string, rest: string)
    requires Fits(Raw(t, end), rest)
    ensures Crosses(t + end + rest, InRaw, |t| + |end|)
    decreases |t|
  {
    var s := t + end + rest;
    if t == "" {
      assert end != "" ==> s[0] == end[0] && s[1..] == rest;
    } else {
      assert s[0] == t[0] && s[1..] == t[1..] + end + rest;
      RawCrosses(t[1..], end, rest);
      Step(s, InRaw, 1, |t| + |end|);
    }
  }

  lemma {:induction false} BlockCrosses(t: string, end: string, rest: string)
    requires Fits(Block(t, end), rest)
    ensures Crosses(t + end + rest, BlockComment, |t| + |end|)
    decreases |t|
  {
    var s := t + end + rest;
    if t == "" {
      assert end != "" ==> s[0] == '*' && s[1] == '/' && s[2..] == rest;
    } else {
      assert s[0] == t[0] && s[1..] == t[1..] + end + rest;
      assert |t| > 1 ==> s[1] == t[1];
      assert |t| == 1 && end != "" ==> s[1] == '*';
      BlockCrosses(t[1..], end, rest);
      Step(s, BlockComment, 1, |t| + |end|);
    }
  }

  lemma {:induction false} QuoteCrosses(t: string, end: string, rest: string)
    requires Fits(Quote(t, end), rest)
    ensures Crosses(t + end + rest, InString, |t| + |end|)
    decreases |t|
  {
    var s := t + end + rest;
    if t == "" {
      assert end != "" ==> s[0] == end[0] && s[1..] == rest;
    } else {
      var k := if t[0] == '\\' then 2 else 1;
      assert s[0] == t[0] && s[k..] == t[k..] + end + rest;
      QuoteCrosses(t[k..], end, rest);
      Step(s, InString, k, |t| + |end|);
    }
  }

  /** The scanner's mode after the opening characters of a comment or literal. */
  function Opened(c: Chunk): Mode {
    match c
    case Line(_, _) => LineComment
    case Block(_, _) => BlockComment
    case Quote(_, _) => InString
    case Raw(_, _) => InRaw
    case _ => InCode
  }

  function Opening(c: Chunk): nat { if c.Line? || c.Block? then 2 else 1 }

  predicate Quoting(c: Chunk) { !c.Word? && !c.Mark? }

  lemma {:induction false} ChunkCrosses(c: Chunk, rest: string)
    requires Fits(c, rest) && Quoting(c)
    ensures Crosses(c.text + c.end + rest, Opened(c), |c.text| + |c.end|)
  {
    match c
    case Line(t, end) => LineCrosses(t, end, rest);
    case Block(t, end) => BlockCrosses(t, end, rest);
    case Quote(t, end) => QuoteCrosses(t, end, rest);
    case Raw(t, end) => RawCrosses(t, end, rest);
  }

  lemma {:induction false} ChunkOpens(c: Chunk, rest: string)
    requires Quoting(c)
    ensures var s := SpellOne(c) + rest;
      && s != "" && !AtWord(s, InCode) && Piece(s, InCode) == Opening(c) && After(s, InCode) == Opened(c)
      && s[Opening(c)..] == c.text + c.end + rest && SpellOne(c) == s[..Opening(c)] + (c.text + c.end)
      && (s[0] == '/' || s[0] == '"' || s[0] == '`')
  {
    var s := SpellOne(c) + rest;
    assert |SpellOne(c)| == Opening(c) + |c.text| + |c.end|;
    assert s[0] == SpellOne(c)[0] && (Opening(c) == 2 ==> s[1] == SpellOne(c)[1]);
  }

  // ---- one chunk ----

  function Deeper(d: Depth, c: Chunk): Depth { if c.Mark? then Bump(d, c.c) else d }

  lemma {:induction false} OpeningCollects(s: string, k: nat, mode: Mode, d: Depth)
    requires s != "" && !AtWord(s, InCode) && Piece(s, InCode) == k && After(s, InCode) == mode && Bump(d, s[0]) == d
    ensures Collect(s, InCode, d) == Collect(s[k..], mode, d)
  {
  }

  lemma {:induction false} BodyCollects(c: Chunk, body: string, rest: string, d: Depth)
    requires Fits(c, rest) && Quoting(c) && body == c.text + c.end
    ensures Collect(body + rest, Opened(c), d) == Collect(rest, InCode, d)
  {
    ChunkCrosses(c, rest);
    CrossCollects(body + rest, Opened(c), |body|, d);
    Apart(body, rest);
  }

  lemma {:induction false} QuotingCollects(c: Chunk, rest: string, d: Depth)
    requires Fits(c, rest) && Quoting(c)
    ensures Collect(SpellOne(c) + rest, InCode, d) == Collect(rest, InCode, d)
  {
    var s, body := SpellOne(c) + rest, c.text + c.end;
    var k := Opening(c);
    ChunkOpens(c, rest);
    OpeningCollects(s, k, Opened(c), d);
    BodyCollects(c, body, rest, d);
  }

  lemma {:induction false} WordCollects(w: string, rest: string, d: Depth)
    requires Fits(Word(w), rest)
    ensures Collect(w + rest, InCode, d) == (if d == Top then NamedBy(w, rest) else {}) + Collect(rest, InCode, d)
  {
    var s := w + rest;
    LeadOf(w, rest);
    assert s[0] == w[0];
    assert Piece(s, InCode) == |w| && After(s, InCode) == InCode && DepthPast(s, InCode, d) == d;
  }

  lemma {:induction false} MarkCollects(m: char, rest: string, d: Depth)
    requires Fits(Mark(m), rest)
    ensures Collect([m] + rest, InCode, d) == Collect(rest, InCode, Bump(d, m))
  {
    var s := [m] + rest;
    assert s[0] == m && s[1..] == rest;
    assert |s| > 1 ==> s[1] == rest[0];
    assert Piece(s, InCode) == 1 && After(s, InCode) == InCode && CollectHere(s, InCode, d) == {};
  }

  lemma {:induction false} ChunkCollects(c: Chunk, rest: string, d: Depth)
    requires Fits(c, rest)
    ensures Collect(SpellOne(c) + rest, InCode, d)
            == (if c.Word? && d == Top then NamedBy(c.text, rest) else {}) + Collect(rest, InCode, Deeper(d, c))
  {
    match c
    case Word(w) => WordCollects(w, rest, d);
    case Mark(m) => MarkCollects(m, rest, d);
    case _ => QuotingCollects(c, rest, d);
  }

  lemma {:induction false} ChunkRewrites(c: Chunk, rest: string, prev: char, names: set<string>, prefix: string)
    requires Fits(c, rest)
    ensures RewriteFrom(SpellOne(c) + rest, InCode, prev, names, prefix)
            == (if c.Word? && Chosen(c.text, prev, rest, names, prefix) then prefix else "")
               + (SpellOne(c) + RewriteFrom(rest, InCode, LastInk(prev, SpellOne(c)), names, prefix))
  {
    var s := SpellOne(c) + rest;
    if Quoting(c) {
      ChunkOpens(c, rest);
      ChunkCrosses(c, rest);
      QuotingRewrites(c, rest, prev, names, prefix);
      Glue("", SpellOne(c), RewriteFrom(rest, InCode, LastInk(prev, SpellOne(c)), names, prefix));
    } else if c.Word? {
      LeadOf(c.text, rest);
      assert s[0] == c.text[0];
    } else {
      assert s[0] == c.c && s[1..] == rest && s[..1] == SpellOne(c);
      assert |s| > 1 ==> s[1] == rest[0];
    }
  }

  lemma {:induction false} OpeningRewrites(s: string, k: nat, mode: Mode, prev: char, names: set<string>, prefix: string)
    requires s != "" && !AtWord(s, InCode) && Piece(s, InCode) == k && After(s, InCode) == mode
    ensures RewriteFrom(s, InCode, prev, names, prefix)
            == "" + (s[..k] + RewriteFrom(s[k..], mode, LastInk(prev, s[..k]), names, prefix))
  {
  }

  lemma {:induction false} QuotingRewrites(c: Chunk, rest: string, prev: char, names: set<string>, prefix: string)
    requires Fits(c, rest) && Quoting(c)
    ensures RewriteFrom(SpellOne(c) + rest, InCode, prev, names, prefix)
            == SpellOne(c) + RewriteFrom(rest, InCode, LastInk(prev, SpellOne(c)), names, prefix)
  {
    var s := SpellOne(c) + rest;
    var k, body := Opening(c), c.text + c.end;
    ChunkOpens(c, rest);
    ChunkCrosses(c, rest);
    var t, ink := s[k..], LastInk(prev, s[..k]);
    CrossRewrites(t, Opened(c), |body|, ink, names, prefix);
    Apart(body, rest);
    InkPast(prev, s[..k], body);
    Glue(s[..k], body, RewriteFrom(rest, InCode, LastInk(prev, SpellOne(c)), names, prefix));
    OpeningRewrites(s, k, Opened(c), prev, names, prefix);
  }

  // ---- dots ----

  lemma {:induction false} DotAfterExactly(s: string)
    ensures FirstInk(s) == '.' <==> DotAfter(s)
  {
    SkipSpan(s);
    var r := SkipSpaces(s);
    if FirstInk(s) == '.' {
      assert r == "." + r[1..];
      assert s == s[..|s| - |r|] + ("." + r[1..]);
    }
    if gap, tail :| Blank(gap) && s == gap + ("." + tail) {
      SkipBlank(gap, "." + tail);
    }
  }

  lemma {:induction false} InkSpan(s: string) returns (front: string, gap: string)
    ensures s == front + gap && Blank(gap) && (front != "" ==> !IsSpace(front[|front| - 1]))
    ensures forall prev :: LastInk(prev, s) == if front == "" then prev else front[|front| - 1]
  {
    front, gap := s, "";
    if s != "" && IsSpace(s[|s| - 1]) {
      var c := s[|s| - 1];
      front, gap := InkSpan(s[..|s| - 1]);
      SpaceIsBlank(c);
      assert [c][0] == c;
      gap := gap + [c];
      assert s == s[..|s| - 1] + [c];
    }
  }

  lemma {:induction false} InkOf(front: string, gap: string, prev: char)
    requires Blank(gap) && front != "" && !IsSpace(front[|front| - 1])
    ensures LastInk(prev, front + gap) == front[|front| - 1]
    decreases |gap|
  {
    if gap == "" {
      assert front + gap == front;
    } else {
      var c := gap[|gap| - 1];
      SpaceIsBlank(c);
      assert [c][0] == c;
      assert (front + gap)[..|front + gap| - 1] == front + gap[..|gap| - 1];
      InkOf(front, gap[..|gap| - 1], prev);
    }
  }

  lemma {:induction false} DotBeforeExactly(s: string)
    ensures LastInk(' ', s) == '.' <==> DotBefore(s)
  {
    var f, g := InkSpan(s);
    if LastInk(' ', s) == '.' {
      assert f == f[..|f| - 1] + ".";
      assert s == f[..|f| - 1] + ("." + g);
    }
    if front, gap :| Blank(gap) && s == front + ("." + gap) {
      assert s == (front + ".") + gap;
      InkOf(front + ".", gap, ' ');
    }
  }

  // ---- whole sources ----

  function DepthAfter(cs: seq<Chunk>): Depth { Depth(Level(cs, '(', ')'), Level(cs, '{', '}'), Level(cs, '[', ']')) }

  lemma {:induction false} DepthStep(cs: seq<Chunk>, i: nat)
    requires i < |cs|
    ensures DepthAfter(cs[..i + 1]) == Deeper(DepthAfter(cs[..i]), cs[i])
  {
    assert cs[..i + 1][..i] == cs[..i];
  }

  lemma {:induction false} SpellFrom(cs: seq<Chunk>, i: nat)
    requires i < |cs|
    ensures Spell(cs[i..]) == SpellOne(cs[i]) + Spell(cs[i + 1..])
  {
    assert cs[i..][1..] == cs[i + 1..];
  }

  lemma {:induction false} SpellTo(cs: seq<Chunk>, i: nat)
    requires i < |cs|
    ensures Spell(cs[..i + 1]) == Spell(cs[..i]) + SpellOne(cs[i])
    decreases i
  {
    if i == 0 {
      assert cs[..1][1..] == [] && cs[..0] == [];
    } else {
      SpellTo(cs[1..], i - 1);
      assert cs[..i + 1][1..] == cs[1..][..i] && cs[..i][1..] == cs[1..][..i - 1];
    }
  }

  ghost predicate ExportedFrom(cs: seq<Chunk>, k: nat, n: string) { exists i :: k <= i < |cs| && DeclaresAt(cs, i, n) }

  lemma {:induction false} CollectsFrom(cs: seq<Chunk>, k: nat, n: string)
    requires Source(cs) && k <= |cs|
    ensures n in Collect(Spell(cs[k..]), InCode, DepthAfter(cs[..k])) <==> ExportedFrom(cs, k, n)
    decreases |cs| - k
  {
    if k < |cs| {
      SpellFrom(cs, k);
      DepthStep(cs, k);
      ChunkCollects(cs[k], Spell(cs[k + 1..]), DepthAfter(cs[..k]));
      CollectsFrom(cs, k + 1, n);
      if cs[k].Word? { NamedExactly(cs[k].text, Spell(cs[k + 1..]), n); }
      assert ExportedFrom(cs, k, n) <==> DeclaresAt(cs, k, n) || ExportedFrom(cs, k + 1, n);
    } else {
      assert cs[k..] == [];
    }
  }

  /** A name is collected exactly when some top-level declaration of the source declares it. */
  lemma {:induction false} CollectsExactly(cs: seq<Chunk>, n: string)
    requires Source(cs)
    ensures n in Collect(Spell(cs), InCode, Top) <==> Exported(cs, n)
  {
    assert cs[0..] == cs && cs[..0] == [];
    CollectsFrom(cs, 0, n);
  }

  lemma {:induction false} RewritesFrom(cs: seq<Chunk>, k: nat, names: set<string>, prefix: string)
    requires Source(cs) && k <= |cs|
    ensures RewriteFrom(Spell(cs[k..]), InCode, LastInk(' ', Spell(cs[..k])), names, prefix) == Prefixed(cs, k, names, prefix)
    decreases |cs| - k
  {
    if k < |cs| {
      var prev := LastInk(' ', Spell(cs[..k]));
      SpellFrom(cs, k);
      SpellTo(cs, k);
      InkPast(' ', Spell(cs[..k]), SpellOne(cs[k]));
      ChunkRewrites(cs[k], Spell(cs[k + 1..]), prev, names, prefix);
      DotBeforeExactly(Spell(cs[..k]));
      DotAfterExactly(Spell(cs[k + 1..]));
      RewritesFrom(cs, k + 1, names, prefix);
    } else {
      assert cs[k..] == [];
    }
  }

  /** Rewriting is putting the prefix in front of exactly the words that are exported names,
      do not start with it and have no dot on either side, and changing nothing else. */
  lemma {:induction false} RewriteMeans(cs: seq<Chunk>, prefix: string)
    requires Source(cs)
    ensures var names := Collect(Spell(cs), InCode, Top);
      && (forall n :: n in names <==> Exported(cs, n))
      && Rewrite(Spell(cs), prefix) == Prefixed(cs, 0, names, prefix)
  {
    assert cs[0..] == cs && cs[..0] == [];
    forall n ensures n in Collect(Spell(cs), InCode, Top) <==> Exported(cs, n) { CollectsExactly(cs, n); }
    RewritesFrom(cs, 0, Collect(Spell(cs), InCode, Top), prefix);
  }

  // ---- every text is such a source ----

  lemma {:induction false} LineEnd(s: string) returns (t: string, end: string, r: string)
    ensures s == t + end + r && Fits(Line(t, end), r)
  {
    t, end, r := "", "", "";
    if s != "" {
      if s[0] == '\n' || s[0] == '\r' {
        end, r := [s[0]], s[1..];
      } else {
        t, end, r := LineEnd(s[1..]);
        t := [s[0]] + t;
        assert s == [s[0]] + s[1..];
      }
    }
  }

  lemma {:induction false} RawEnd(s: string) returns (t: string, end: string, r: string)
    ensures s == t + end + r && Fits(Raw(t, end), r)
  {
    t, end, r := "", "", "";
    if s != "" {
      if s[0] == '`' {
        end, r := "`", s[1..];
      } else {
        t, end, r := RawEnd(s[1..]);
        t := [s[0]] + t;
        assert s == [s[0]] + s[1..];
      }
    }
  }

  lemma {:induction false} BlockEnd(s: string) returns (t: string, end: string, r: string)
    ensures s == t + end + r && Fits(Block(t, end), r)
  {
    t, end, r := "", "", "";
    if s != "" {
      if s[0] == '*' && |s| > 1 && s[1] == '/' {
        end, r := "*/", s[2..];
        assert s == "*/" + s[2..];
      } else {
        t, end, r := BlockEnd(s[1..]);
        assert |t| > 0 ==> t[0] == s[1];
        t := [s[0]] + t;
        assert s == [s[0]] + s[1..];
      }
    }
  }

  lemma {:induction false} QuoteEnd(s: string) returns (t: string, end: string, r: string)
    ensures s == t + end + r && Fits(Quote(t, end), r)
    decreases |s|
  {
    t, end, r := "", "", "";
    if s == "\\" {
      end := "\\";
    } else if s != "" && s[0] == '"' {
      end, r := "\"", s[1..];
    } else if s != "" {
      var k := if s[0] == '\\' then 2 else 1;
      var u;
      u, end, r := QuoteEnd(s[k..]);
      t := s[..k] + u;
      assert t[k..] == u && s == s[..k] + s[k..];
    }
  }

  lemma {:induction false} FirstChunk(s: string) returns (c: Chunk, r: string)
    requires s != ""
    ensures s == SpellOne(c) + r && Fits(c, r) && |r| < |s|
  {
    if Letter(s[0]) {
      RunSpan(s);
      c, r := Word(s[..Run(s)]), s[Run(s)..];
    } else if s[0] == '"' {
      var t, end;
      t, end, r := QuoteEnd(s[1..]);
      c := Quote(t, end);
      assert s == "\"" + (t + end) + r;
    } else if s[0] == '`' {
      var t, end;
      t, end, r := RawEnd(s[1..]);
      c := Raw(t, end);
      assert s == "`" + (t + end) + r;
    } else if "//" <= s {
      var t, end;
      t, end, r := LineEnd(s[2..]);
      c := Line(t, end);
      assert s == "//" + (t + end) + r;
    } else if "/*" <= s {
      var t, end;
      t, end, r := BlockEnd(s[2..]);
      c := Block(t, end);
      assert s == "/*" + (t + end) + r;
    } else {
      c, r := Mark(s[0]), s[1..];
      assert s[0] == '/' && |s| > 1 ==> s[..2] == [s[0], s[1]];
    }
  }

  lemma {:induction false} OneMore(c: Chunk, cs: seq<Chunk>)
    requires Source(cs) && Fits(c, Spell(cs))
    ensures Source([c] + cs) && Spell([c] + cs) == SpellOne(c) + Spell(cs)
  {
    var more := [c] + cs;
    assert more[1..] == cs;
    forall i | 0 <= i < |more| ensures Fits(more[i], Spell(more[i + 1..])) {
      if i > 0 { assert more[i] == cs[i - 1] && more[i + 1..] == cs[i..]; }
    }
  }

  /** Every text is the spelling of some source, so the meaning above covers them all. */
  lemma {:induction false} EveryTextIsSpelled(s: string)
    ensures exists cs :: Source(cs) && Spell(cs) == s
    decreases |s|
  {
    if s == "" {
      assert Source([]) && Spell([]) == s;
    } else {
      var c, r := FirstChunk(s);
      EveryTextIsSpelled(r);
      var cs :| Source(cs) && Spell(cs) == r;
      OneMore(c, cs);
    }
  }
}
