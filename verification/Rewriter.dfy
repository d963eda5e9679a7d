/** Prefixing a local module's exported names, character by character. */
module Rewriter {

  datatype Mode = InCode | LineComment | BlockComment | InString | InRaw

  predicate IdentStart(c: char) { 'a' <= c <= 'z' || 'A' <= c <= 'Z' || c == '_' }

  predicate IdentChar(c: char) { IdentStart(c) || '0' <= c <= '9' }

  predicate IsSpace(c: char) { c == ' ' || ('\t' <= c <= '\r') }

  /** Length of the leading run of identifier characters. */
  function Run(s: string): (n: nat)
    ensures n <= |s|
    ensures s != "" && IdentChar(s[0]) ==> n > 0
  {
    if s == "" || !IdentChar(s[0]) then 0 else 1 + Run(s[1..])
  }

  predicate AtWord(s: string, mode: Mode) { s != "" && mode == InCode && IdentStart(s[0]) }

  /** How many characters the scanner consumes at once. */
  function Piece(s: string, mode: Mode): (n: nat)
    requires s != ""
    ensures 0 < n <= |s|
  {
    match mode
    case LineComment => 1
    case BlockComment => if s[0] == '*' && |s| > 1 && s[1] == '/' then 2 else 1
    case InString => if s[0] == '\\' && |s| > 1 then 2 else 1
    case InRaw => 1
    case InCode =>
      if s[0] == '/' && |s| > 1 && (s[1] == '/' || s[1] == '*') then 2
      else if IdentStart(s[0]) then Run(s)
      else 1
  }

  function After(s: string, mode: Mode): Mode
    requires s != ""
  {
    match mode
    case LineComment => if s[0] == '\n' || s[0] == '\r' then InCode else mode
    case BlockComment => if s[0] == '*' && |s| > 1 && s[1] == '/' then InCode else mode
    case InString => if s[0] == '"' then InCode else mode
    case InRaw => if s[0] == '`' then InCode else mode
    case InCode =>
      if s[0] == '/' && |s| > 1 && s[1] == '/' then LineComment
      else if s[0] == '/' && |s| > 1 && s[1] == '*' then BlockComment
      else if s[0] == '"' then InString
      else if s[0] == '`' then InRaw
      else mode
  }

  // ---- exported names ----

  function SkipSpaces(s: string): (r: string)
    ensures |r| <= |s|
  {
    if s != "" && IsSpace(s[0]) then SkipSpaces(s[1..]) else s
  }

  /** Past the bracket that closes the first one, counting brackets wherever they stand. */
  function SkipBrackets(s: string, depth: int): (r: string)
    ensures |r| <= |s|
  {
    if s == "" then s
    else if s[0] == '[' then SkipBrackets(s[1..], depth + 1)
    else if s[0] == ']' then (if depth == 1 then s[1..] else SkipBrackets(s[1..], depth - 1))
    else SkipBrackets(s[1..], depth)
  }

  function Lead(s: string): set<string> { if s != "" && IdentStart(s[0]) then {s[..Run(s)]} else {} }

  function NameAfterKeyword(s: string): set<string> { Lead(SkipSpaces(s)) }

  function NameAfterHead(s: string): set<string> {
    var j := SkipSpaces(s);
    if j != "" && j[0] == '[' then NameAfterKeyword(SkipBrackets(j, 0)) else Lead(j)
  }

  const Heads := {"FN", "MAP", "ARR", "REF", "TSK"}
  const Keywords := {"TYPE", "INT", "FLT", "BOL", "STR", "DYN"}

  function NamedBy(word: string, rest: string): set<string> {
    if word in Heads then NameAfterHead(rest) else if word in Keywords then NameAfterKeyword(rest) else {}
  }

  datatype Depth = Depth(parens: nat, braces: nat, brackets: nat)

  const Top := Depth(0, 0, 0)

  function Down(n: nat): nat { if n > 0 then n - 1 else 0 }

  function Bump(d: Depth, c: char): Depth {
    match c
    case '(' => d.(parens := d.parens + 1)
    case ')' => d.(parens := Down(d.parens))
    case '{' => d.(braces := d.braces + 1)
    case '}' => d.(braces := Down(d.braces))
    case '[' => d.(brackets := d.brackets + 1)
    case ']' => d.(brackets := Down(d.brackets))
    case _ => d
  }

  /** What one piece contributes to the names. */
  function CollectHere(s: string, mode: Mode, d: Depth): set<string>
    requires s != ""
  {
    var n := Piece(s, mode);
    if AtWord(s, mode) && d == Top then NamedBy(s[..n], s[n..]) else {}
  }

  function DepthPast(s: string, mode: Mode, d: Depth): Depth
    requires s != ""
  {
    if mode == InCode then Bump(d, s[0]) else d
  }

  function Collect(s: string, mode: Mode, d: Depth): set<string>
    decreases |s|
  {
    if s == "" then {} else
    var n := Piece(s, mode);
    CollectHere(s, mode, d) + Collect(s[n..], After(s, mode), DepthPast(s, mode, d))
  }

  // ---- rewriting ----

  /** The last character that is not a space, or `prev`. */
  function LastInk(prev: char, s: string): char {
    if s == "" then prev else if IsSpace(s[|s| - 1]) then LastInk(prev, s[..|s| - 1]) else s[|s| - 1]
  }

  function FirstInk(s: string): char { if SkipSpaces(s) == "" then ' ' else SkipSpaces(s)[0] }

  predicate Chosen(word: string, prev: char, rest: string, names: set<string>, prefix: string) {
    word in names && !(prefix <= word) && prev != '.' && FirstInk(rest) != '.'
  }

  function Inserted(s: string, mode: Mode, prev: char, names: set<string>, prefix: string): string
    requires s != ""
  {
    var n := Piece(s, mode);
    if AtWord(s, mode) && Chosen(s[..n], prev, s[n..], names, prefix) then prefix else ""
  }

  /** The text from a piece on; `prev` is the last ink before it. */
  function RewriteFrom(s: string, mode: Mode, prev: char, names: set<string>, prefix: string): string
    decreases |s|
  {
    if s == "" then "" else
    var n := Piece(s, mode);
    Inserted(s, mode, prev, names, prefix)
    + (s[..n] + RewriteFrom(s[n..], After(s, mode), LastInk(prev, s[..n]), names, prefix))
  }

  function Rewrite(s: string, prefix: string): string { RewriteFrom(s, InCode, ' ', Collect(s, InCode, Top), prefix) }

  /** A module's prefix: its file name and an underscore, when that is an identifier. */
  predicate IsPrefix(prefix: string) {
    && prefix != "" && IdentStart(prefix[0]) && prefix[|prefix| - 1] == '_'
    && forall i :: 0 <= i < |prefix| ==> IdentChar(prefix[i])
  }

  // ---- the rewritten text scans piece by piece like the source ----

  lemma {:induction false} RunOf(word: string, rest: string)
    requires (forall i :: 0 <= i < |word| ==> IdentChar(word[i])) && (rest == "" || !IdentChar(rest[0]))
    ensures Run(word + rest) == |word|
  {
    if word == "" { assert word + rest == rest; }
    else {
      assert (word + rest)[1..] == word[1..] + rest;
      RunOf(word[1..], rest);
    }
  }

  lemma {:induction false} RunSpan(s: string)
    ensures forall i :: 0 <= i < Run(s) ==> IdentChar(s[i])
    ensures Run(s) < |s| ==> !IdentChar(s[Run(s)])
  {
    if s != "" && IdentChar(s[0]) { RunSpan(s[1..]); }
  }

  /** The first character stays, or a word gets a word in front. */
  predicate SameHead(s: string, t: string, mode: Mode) {
    (t == "" <==> s == "") && (s != "" ==> t[0] == s[0] || (AtWord(s, mode) && IdentStart(t[0])))
  }

  lemma {:induction false} SameStart(s: string, mode: Mode, prev: char, names: set<string>, prefix: string)
    requires IsPrefix(prefix)
    ensures SameHead(s, RewriteFrom(s, mode, prev, names, prefix), mode)
  {
  }

  lemma {:induction false} PieceAlike(s: string, mode: Mode, rest: string)
    requires s != "" && !AtWord(s, mode) && SameHead(s[Piece(s, mode)..], rest, After(s, mode))
    ensures var t := s[..Piece(s, mode)] + rest;
      Piece(t, mode) == Piece(s, mode) && After(t, mode) == After(s, mode) && !AtWord(t, mode)
  {
    var n := Piece(s, mode);
    var t := s[..n] + rest;
    assert t[0] == s[0] && (n == 2 ==> t[1] == s[1]);
    if n == 1 {
      assert |s| > 1 <==> |t| > 1;
      assert |t| > 1 ==> t[1] == rest[0] && s[1] == s[1..][0];
    }
  }

  lemma {:induction false} WordAlike(s: string, added: string, rest: string, mode: Mode)
    requires AtWord(s, mode) && (added == "" || IsPrefix(added)) && SameHead(s[Run(s)..], rest, mode)
    ensures var t := added + (s[..Run(s)] + rest);
      Piece(t, mode) == |added| + Run(s) && After(t, mode) == mode && AtWord(t, mode)
  {
    var n := Run(s);
    var t := added + (s[..n] + rest);
    RunSpan(s);
    assert t == (added + s[..n]) + rest;
    assert rest != "" ==> !IdentChar(rest[0]) by { if rest != "" { assert s[n..][0] == s[n]; } }
    RunOf(added + s[..n], rest);
    assert t[0] == if added == "" then s[0] else added[0];
  }

  /** One step of scanning the rewritten text. */
  lemma {:induction false} Alike(s: string, mode: Mode, prev: char, names: set<string>, prefix: string)
    requires IsPrefix(prefix) && s != ""
    ensures var t := RewriteFrom(s, mode, prev, names, prefix);
      var n := Piece(s, mode);
      var added := Inserted(s, mode, prev, names, prefix);
      && t != "" && Piece(t, mode) == |added| + n && After(t, mode) == After(s, mode)
      && AtWord(t, mode) == AtWord(s, mode)
      && t[..Piece(t, mode)] == added + s[..n] && (added == "" ==> t[..n] == s[..n])
      && t[Piece(t, mode)..] == RewriteFrom(s[n..], After(s, mode), LastInk(prev, s[..n]), names, prefix)
  {
    var n := Piece(s, mode);
    var added := Inserted(s, mode, prev, names, prefix);
    var rest := RewriteFrom(s[n..], After(s, mode), LastInk(prev, s[..n]), names, prefix);
    var t := RewriteFrom(s, mode, prev, names, prefix);
    SameStart(s[n..], After(s, mode), LastInk(prev, s[..n]), names, prefix);
    if AtWord(s, mode) { WordAlike(s, added, rest, mode); } else { PieceAlike(s, mode, rest); assert added == ""; }
    assert t == (added + s[..n]) + rest && "" + s[..n] == s[..n];
  }

  lemma {:induction false} SpaceStep(s: string, mode: Mode, prev: char, names: set<string>, prefix: string)
    requires s != "" && IsSpace(s[0])
    ensures var t := RewriteFrom(s, mode, prev, names, prefix);
      && t == [s[0]] + RewriteFrom(s[1..], After(s, mode), LastInk(prev, s[..1]), names, prefix)
  {
    assert Piece(s, mode) == 1 && s[..1] == [s[0]];
    assert Inserted(s, mode, prev, names, prefix) == "";
    assert "" + (s[..1] + RewriteFrom(s[1..], After(s, mode), LastInk(prev, s[..1]), names, prefix))
        == [s[0]] + RewriteFrom(s[1..], After(s, mode), LastInk(prev, s[..1]), names, prefix);
  }

  lemma {:induction false} SkipOne(c: char, rest: string)
    requires IsSpace(c)
    ensures SkipSpaces([c] + rest) == SkipSpaces(rest)
  {
    assert ([c] + rest)[1..] == rest;
  }

  /** Skipping spaces keeps the two texts in step. */
  lemma {:induction false} SpacesAlike(s: string, mode: Mode, prev: char, names: set<string>, prefix: string)
    returns (m: Mode, p: char)
    requires IsPrefix(prefix)
    ensures SkipSpaces(RewriteFrom(s, mode, prev, names, prefix)) == RewriteFrom(SkipSpaces(s), m, p, names, prefix)
    decreases |s|
  {
    m, p := mode, prev;
    if s != "" && IsSpace(s[0]) {
      SpaceStep(s, mode, prev, names, prefix);
      SkipOne(s[0], RewriteFrom(s[1..], After(s, mode), LastInk(prev, s[..1]), names, prefix));
      m, p := SpacesAlike(s[1..], After(s, mode), LastInk(prev, s[..1]), names, prefix);
    } else {
      SameStart(s, mode, prev, names, prefix);
    }
  }

  lemma {:induction false} DotsAlike(s: string, mode: Mode, prev: char, names: set<string>, prefix: string)
    requires IsPrefix(prefix)
    ensures FirstInk(RewriteFrom(s, mode, prev, names, prefix)) == '.' <==> FirstInk(s) == '.'
  {
    var m, p := SpacesAlike(s, mode, prev, names, prefix);
    SameStart(SkipSpaces(s), m, p, names, prefix);
  }

  lemma {:induction false} InkAlike(prev: char, added: string, piece: string)
    requires piece != "" && (added == "" || !IsSpace(piece[|piece| - 1]))
    ensures LastInk(prev, added + piece) == LastInk(prev, piece)
  {
    if added == "" { assert added + piece == piece; }
  }

  lemma {:induction false} WordEnds(s: string, mode: Mode)
    requires AtWord(s, mode)
    ensures !IsSpace(s[Piece(s, mode) - 1])
  {
    RunSpan(s);
    assert IdentChar(s[Run(s) - 1]);
  }

  // ---- comments and literals ----

  /** The text of the comments and literals, delimiters included. */
  function Quoted(s: string, mode: Mode): string
    decreases |s|
  {
    if s == "" then "" else
    var n := Piece(s, mode);
    (if mode != InCode || After(s, mode) != InCode then s[..n] else "") + Quoted(s[n..], After(s, mode))
  }

  /** Scanned afresh, the rewritten text has exactly the source's comments and literals. */
  lemma {:induction false} QuotedUnchanged(s: string, mode: Mode, prev: char, names: set<string>, prefix: string)
    requires IsPrefix(prefix)
    ensures Quoted(RewriteFrom(s, mode, prev, names, prefix), mode) == Quoted(s, mode)
    decreases |s|
  {
    if s != "" {
      Alike(s, mode, prev, names, prefix);
      var n := Piece(s, mode);
      QuotedUnchanged(s[n..], After(s, mode), LastInk(prev, s[..n]), names, prefix);
    }
  }

  // ---- deleting the prefixes ----

  predicate Carries(word: string, prev: char, rest: string, names: set<string>, prefix: string) {
    prefix <= word && word[|prefix|..] in names && prev != '.' && FirstInk(rest) != '.'
  }

  /** Deletes the prefix from every word that is a prefixed name and stands next to no dot. */
  function Strip(t: string, mode: Mode, prev: char, names: set<string>, prefix: string): string
    decreases |t|
  {
    if t == "" then "" else
    var n := Piece(t, mode);
    (if AtWord(t, mode) && Carries(t[..n], prev, t[n..], names, prefix) then t[|prefix|..n] else t[..n])
    + Strip(t[n..], After(t, mode), LastInk(prev, t[..n]), names, prefix)
  }

  /** The source itself uses no prefixed name. */
  predicate NoClash(s: string, mode: Mode, prev: char, names: set<string>, prefix: string)
    decreases |s|
  {
    s == "" ||
    var n := Piece(s, mode);
    && !(AtWord(s, mode) && Carries(s[..n], prev, s[n..], names, prefix))
    && NoClash(s[n..], After(s, mode), LastInk(prev, s[..n]), names, prefix)
  }

  /** What one piece of the rewritten text strips to. */
  lemma {:induction false} PieceStrips(s: string, mode: Mode, prev: char, names: set<string>, prefix: string)
    requires IsPrefix(prefix) && s != ""
    ensures var n := Piece(s, mode);
      Strip(RewriteFrom(s, mode, prev, names, prefix), mode, prev, names, prefix)
      == s[if AtWord(s, mode) && Carries(s[..n], prev, s[n..], names, prefix) then |prefix| else 0..n]
         + Strip(RewriteFrom(s[n..], After(s, mode), LastInk(prev, s[..n]), names, prefix), After(s, mode), LastInk(prev, s[..n]), names, prefix)
  {
    var n := Piece(s, mode);
    var added := Inserted(s, mode, prev, names, prefix);
    Alike(s, mode, prev, names, prefix);
    DotsAlike(s[n..], After(s, mode), LastInk(prev, s[..n]), names, prefix);
    if AtWord(s, mode) { WordEnds(s, mode); }
    InkAlike(prev, added, s[..n]);
    assert added != "" ==> (added + s[..n])[|prefix|..] == s[..n];
    assert added == "" ==> added + s[..n] == s[..n];
  }

  /** Deleting the inserted prefixes gives the source back exactly when the source did not
      already use a prefixed name; otherwise too much is deleted. */
  lemma {:induction false} StripInverts(s: string, mode: Mode, prev: char, names: set<string>, prefix: string)
    requires IsPrefix(prefix)
    ensures var back := Strip(RewriteFrom(s, mode, prev, names, prefix), mode, prev, names, prefix);
      && (NoClash(s, mode, prev, names, prefix) ==> back == s)
      && (!NoClash(s, mode, prev, names, prefix) ==> |back| < |s|) && |back| <= |s|
    decreases |s|
  {
    if s != "" {
      var n := Piece(s, mode);
      var m', p' := After(s, mode), LastInk(prev, s[..n]);
      PieceStrips(s, mode, prev, names, prefix);
      StripInverts(s[n..], m', p', names, prefix);
      Recombine(s, n, if AtWord(s, mode) && Carries(s[..n], prev, s[n..], names, prefix) then |prefix| else 0,
                Strip(RewriteFrom(s[n..], m', p', names, prefix), m', p', names, prefix));
    }
  }

  lemma {:induction false} Recombine(s: string, n: nat, cut: nat, rest: string)
    requires cut <= n <= |s| && |rest| <= |s| - n
    ensures cut == 0 && rest == s[n..] ==> s[cut..n] + rest == s
    ensures |s[cut..n] + rest| == |s| - cut - (|s| - n - |rest|)
  {
  }

  // ---- rewriting twice ----

  lemma {:induction false} BracketsPass(word: string, rest: string, depth: int)
    requires forall i :: 0 <= i < |word| ==> word[i] != '[' && word[i] != ']'
    ensures SkipBrackets(word + rest, depth) == SkipBrackets(rest, depth)
  {
    if word == "" { assert word + rest == rest; }
    else { assert (word + rest)[1..] == word[1..] + rest; BracketsPass(word[1..], rest, depth); }
  }

  predicate Solid(piece: string) { piece != "" && forall i :: 0 <= i < |piece| - 1 ==> piece[i] != '[' && piece[i] != ']' }

  function DepthAfter(c: char, depth: int): int { if c == '[' then depth + 1 else if c == ']' then depth - 1 else depth }

  lemma {:induction false} PieceSkips(t: string, piece: string, rest: string, depth: int)
    requires Solid(piece) && t == piece + rest
    ensures var last := piece[|piece| - 1];
      SkipBrackets(t, depth) == if last == ']' && depth == 1 then rest else SkipBrackets(rest, DepthAfter(last, depth))
  {
    var k := |piece| - 1;
    var tail := [piece[k]] + rest;
    assert piece + rest == piece[..k] + tail;
    BracketsPass(piece[..k], tail, depth);
    assert tail[1..] == rest;
  }

  lemma {:induction false} PiecesAreSolid(s: string, mode: Mode, prev: char, names: set<string>, prefix: string)
    requires IsPrefix(prefix) && s != ""
    ensures Solid(s[..Piece(s, mode)]) && Solid(Inserted(s, mode, prev, names, prefix) + s[..Piece(s, mode)])
  {
    if AtWord(s, mode) {
      RunSpan(s);
      forall i | 0 <= i < |prefix| ensures prefix[i] != '[' && prefix[i] != ']' { assert IdentChar(prefix[i]); }
    }
  }

  /** Skipping past one piece, before and after rewriting. */
  lemma {:induction false} BracketsStep(s: string, mode: Mode, prev: char, names: set<string>, prefix: string, depth: int)
    requires IsPrefix(prefix) && s != ""
    ensures var n := Piece(s, mode);
      var rest := RewriteFrom(s[n..], After(s, mode), LastInk(prev, s[..n]), names, prefix);
      var t := RewriteFrom(s, mode, prev, names, prefix);
      if s[n - 1] == ']' && depth == 1 then SkipBrackets(s, depth) == s[n..] && SkipBrackets(t, depth) == rest
      else var d := DepthAfter(s[n - 1], depth); SkipBrackets(s, depth) == SkipBrackets(s[n..], d) && SkipBrackets(t, depth) == SkipBrackets(rest, d)
  {
    var n := Piece(s, mode);
    var added := Inserted(s, mode, prev, names, prefix);
    PiecesAreSolid(s, mode, prev, names, prefix);
    PieceSkips(s, s[..n], s[n..], depth);
    TextSplits(s, mode, prev, names, prefix);
    PieceSkips(RewriteFrom(s, mode, prev, names, prefix), added + s[..n],
               RewriteFrom(s[n..], After(s, mode), LastInk(prev, s[..n]), names, prefix), depth);
  }

  lemma {:induction false} TextSplits(s: string, mode: Mode, prev: char, names: set<string>, prefix: string)
    requires s != ""
    ensures var n := Piece(s, mode);
      RewriteFrom(s, mode, prev, names, prefix)
      == (Inserted(s, mode, prev, names, prefix) + s[..n]) + RewriteFrom(s[n..], After(s, mode), LastInk(prev, s[..n]), names, prefix)
  {
  }

  /** Bracket skipping crosses whole pieces, in code, comments and literals alike. */
  lemma {:induction false} BracketsAlike(s: string, mode: Mode, prev: char, names: set<string>, prefix: string, depth: int)
    returns (m: Mode, p: char)
    requires IsPrefix(prefix)
    ensures SkipBrackets(RewriteFrom(s, mode, prev, names, prefix), depth)
            == RewriteFrom(SkipBrackets(s, depth), m, p, names, prefix)
    decreases |s|
  {
    m, p := mode, prev;
    if s != "" {
      var n := Piece(s, mode);
      m, p := After(s, mode), LastInk(prev, s[..n]);
      BracketsStep(s, mode, prev, names, prefix, depth);
      if s[n - 1] != ']' || depth != 1 {
        m, p := BracketsAlike(s[n..], m, p, names, prefix, DepthAfter(s[n - 1], depth));
      }
    }
  }

  lemma {:induction false} QuotedStep(s: string, mode: Mode, prev: char, names: set<string>, prefix: string)
    requires s != "" && mode != InCode && IdentChar(s[0])
    ensures RewriteFrom(s, mode, prev, names, prefix)
            == [s[0]] + RewriteFrom(s[1..], mode, LastInk(prev, s[..1]), names, prefix)
  {
    assert Piece(s, mode) == 1 && s[..1] == [s[0]] && After(s, mode) == mode;
    assert "" + (s[..1] + RewriteFrom(s[1..], mode, LastInk(prev, s[..1]), names, prefix))
        == [s[0]] + RewriteFrom(s[1..], mode, LastInk(prev, s[..1]), names, prefix);
  }

  /** Inside a comment or literal a run of identifier characters is left alone. */
  lemma {:induction false} QuotedRun(s: string, mode: Mode, prev: char, names: set<string>, prefix: string)
    requires IsPrefix(prefix) && mode != InCode
    ensures var t := RewriteFrom(s, mode, prev, names, prefix); Run(t) == Run(s) && t[..Run(s)] == s[..Run(s)]
    decreases |s|
  {
    if s != "" && IdentChar(s[0]) {
      QuotedStep(s, mode, prev, names, prefix);
      QuotedRun(s[1..], mode, LastInk(prev, s[..1]), names, prefix);
      RunStep(s, s[0], s[1..]);
      RunStep(RewriteFrom(s, mode, prev, names, prefix), s[0], RewriteFrom(s[1..], mode, LastInk(prev, s[..1]), names, prefix));
    } else {
      SameStart(s, mode, prev, names, prefix);
    }
  }

  lemma {:induction false} RunStep(s: string, c: char, rest: string)
    requires IdentChar(c) && s == [c] + rest
    ensures Run(s) == 1 + Run(rest) && s[..Run(s)] == [c] + rest[..Run(rest)]
  {
    assert s[1..] == rest;
  }

  /** The names of `found` that do not already start with the prefix are among `names`. */
  predicate Known(found: set<string>, names: set<string>, prefix: string) {
    forall name :: name in found ==> name in names || prefix <= name
  }

  lemma {:induction false} LeadAlike(s: string, mode: Mode, prev: char, names: set<string>, prefix: string)
    requires IsPrefix(prefix)
    ensures Known(Lead(RewriteFrom(s, mode, prev, names, prefix)), Lead(s), prefix)
  {
    SameStart(s, mode, prev, names, prefix);
    if s != "" && mode != InCode {
      QuotedRun(s, mode, prev, names, prefix);
    } else if AtWord(s, mode) {
      Alike(s, mode, prev, names, prefix);
      assert Piece(s, mode) == Run(s) && Piece(RewriteFrom(s, mode, prev, names, prefix), mode) == Run(RewriteFrom(s, mode, prev, names, prefix));
    }
  }

  lemma {:induction false} KeywordAlike(s: string, mode: Mode, prev: char, names: set<string>, prefix: string)
    requires IsPrefix(prefix)
    ensures Known(NameAfterKeyword(RewriteFrom(s, mode, prev, names, prefix)), NameAfterKeyword(s), prefix)
  {
    var m, p := SpacesAlike(s, mode, prev, names, prefix);
    LeadAlike(SkipSpaces(s), m, p, names, prefix);
  }

  lemma {:induction false} HeadAlike(s: string, mode: Mode, prev: char, names: set<string>, prefix: string)
    requires IsPrefix(prefix)
    ensures Known(NameAfterHead(RewriteFrom(s, mode, prev, names, prefix)), NameAfterHead(s), prefix)
  {
    var m, p := SpacesAlike(s, mode, prev, names, prefix);
    var j := SkipSpaces(s);
    SameStart(j, m, p, names, prefix);
    LeadAlike(j, m, p, names, prefix);
    if j != "" && j[0] == '[' {
      var m', p' := BracketsAlike(j, m, p, names, prefix, 0);
      KeywordAlike(SkipBrackets(j, 0), m', p', names, prefix);
    }
  }

  /** A prefixed word is no keyword: keywords have no underscore. */
  lemma {:induction false} NoKeyword(prefix: string, word: string)
    requires IsPrefix(prefix)
    ensures prefix + word !in Heads && prefix + word !in Keywords
  {
    assert (prefix + word)[|prefix| - 1] == '_';
  }

  lemma {:induction false} NamedAlike(s: string, mode: Mode, prev: char, names: set<string>, prefix: string)
    requires IsPrefix(prefix) && AtWord(s, mode)
    ensures var t := RewriteFrom(s, mode, prev, names, prefix);
      var n := Piece(s, mode);
      var n' := Piece(t, mode);
      Known(NamedBy(t[..n'], t[n'..]), NamedBy(s[..n], s[n..]), prefix)
  {
    var n := Piece(s, mode);
    Alike(s, mode, prev, names, prefix);
    NoKeyword(prefix, s[..n]);
    assert "" + s[..n] == s[..n];
    KeywordAlike(s[n..], After(s, mode), LastInk(prev, s[..n]), names, prefix);
    HeadAlike(s[n..], After(s, mode), LastInk(prev, s[..n]), names, prefix);
  }

  lemma {:induction false} HereAlike(s: string, mode: Mode, prev: char, d: Depth, names: set<string>, prefix: string)
    requires IsPrefix(prefix) && s != ""
    ensures var t := RewriteFrom(s, mode, prev, names, prefix);
      t != "" && Known(CollectHere(t, mode, d), CollectHere(s, mode, d), prefix)
  {
    Alike(s, mode, prev, names, prefix);
    if AtWord(s, mode) { NamedAlike(s, mode, prev, names, prefix); }
  }

  lemma {:induction false} DepthAlike(s: string, mode: Mode, prev: char, d: Depth, names: set<string>, prefix: string)
    requires IsPrefix(prefix) && s != ""
    ensures var t := RewriteFrom(s, mode, prev, names, prefix);
      t != "" && DepthPast(t, mode, d) == DepthPast(s, mode, d)
  {
    SameStart(s, mode, prev, names, prefix);
  }

  /** Collecting from the rewritten text finds nothing new but prefixed names. */
  lemma {:induction false} CollectAlike(s: string, mode: Mode, prev: char, d: Depth, names: set<string>, prefix: string)
    requires IsPrefix(prefix)
    ensures Known(Collect(RewriteFrom(s, mode, prev, names, prefix), mode, d), Collect(s, mode, d), prefix)
    decreases |s|
  {
    if s != "" {
      var n := Piece(s, mode);
      Alike(s, mode, prev, names, prefix);
      HereAlike(s, mode, prev, d, names, prefix);
      DepthAlike(s, mode, prev, d, names, prefix);
      CollectAlike(s[n..], After(s, mode), LastInk(prev, s[..n]), DepthPast(s, mode, d), names, prefix);
    }
  }

  lemma {:induction false} NothingInserted(s: string, mode: Mode, prev: char, names: set<string>, again: set<string>, prefix: string)
    requires IsPrefix(prefix) && Known(again, names, prefix)
    ensures var t := RewriteFrom(s, mode, prev, names, prefix); RewriteFrom(t, mode, prev, again, prefix) == t
    decreases |s|
  {
    if s != "" {
      var n := Piece(s, mode);
      var m', p' := After(s, mode), LastInk(prev, s[..n]);
      Alike(s, mode, prev, names, prefix);
      DotsAlike(s[n..], m', p', names, prefix);
      if AtWord(s, mode) { WordEnds(s, mode); }
      InkAlike(prev, Inserted(s, mode, prev, names, prefix), s[..n]);
      NothingInserted(s[n..], m', p', names, again, prefix);
      StayPut(RewriteFrom(s, mode, prev, names, prefix), mode, prev, again, prefix);
    }
  }

  lemma {:induction false} StayPut(t: string, mode: Mode, prev: char, names: set<string>, prefix: string)
    requires t != "" && Inserted(t, mode, prev, names, prefix) == ""
    requires var n := Piece(t, mode);
      RewriteFrom(t[n..], After(t, mode), LastInk(prev, t[..n]), names, prefix) == t[n..]
    ensures RewriteFrom(t, mode, prev, names, prefix) == t
  {
    var n := Piece(t, mode);
    assert "" + (t[..n] + t[n..]) == t;
  }

  /** Rewriting twice is rewriting once. */
  lemma {:induction false} RewriteIsIdempotent(s: string, prefix: string)
    requires IsPrefix(prefix)
    ensures Rewrite(Rewrite(s, prefix), prefix) == Rewrite(s, prefix)
  {
    var names := Collect(s, InCode, Top);
    CollectAlike(s, InCode, ' ', Top, names, prefix);
    NothingInserted(s, InCode, ' ', names, Collect(Rewrite(s, prefix), InCode, Top), prefix);
  }
}
