/** Types written as bracketed text, and the recognisers and splitters that read it back. */
module TypeStrings {
  import opened Wrappers

  datatype Ty =
    | Atom(name: string)
    | Arr(elem: Ty)
    | Map(key: Ty, value: Ty)
    | Ref(target: Ty)
    | Tsk(target: Ty)
    | Fn(input: Ty, output: Ty)

  predicate IsIdent(name: string) {
    name != "" && forall i :: 0 <= i < |name| ==> name[i] !in {'[', ']', ',', '-', '>'}
  }

  predicate WellNamed(t: Ty) {
    match t
    case Atom(name) => IsIdent(name)
    case Arr(e) => WellNamed(e)
    case Map(k, v) => WellNamed(k) && WellNamed(v)
    case Ref(e) => WellNamed(e)
    case Tsk(e) => WellNamed(e)
    case Fn(i, o) => WellNamed(i) && WellNamed(o)
  }

  function Brackets(head: string, inside: string): string { head + ("[" + (inside + "]")) }

  function Show(t: Ty): string {
    match t
    case Atom(name) => name
    case Arr(e) => Brackets("ARR", Show(e))
    case Map(k, v) => Brackets("MAP", Show(k) + ("," + Show(v)))
    case Ref(e) => Brackets("REF", Show(e))
    case Tsk(e) => Brackets("TSK", Show(e))
    case Fn(i, o) => Brackets("FN", Show(i) + ("->" + Show(o)))
  }

  // ---- reading ----

  predicate Bracketed(head: string, t: string) { t != "" && head <= t && t[|t| - 1] == ']' }

  /** What stands between a four-character head and the closing bracket. */
  function Inside(t: string): string
    requires |t| >= 5
  {
    t[4..|t| - 1]
  }

  function Deeper(c: char, depth: int): int { if c == '[' then depth + 1 else if c == ']' then depth - 1 else depth }

  /** The first comma outside brackets. */
  function FindComma(s: string, depth: int): Option<nat> {
    if s == "" then None
    else if s[0] == ',' && depth == 0 then Some(0)
    else Later(1, FindComma(s[1..], Deeper(s[0], depth)))
  }

  /** The first arrow outside brackets. */
  function FindArrow(s: string, depth: int): Option<nat> {
    if |s| < 2 then None
    else if s[0] == '-' && s[1] == '>' && depth == 0 then Some(0)
    else Later(1, FindArrow(s[1..], Deeper(s[0], depth)))
  }

  function Later(n: nat, found: Option<nat>): Option<nat> { if found.None? then None else Some(n + found.value) }

  function SplitMap(t: string): Option<(string, string)>
    requires Bracketed("MAP[", t)
  {
    var inside := Inside(t);
    match FindComma(inside, 0)
    case None => None
    case Some(at) => CommaInside(inside, 0); Some((inside[..at], inside[at + 1..]))
  }

  function SplitFn(t: string): Option<(string, string)>
    requires Bracketed("FN[", t)
  {
    var inside := t[3..|t| - 1];
    match FindArrow(inside, 0)
    case None => None
    case Some(at) => ArrowInside(inside, 0); Some((inside[..at], inside[at + 2..]))
  }

  lemma {:induction false} CommaInside(s: string, depth: int)
    ensures FindComma(s, depth).Some? ==> FindComma(s, depth).value < |s|
  {
    if s != "" { CommaInside(s[1..], Deeper(s[0], depth)); }
  }

  lemma {:induction false} ArrowInside(s: string, depth: int)
    ensures FindArrow(s, depth).Some? ==> FindArrow(s, depth).value + 2 <= |s|
  {
    if s != "" { ArrowInside(s[1..], Deeper(s[0], depth)); }
  }

  // ---- scanning past a type ----

  lemma {:induction false} CommaSkipsWord(word: string, rest: string, depth: int)
    requires depth > 0 || ',' !in word
    requires forall i :: 0 <= i < |word| ==> word[i] != '[' && word[i] != ']'
    ensures FindComma(word + rest, depth) == Later(|word|, FindComma(rest, depth))
  {
    if word == "" { assert word + rest == rest; }
    else {
      assert (word + rest)[1..] == word[1..] + rest;
      CommaSkipsWord(word[1..], rest, depth);
    }
  }

  lemma {:induction false} ArrowSkipsWord(word: string, rest: string, depth: int)
    requires depth > 0 || '-' !in word
    requires forall i :: 0 <= i < |word| ==> word[i] != '[' && word[i] != ']'
    ensures FindArrow(word + rest, depth) == Later(|word|, FindArrow(rest, depth))
  {
    if word == "" { assert word + rest == rest; }
    else {
      assert (word + rest)[1..] == word[1..] + rest;
      ArrowSkipsWord(word[1..], rest, depth);
    }
  }

  /** Scanning passes over `s` and goes on with `rest`, at depth `to`. */
  predicate Passes(s: string, rest: string, depth: int, to: int) {
    && FindComma(s + rest, depth) == Later(|s|, FindComma(rest, to))
    && FindArrow(s + rest, depth) == Later(|s|, FindArrow(rest, to))
  }

  lemma {:induction false} PassesWord(word: string, rest: string, depth: int)
    requires depth > 0 || IsIdent(word)
    requires forall i :: 0 <= i < |word| ==> word[i] != '[' && word[i] != ']'
    ensures Passes(word, rest, depth, depth)
  {
    CommaSkipsWord(word, rest, depth);
    ArrowSkipsWord(word, rest, depth);
  }

  lemma {:induction false} PassesBracket(c: char, rest: string, depth: int)
    requires c == '[' || c == ']'
    ensures Passes([c], rest, depth, Deeper(c, depth))
  {
    assert ([c] + rest)[1..] == rest;
  }

  lemma {:induction false} PassesBoth(a: string, b: string, rest: string, depth: int, mid: int, to: int)
    requires Passes(a, b + rest, depth, mid) && Passes(b, rest, mid, to)
    ensures Passes(a + b, rest, depth, to)
  {
    assert (a + b) + rest == a + (b + rest);
  }

  lemma {:induction false} PassesBrackets(head: string, inside: string, rest: string, depth: int)
    requires IsIdent(head) && Passes(inside, "]" + rest, depth + 1, depth + 1)
    ensures Passes(Brackets(head, inside), rest, depth, depth)
  {
    PassesBracket(']', rest, depth + 1);
    PassesBoth(inside, "]", rest, depth + 1, depth + 1, depth);
    PassesBracket('[', inside + "]" + rest, depth);
    PassesBoth("[", inside + "]", rest, depth, depth + 1, depth);
    PassesWord(head, "[" + (inside + "]") + rest, depth);
    PassesBoth(head, "[" + (inside + "]"), rest, depth, depth, depth);
  }

  /** A type's brackets balance, and its commas and arrows are all inside them. */
  lemma {:induction false} PassesType(t: Ty, rest: string, depth: nat)
    requires WellNamed(t)
    ensures Passes(Show(t), rest, depth, depth)
    decreases t, 0
  {
    match t
    case Atom(name) => PassesWord(name, rest, depth);
    case Arr(e) => PassesType(e, "]" + rest, depth + 1); PassesBrackets("ARR", Show(e), rest, depth);
    case Ref(e) => PassesType(e, "]" + rest, depth + 1); PassesBrackets("REF", Show(e), rest, depth);
    case Tsk(e) => PassesType(e, "]" + rest, depth + 1); PassesBrackets("TSK", Show(e), rest, depth);
    case Map(k, v) =>
      PassesType(v, "]" + rest, depth + 1);
      PassesType(k, "," + Show(v) + ("]" + rest), depth + 1);
      PassesPair("MAP", Show(k), ",", Show(v), rest, depth);
    case Fn(i, o) =>
      PassesType(o, "]" + rest, depth + 1);
      PassesType(i, "->" + Show(o) + ("]" + rest), depth + 1);
      PassesPair("FN", Show(i), "->", Show(o), rest, depth);
  }

  lemma {:induction false} PassesPair(head: string, a: string, mid: string, b: string, rest: string, depth: nat)
    requires IsIdent(head) && (mid == "," || mid == "->")
    requires Passes(a, mid + b + ("]" + rest), depth + 1, depth + 1) && Passes(b, "]" + rest, depth + 1, depth + 1)
    ensures Passes(Brackets(head, a + (mid + b)), rest, depth, depth)
  {
    PassesWord(mid, b + ("]" + rest), depth + 1);
    PassesBoth(mid, b, "]" + rest, depth + 1, depth + 1, depth + 1);
    PassesBoth(a, mid + b, "]" + rest, depth + 1, depth + 1, depth + 1);
    PassesBrackets(head, a + (mid + b), rest, depth);
  }

  // ---- unique reading ----

  lemma {:induction false} BracketsRead(head: string, inside: string)
    ensures Bracketed(head + "[", Brackets(head, inside))
    ensures Brackets(head, inside)[|head| + 1..|Brackets(head, inside)| - 1] == inside
  {
  }

  const Heads := {"ARR", "MAP", "REF", "TSK", "FN"}

  /** The heads differ in their first letter. */
  lemma {:induction false} HeadsDiffer(head: string, inside: string)
    requires head in Heads
    ensures forall other :: other in Heads ==> (Bracketed(other + "[", Brackets(head, inside)) <==> other == head)
  {
    BracketsRead(head, inside);
    var t := Brackets(head, inside);
    assert t[0] == head[0];
    forall other | other in Heads && other != head ensures !(other + "[" <= t) {
      assert (other + "[")[0] == other[0] != head[0];
    }
  }

  /** Each recogniser accepts exactly the types of its own constructor. */
  lemma {:induction false} Recognisers(t: Ty)
    requires WellNamed(t)
    ensures forall head :: head in Heads ==> (Bracketed(head + "[", Show(t)) <==> Constructor(t) == head)
  {
    match t
    case Atom(name) => assert name[|name| - 1] != ']';
    case Arr(e) => HeadsDiffer("ARR", Show(e));
    case Map(k, v) => HeadsDiffer("MAP", Show(k) + ("," + Show(v)));
    case Ref(e) => HeadsDiffer("REF", Show(e));
    case Tsk(e) => HeadsDiffer("TSK", Show(e));
    case Fn(i, o) => HeadsDiffer("FN", Show(i) + ("->" + Show(o)));
  }

  function Constructor(t: Ty): string {
    match t
    case Atom(_) => "" case Arr(_) => "ARR" case Map(_, _) => "MAP"
    case Ref(_) => "REF" case Tsk(_) => "TSK" case Fn(_, _) => "FN"
  }

  lemma {:induction false} CommaAfter(k: Ty, v: Ty)
    requires WellNamed(k)
    ensures FindComma(Show(k) + ("," + Show(v)), 0) == Some(|Show(k)|)
  {
    PassesType(k, "," + Show(v), 0);
  }

  lemma {:induction false} ArrowAfter(i: Ty, o: Ty)
    requires WellNamed(i)
    ensures FindArrow(Show(i) + ("->" + Show(o)), 0) == Some(|Show(i)|)
  {
    PassesType(i, "->" + Show(o), 0);
  }

  lemma {:induction false} Cut(a: string, mid: string, b: string)
    ensures (a + (mid + b))[..|a|] == a && (a + (mid + b))[|a| + |mid|..] == b
  {
  }

  /** Splitting gives back exactly what the constructors joined, however the parts nest. */
  lemma {:induction false} MapSplits(k: Ty, v: Ty)
    requires WellNamed(k) && WellNamed(v)
    ensures Bracketed("MAP[", Show(Map(k, v))) && SplitMap(Show(Map(k, v))) == Some((Show(k), Show(v)))
  {
    BracketsRead("MAP", Show(k) + ("," + Show(v)));
    CommaAfter(k, v);
    Cut(Show(k), ",", Show(v));
  }

  lemma {:induction false} FnSplits(i: Ty, o: Ty)
    requires WellNamed(i) && WellNamed(o)
    ensures Bracketed("FN[", Show(Fn(i, o))) && SplitFn(Show(Fn(i, o))) == Some((Show(i), Show(o)))
  {
    BracketsRead("FN", Show(i) + ("->" + Show(o)));
    ArrowAfter(i, o);
    Cut(Show(i), "->", Show(o));
  }

  lemma {:induction false} SameConstructor(t: Ty, u: Ty)
    requires WellNamed(t) && WellNamed(u) && Show(t) == Show(u)
    ensures Constructor(t) == Constructor(u)
  {
    Recognisers(t);
    Recognisers(u);
    assert Constructor(t) in Heads + {""} && Constructor(u) in Heads + {""};
  }

  /** Equal text means equal types. */
  lemma {:induction false} ShowIsInjective(t: Ty, u: Ty)
    requires WellNamed(t) && WellNamed(u) && Show(t) == Show(u)
    ensures t == u
    decreases t
  {
    SameConstructor(t, u);
    match t
    case Atom(_) =>
    case Arr(e) => BracketsRead("ARR", Show(e)); BracketsRead("ARR", Show(u.elem)); ShowIsInjective(e, u.elem);
    case Ref(e) => BracketsRead("REF", Show(e)); BracketsRead("REF", Show(u.target)); ShowIsInjective(e, u.target);
    case Tsk(e) => BracketsRead("TSK", Show(e)); BracketsRead("TSK", Show(u.target)); ShowIsInjective(e, u.target);
    case Map(k, v) =>
      MapSplits(k, v);
      MapSplits(u.key, u.value);
      ShowIsInjective(k, u.key);
      ShowIsInjective(v, u.value);
    case Fn(i, o) =>
      FnSplits(i, o);
      FnSplits(u.input, u.output);
      ShowIsInjective(i, u.input);
      ShowIsInjective(o, u.output);
  }

  // ---- the splitting loops ----

  method SplitMapType(t: string) returns (parts: Option<(string, string)>)
    ensures parts == if Bracketed("MAP[", t) then SplitMap(t) else None
  {
    if !Bracketed("MAP[", t) { return None; }
    var end := |t| - 1;
    var p, depth := 4, 0;
    ghost var found := FindComma(Inside(t), 0);
    while p < end
      invariant 4 <= p <= end
      invariant found == Later(p - 4, FindComma(t[p..end], depth))
      decreases end - p
    {
      assert t[p..end][1..] == t[p + 1..end];
      if t[p] == '[' { depth := depth + 1; }
      else if t[p] == ']' { depth := depth - 1; }
      else if t[p] == ',' && depth == 0 {
        assert Inside(t)[..p - 4] == t[4..p] && Inside(t)[p - 3..] == t[p + 1..end];
        return Some((t[4..p], t[p + 1..end]));
      }
      p := p + 1;
    }
    parts := None;
  }

  method SplitFnType(t: string) returns (parts: Option<(string, string)>)
    requires Bracketed("FN[", t)
    ensures parts == SplitFn(t)
  {
    var end := |t| - 1;
    var p, depth := 3, 0;
    ghost var found := FindArrow(t[3..end], 0);
    while p < end - 1
      invariant 3 <= p <= end
      invariant found == Later(p - 3, FindArrow(t[p..end], depth))
      decreases end - p
    {
      assert t[p..end][1..] == t[p + 1..end];
      if t[p] == '[' { depth := depth + 1; }
      else if t[p] == ']' { depth := depth - 1; }
      else if t[p] == '-' && t[p + 1] == '>' && depth == 0 {
        assert t[3..end][..p - 3] == t[3..p] && t[3..end][p - 1..] == t[p + 2..end];
        return Some((t[3..p], t[p + 2..end]));
      }
      p := p + 1;
    }
    parts := None;
  }
}
