/** Splitting, joining and replacing text. */
module Strings {

  /** The pieces of cur + t between occurrences of `sep` in t, taken from the left without
      overlap. An empty separator occurs nowhere. */
  function Cut(t: string, sep: string, cur: string): seq<string>
    decreases |t|
  {
    if t == "" then [cur]
    else if sep != "" && sep <= t then [cur] + Cut(t[|sep|..], sep, "")
    else Cut(t[1..], sep, cur + [t[0]])
  }

  function Split(t: string, sep: string): seq<string> { Cut(t, sep, "") }

  function Join(parts: seq<string>, sep: string): string {
    if parts == [] then "" else if |parts| == 1 then parts[0] else parts[0] + sep + Join(parts[1..], sep)
  }

  function Replace(t: string, what: string, next: string): string
    decreases |t|
  {
    if t == "" then ""
    else if what != "" && what <= t then next + Replace(t[|what|..], what, next)
    else [t[0]] + Replace(t[1..], what, next)
  }

  /** How many occurrences the counting pass finds. */
  function Count(t: string, what: string): nat
    decreases |t|
  {
    if t == "" then 0
    else if what != "" && what <= t then 1 + Count(t[|what|..], what)
    else Count(t[1..], what)
  }

  // ---- the laws ----

  lemma {:induction false} CutIsNotEmpty(t: string, sep: string, cur: string)
    ensures Cut(t, sep, cur) != []
    decreases |t|
  {
    if t != "" && !(sep != "" && sep <= t) { CutIsNotEmpty(t[1..], sep, cur + [t[0]]); }
  }

  lemma {:induction false} JoinFront(first: string, rest: seq<string>, sep: string)
    requires rest != []
    ensures Join([first] + rest, sep) == first + sep + Join(rest, sep)
  {
    assert ([first] + rest)[1..] == rest;
  }

  /** Replacing is joining the pieces with the replacement. */
  lemma {:induction false} CutThenJoin(t: string, sep: string, next: string, cur: string)
    ensures Join(Cut(t, sep, cur), next) == cur + Replace(t, sep, next)
    decreases |t|
  {
    if t == "" {
    } else if sep != "" && sep <= t {
      CutThenJoin(t[|sep|..], sep, next, "");
      CutIsNotEmpty(t[|sep|..], sep, "");
      JoinFront(cur, Cut(t[|sep|..], sep, ""), next);
      assert cur + next + ("" + Replace(t[|sep|..], sep, next)) == cur + (next + Replace(t[|sep|..], sep, next));
    } else {
      CutThenJoin(t[1..], sep, next, cur + [t[0]]);
      assert (cur + [t[0]]) + Replace(t[1..], sep, next) == cur + ([t[0]] + Replace(t[1..], sep, next));
    }
  }

  lemma {:induction false} ReplaceIsJoinOfSplit(t: string, what: string, next: string)
    ensures Replace(t, what, next) == Join(Split(t, what), next)
  {
    CutThenJoin(t, what, next, "");
    assert "" + Replace(t, what, next) == Replace(t, what, next);
  }

  lemma {:induction false} ReplaceBySelf(t: string, what: string)
    ensures Replace(t, what, what) == t
    decreases |t|
  {
    if t != "" {
      if what != "" && what <= t { ReplaceBySelf(t[|what|..], what); assert what + t[|what|..] == t; }
      else { ReplaceBySelf(t[1..], what); }
    }
  }

  /** Joining the pieces with the separator gives the text back, whatever both are. */
  lemma {:induction false} JoinInvertsSplit(t: string, sep: string)
    ensures Join(Split(t, sep), sep) == t
  {
    ReplaceIsJoinOfSplit(t, sep, sep);
    ReplaceBySelf(t, sep);
  }

  /** The counting pass and the writing pass agree, so the buffer length is exact. */
  lemma {:induction false} ReplaceLength(t: string, what: string, next: string)
    ensures |Replace(t, what, next)| == |t| + Count(t, what) * (|next| - |what|)
    decreases |t|
  {
    if t != "" {
      if what != "" && what <= t {
        ReplaceLength(t[|what|..], what, next);
        assert (1 + Count(t[|what|..], what)) * (|next| - |what|) == |next| - |what| + Count(t[|what|..], what) * (|next| - |what|);
      } else {
        ReplaceLength(t[1..], what, next);
      }
    }
  }

  // ---- what the pieces are ----

  predicate HoldsAt(what: string, t: string, i: int) { 0 <= i <= |t| - |what| && t[i..i + |what|] == what }

  ghost predicate Occurs(what: string, t: string) { exists i :: HoldsAt(what, t, i) }

  /** Nothing starts inside cur: what `Cut` has already read holds no occurrence. */
  ghost predicate Clear(cur: string, t: string, sep: string) {
    forall i :: 0 <= i < |cur| ==> !HoldsAt(sep, cur + t, i)
  }

  lemma {:induction false} PiecesAreClear(t: string, sep: string, cur: string)
    requires sep != "" && Clear(cur, t, sep)
    ensures forall piece :: piece in Cut(t, sep, cur) ==> !Occurs(sep, piece)
    decreases |t|
  {
    CurIsClear(cur, t, sep);
    if t == "" {
    } else if sep <= t {
      PiecesAreClear(t[|sep|..], sep, "");
    } else {
      assert (cur + [t[0]]) + t[1..] == cur + t;
      assert |sep| <= |t| ==> (cur + t)[|cur|..|cur| + |sep|] == t[..|sep|];
      PiecesAreClear(t[1..], sep, cur + [t[0]]);
    }
  }

  lemma {:induction false} CurIsClear(cur: string, t: string, sep: string)
    requires sep != "" && Clear(cur, t, sep)
    ensures !Occurs(sep, cur)
  {
    forall i ensures !HoldsAt(sep, cur, i) {
      if HoldsAt(sep, cur, i) {
        assert cur[i..i + |sep|] == (cur + t)[i..i + |sep|];
        assert HoldsAt(sep, cur + t, i);
      }
    }
  }

  /** No piece holds the separator, so no separator survives splitting. */
  lemma {:induction false} SplitLeavesNone(t: string, sep: string)
    requires sep != ""
    ensures forall piece :: piece in Split(t, sep) ==> !Occurs(sep, piece)
  {
    PiecesAreClear(t, sep, "");
  }

  // ---- splitting what was joined ----

  lemma {:induction false} CutPlain(piece: string, t: string, sep: char, cur: string)
    requires sep !in piece
    ensures Cut(piece + t, [sep], cur) == Cut(t, [sep], cur + piece)
    decreases |piece|
  {
    if piece == "" {
      assert piece + t == t && cur + piece == cur;
    } else {
      assert (piece + t)[0] == piece[0] && piece[0] in piece;
      assert (piece + t)[1..] == piece[1..] + t && (cur + [piece[0]]) + piece[1..] == cur + piece;
      CutPlain(piece[1..], t, sep, cur + [piece[0]]);
    }
  }

  lemma {:induction false} SplitFirst(first: string, rest: string, sep: char)
    requires sep !in first
    ensures Split(first + ([sep] + rest), [sep]) == [first] + Split(rest, [sep])
    ensures Split(first, [sep]) == [first]
  {
    assert "" + first == first && first + "" == first && ([sep] + rest)[1..] == rest;
    CutPlain(first, [sep] + rest, sep, "");
    CutPlain(first, "", sep, "");
  }

  lemma {:induction false} SplitOfJoin(parts: seq<string>, sep: char)
    requires parts != [] && forall i :: 0 <= i < |parts| ==> sep !in parts[i]
    ensures Split(Join(parts, [sep]), [sep]) == parts
    decreases |parts|
  {
    if |parts| == 1 {
      SplitFirst(parts[0], "", sep);
    } else {
      var rest := Join(parts[1..], [sep]);
      assert parts[0] + [sep] + rest == parts[0] + ([sep] + rest);
      SplitFirst(parts[0], rest, sep);
      SplitOfJoin(parts[1..], sep);
    }
  }

  /** With a one-character separator, splitting inverts joining exactly for the nonempty lists
      whose parts do not hold it. */
  lemma {:induction false} SplitInvertsJoinExactly(parts: seq<string>, sep: char)
    ensures Split(Join(parts, [sep]), [sep]) == parts <==> parts != [] && forall i :: 0 <= i < |parts| ==> sep !in parts[i]
  {
    if parts != [] && forall i :: 0 <= i < |parts| ==> sep !in parts[i] {
      SplitOfJoin(parts, sep);
    } else if Split(Join(parts, [sep]), [sep]) == parts {
      CutIsNotEmpty(Join(parts, [sep]), [sep], "");
      SplitLeavesNone(Join(parts, [sep]), [sep]);
      forall i | 0 <= i < |parts| ensures sep !in parts[i] {
        assert parts[i] in parts;
        forall k | 0 <= k < |parts[i]| ensures parts[i][k] != sep {
          assert !HoldsAt([sep], parts[i], k);
          assert parts[i][k..k + 1] == [parts[i][k]];
        }
      }
    }
  }

  // ---- which occurrences are taken ----

  /** The first occurrence of `what` in t is at k. */
  predicate FirstAt(what: string, t: string, k: int) {
    HoldsAt(what, t, k) && forall i :: 0 <= i < k ==> !HoldsAt(what, t, i)
  }

  lemma {:induction false} FirstAtTail(what: string, t: string, k: int)
    requires t != "" && k > 0 && FirstAt(what, t, k)
    ensures FirstAt(what, t[1..], k - 1) && !(what <= t)
  {
    assert !HoldsAt(what, t, 0);
    assert t[1..][k - 1..k - 1 + |what|] == t[k..k + |what|];
    forall i | 0 <= i < k - 1 ensures !HoldsAt(what, t[1..], i) {
      if i + |what| <= |t| - 1 { assert t[1..][i..i + |what|] == t[i + 1..i + 1 + |what|]; }
      assert !HoldsAt(what, t, i + 1);
    }
  }

  lemma {:induction false} CutAtFirst(t: string, sep: string, cur: string, k: int)
    requires sep != "" && FirstAt(sep, t, k)
    ensures Cut(t, sep, cur) == [cur + t[..k]] + Split(t[k + |sep|..], sep)
    decreases |t|
  {
    if k == 0 {
      assert sep <= t && cur + t[..0] == cur;
    } else {
      FirstAtTail(sep, t, k);
      CutAtFirst(t[1..], sep, cur + [t[0]], k - 1);
      assert cur + [t[0]] + t[1..][..k - 1] == cur + t[..k];
      assert t[1..][k - 1 + |sep|..] == t[k + |sep|..];
    }
  }

  lemma {:induction false} CutNowhere(t: string, sep: string, cur: string)
    requires sep == "" || !Occurs(sep, t)
    ensures Cut(t, sep, cur) == [cur + t]
    decreases |t|
  {
    if t == "" {
      assert cur + "" == cur;
    } else {
      if sep != "" {
        assert !HoldsAt(sep, t, 0);
        forall i ensures !HoldsAt(sep, t[1..], i) {
          if 0 <= i <= |t| - 1 - |sep| { assert t[1..][i..i + |sep|] == t[i + 1..i + 1 + |sep|]; }
          assert !HoldsAt(sep, t, i + 1);
        }
      }
      CutNowhere(t[1..], sep, cur + [t[0]]);
      assert cur + [t[0]] + t[1..] == cur + t;
    }
  }

  /** The first piece ends where the separator first occurs, and the rest is split alike; without
      an occurrence, or with an empty separator, the text is the one piece. */
  lemma {:induction false} SplitsAtFirst(t: string, sep: string)
    ensures sep == "" || !Occurs(sep, t) ==> Split(t, sep) == [t]
    ensures sep != "" ==> forall k :: FirstAt(sep, t, k) ==> Split(t, sep) == [t[..k]] + Split(t[k + |sep|..], sep)
  {
    assert "" + t == t;
    if sep == "" || !Occurs(sep, t) { CutNowhere(t, sep, ""); }
    if sep != "" {
      forall k | FirstAt(sep, t, k) ensures Split(t, sep) == [t[..k]] + Split(t[k + |sep|..], sep) {
        CutAtFirst(t, sep, "", k);
        assert "" + t[..k] == t[..k];
      }
    }
  }
}
