/** Lexical path normalisation, and the parent and name it is taken apart into. */
module Paths {

  predicate IsSep(c: char) { c == '/' || c == '\\' }

  predicate IsLetter(c: char) { 'a' <= c <= 'z' || 'A' <= c <= 'Z' }

  /** Length of the leading run without separators. */
  function Run(s: string): (n: nat)
    ensures n <= |s|
  {
    if s == "" || IsSep(s[0]) then 0 else 1 + Run(s[1..])
  }

  function Split(s: string): seq<string>
    decreases |s|
  {
    if s == "" then []
    else if IsSep(s[0]) then Split(s[1..])
    else [s[..Run(s)]] + Split(s[Run(s)..])
  }

  function Push(stack: seq<string>, part: string): seq<string> {
    if part == "." then stack
    else if part == ".." && stack != [] && stack[|stack| - 1] != ".." then stack[..|stack| - 1]
    else stack + [part]
  }

  function Resolve(parts: seq<string>, stack: seq<string>): seq<string>
    decreases |parts|
  {
    if parts == [] then stack else Resolve(parts[1..], Push(stack, parts[0]))
  }

  function JoinParts(parts: seq<string>): string {
    if parts == [] then "" else if |parts| == 1 then parts[0] else JoinParts(parts[..|parts| - 1]) + "/" + parts[|parts| - 1]
  }

  /** A letter and a colon. */
  predicate HasDrive(s: string) { |s| >= 2 && IsLetter(s[0]) && s[1] == ':' }

  /** A drive always counts as absolute, whatever follows it. */
  predicate IsAbsolute(s: string) { s != "" && (IsSep(s[0]) || HasDrive(s)) }

  function Drive(s: string): string { if HasDrive(s) then s[..2] else "" }

  function Parts(s: string): seq<string> { Resolve(Split(if HasDrive(s) then s[2..] else s), []) }

  function Normalize(s: string): string {
    var text := Drive(s) + (if IsAbsolute(s) then "/" else "") + JoinParts(Parts(s));
    if text == "" then "." else text
  }

  // ---- splitting ----

  predicate IsPart(part: string) { part != "" && forall i :: 0 <= i < |part| ==> !IsSep(part[i]) }

  lemma {:induction false} RunSpan(s: string)
    ensures forall i :: 0 <= i < Run(s) ==> !IsSep(s[i])
    ensures Run(s) < |s| ==> IsSep(s[Run(s)])
  {
    if s != "" && !IsSep(s[0]) { RunSpan(s[1..]); }
  }

  lemma {:induction false} RunOf(part: string, rest: string)
    requires (forall i :: 0 <= i < |part| ==> !IsSep(part[i])) && (rest == "" || IsSep(rest[0]))
    ensures Run(part + rest) == |part|
  {
    if part == "" { assert part + rest == rest; }
    else { assert (part + rest)[1..] == part[1..] + rest; RunOf(part[1..], rest); }
  }

  lemma {:induction false} SplitPart(part: string, rest: string)
    requires IsPart(part) && (rest == "" || IsSep(rest[0]))
    ensures Split(part + rest) == [part] + Split(rest)
  {
    RunOf(part, rest);
    assert (part + rest)[..|part|] == part && (part + rest)[|part|..] == rest;
  }

  lemma {:induction false} FirstBeforeSep(a: string, tail: string, n: nat)
    requires 0 < n <= |a| && IsPart(a[..n]) && tail != "" && IsSep(tail[0]) && (n < |a| ==> IsSep(a[n]))
    ensures Split(a + tail) == [a[..n]] + Split(a[n..] + tail)
  {
    assert a + tail == a[..n] + (a[n..] + tail);
    SplitPart(a[..n], a[n..] + tail);
  }

  /** A separator cuts the list of parts in two. */
  lemma {:induction false} SplitAtSep(a: string, b: string)
    ensures Split(a + "/" + b) == Split(a) + Split(b)
    decreases |a|
  {
    var tail := "/" + b;
    assert a + "/" + b == a + tail;
    if a == "" {
      assert a + tail == tail && tail[1..] == b;
    } else if IsSep(a[0]) {
      assert (a + tail)[1..] == a[1..] + "/" + b;
      SplitAtSep(a[1..], b);
    } else {
      var n := Run(a);
      RunSpan(a);
      SplitAtSep(a[n..], b);
      FirstBeforeSep(a, tail, n);
      assert a[n..] + "/" + b == a[n..] + tail;
    }
  }

  lemma {:induction false} SplitGivesParts(s: string)
    ensures forall i :: 0 <= i < |Split(s)| ==> IsPart(Split(s)[i])
    decreases |s|
  {
    if s != "" {
      if IsSep(s[0]) { SplitGivesParts(s[1..]); } else { RunSpan(s); SplitGivesParts(s[Run(s)..]); }
    }
  }

  lemma {:induction false} SplitInvertsJoin(parts: seq<string>)
    requires forall i :: 0 <= i < |parts| ==> IsPart(parts[i])
    ensures Split(JoinParts(parts)) == parts
    decreases |parts|
  {
    if parts != [] {
      var k := |parts| - 1;
      assert parts[k] + "" == parts[k];
      SplitPart(parts[k], "");
      if k > 0 {
        SplitInvertsJoin(parts[..k]);
        SplitAtSep(JoinParts(parts[..k]), parts[k]);
        assert parts[..k] + [parts[k]] == parts;
      } else {
        assert parts == [parts[0]];
      }
    }
  }

  // ---- resolving ----

  lemma {:induction false} ResolveAppend(a: seq<string>, b: seq<string>, stack: seq<string>)
    ensures Resolve(a + b, stack) == Resolve(b, Resolve(a, stack))
    decreases |a|
  {
    if a == [] { assert a + b == b; }
    else { assert (a + b)[1..] == a[1..] + b; ResolveAppend(a[1..], b, Push(stack, a[0])); }
  }

  /** No ".", and ".." only where nothing but ".." comes before. */
  predicate Settled(stack: seq<string>) {
    && (forall i :: 0 <= i < |stack| ==> IsPart(stack[i]) && stack[i] != ".")
    && (forall i :: 0 < i < |stack| && stack[i] == ".." ==> stack[i - 1] == "..")
  }

  lemma {:induction false} ResolveSettles(parts: seq<string>, stack: seq<string>)
    requires Settled(stack) && forall i :: 0 <= i < |parts| ==> IsPart(parts[i])
    ensures Settled(Resolve(parts, stack))
    decreases |parts|
  {
    if parts != [] { ResolveSettles(parts[1..], Push(stack, parts[0])); }
  }

  lemma {:induction false} SettledStays(stack: seq<string>, k: nat)
    requires Settled(stack) && k <= |stack|
    ensures Resolve(stack[k..], stack[..k]) == stack
    decreases |stack| - k
  {
    if k < |stack| {
      assert stack[k..][1..] == stack[k + 1..] && stack[..k] + [stack[k]] == stack[..k + 1];
      SettledStays(stack, k + 1);
    }
  }

  lemma {:induction false} PartsSettled(s: string)
    ensures Settled(Parts(s))
  {
    var body := if HasDrive(s) then s[2..] else s;
    SplitGivesParts(body);
    ResolveSettles(Split(body), []);
  }

  /** Resolving the text of settled parts, after an optional root, gives them back. */
  lemma {:induction false} PartsOfText(root: string, parts: seq<string>)
    requires Settled(parts) && (root == "" || root == "/")
    ensures Resolve(Split(root + JoinParts(parts)), []) == parts
  {
    SplitInvertsJoin(parts);
    assert (root + JoinParts(parts)) == if root == "" then JoinParts(parts) else "/" + JoinParts(parts);
    assert root == "/" ==> (root + JoinParts(parts))[1..] == JoinParts(parts);
    SettledStays(parts, 0);
    assert parts[0..] == parts && parts[..0] == [];
  }

  // ---- the text of settled parts ----

  lemma {:induction false} JoinFront(parts: seq<string>)
    requires |parts| > 1
    ensures JoinParts(parts) == parts[0] + ("/" + JoinParts(parts[1..]))
    decreases |parts|
  {
    var k := |parts| - 1;
    if k > 1 {
      JoinFront(parts[..k]);
      assert parts[1..][..k - 1] == parts[..k][1..];
    }
  }

  lemma {:induction false} JoinStarts(parts: seq<string>)
    requires parts != []
    ensures parts[0] <= JoinParts(parts)
    ensures JoinParts(parts)[|parts[0]|..] == if |parts| == 1 then "" else "/" + JoinParts(parts[1..])
  {
    if |parts| > 1 { JoinFront(parts); }
  }

  /** Relative paths whose first part reads as a drive. */
  predicate Driven(s: string) { !IsAbsolute(s) && Parts(s) != [] && HasDrive(Parts(s)[0]) }

  /** The text in front of the joined parts. */
  function Root(s: string): string { Drive(s) + (if IsAbsolute(s) then "/" else "") }

  lemma {:induction false} NormalText(s: string)
    ensures Normalize(s) == if Root(s) == "" && Parts(s) == [] then "." else Root(s) + JoinParts(Parts(s))
    ensures !HasDrive(s) ==> (Root(s) == if IsAbsolute(s) then "/" else "")
  {
    PartsSettled(s);
    if Parts(s) != [] { JoinStarts(Parts(s)); }
  }

  lemma {:induction false} DriveOfNormal(s: string)
    ensures HasDrive(Normalize(s)) <==> HasDrive(s) || Driven(s)
  {
    NormalText(s);
    PartsSettled(s);
    if !HasDrive(s) && Parts(s) != [] { JoinStarts(Parts(s)); }
  }

  /** Normal text that shows no new drive keeps its parts and its root. */
  lemma {:induction false} NormalKeeps(s: string)
    requires !Driven(s)
    ensures Parts(Normalize(s)) == Parts(s) && Root(Normalize(s)) == Root(s)
  {
    var n := Normalize(s);
    NormalText(s);
    PartsSettled(s);
    DriveOfNormal(s);
    if Parts(s) != [] { JoinStarts(Parts(s)); }
    if HasDrive(s) {
      assert n[2..] == "/" + JoinParts(Parts(s)) && n[..2] == s[..2];
      PartsOfText("/", Parts(s));
    } else if n == "." {
      DotParts();
    } else {
      PartsOfText(Root(s), Parts(s));
    }
  }

  lemma {:induction false} DotParts()
    ensures Parts(".") == [] && Root(".") == ""
  {
    assert "." + "" == ".";
    SplitPart(".", "");
    assert Split("") == [] && ["."] + [] == ["."] && ["."][1..] == [];
    assert Resolve(["."], []) == [];
  }

  lemma {:induction false} ShortDriveAgain(s: string, n: string, parts: seq<string>)
    requires parts != [] && |parts[0]| == 2 && |parts| > 1 && Settled(parts) && HasDrive(n)
    requires n == JoinParts(parts) && n[2..] == "/" + JoinParts(parts[1..])
    ensures Normalize(n) == n
  {
    PartsOfText("/", parts[1..]);
    NormalText(n);
    assert n[..2] + "/" + JoinParts(parts[1..]) == n;
  }

  /** Normal text whose first part reads as a drive, read again. */
  lemma {:induction false} DrivenAgain(s: string)
    requires Driven(s)
    ensures var parts := Parts(s);
      Normalize(Normalize(s)) == Normalize(s) <==> |parts[0]| == 2 && |parts| > 1
  {
    var n := Normalize(s);
    var parts := Parts(s);
    NormalText(s);
    PartsSettled(s);
    DriveOfNormal(s);
    JoinStarts(parts);
    if |parts[0]| == 2 && |parts| > 1 {
      ShortDriveAgain(s, n, parts);
    } else {
      NormalText(n);
      assert Normalize(n)[2] == '/';
      if |parts[0]| > 2 { assert n[2] == parts[0][2]; }
    }
  }

  /** Relative text that starts like a drive but is no drive followed by more. */
  predicate Shaky(s: string) { Driven(s) && (|Parts(s)[0]| > 2 || |Parts(s)| == 1) }

  /** Normalising twice is normalising once, except that "./c:x" becomes a drive path. */
  lemma {:induction false} IdempotentExactly(s: string)
    ensures Normalize(Normalize(s)) == Normalize(s) <==> !Shaky(s)
  {
    if Driven(s) {
      DrivenAgain(s);
    } else {
      NormalKeeps(s);
      NormalText(s);
      NormalText(Normalize(s));
    }
  }

  // ---- normalising a prefix first ----

  lemma {:induction false} PartsOfJoined(a: string, b: string)
    requires a != ""
    ensures Root(a + "/" + b) == Root(a) && Parts(a + "/" + b) == Resolve(Split(b), Parts(a))
    ensures HasDrive(a + "/" + b) == HasDrive(a)
  {
    var ab := a + "/" + b;
    assert HasDrive(a) ==> ab[2..] == a[2..] + "/" + b && ab[..2] == a[..2];
    var body := if HasDrive(a) then a[2..] else a;
    SplitAtSep(body, b);
    ResolveAppend(Split(body), Split(b), []);
  }

  lemma {:induction false} ComposesWhenNotDriven(a: string, b: string)
    requires a != "" && !Driven(a)
    ensures Normalize(a + "/" + b) == Normalize(Normalize(a) + "/" + b)
  {
    NormalText(a);
    PartsOfJoined(a, b);
    PartsOfJoined(Normalize(a), b);
    NormalKeeps(a);
    NormalText(a + "/" + b);
    NormalText(Normalize(a) + "/" + b);
  }

  /** `k` steps up. */
  function Ups(k: nat): string { if k == 0 then "" else ".." + "/" + Ups(k - 1) }

  lemma {:induction false} SplitUps(k: nat)
    ensures Split(Ups(k + 1)) == [".."] + Split(Ups(k))
  {
    assert ".." + "" == "..";
    SplitPart("..", "");
    SplitAtSep("..", Ups(k));
    assert Split("") == [];
  }

  lemma {:induction false} UpsEmpty(stack: seq<string>)
    requires Settled(stack) && forall i :: 0 <= i < |stack| ==> stack[i] != ".."
    ensures Resolve(Split(Ups(|stack|)), stack) == []
    decreases |stack|
  {
    if stack != [] {
      var k := |stack| - 1;
      SplitUps(k);
      assert ([".."] + Split(Ups(k)))[1..] == Split(Ups(k));
      assert Push(stack, "..") == stack[..k];
      UpsEmpty(stack[..k]);
    }
  }

  lemma {:induction false} NoUps(stack: seq<string>, i: nat)
    requires Settled(stack) && i < |stack| && stack[0] != ".."
    ensures stack[i] != ".."
  {
    if i > 0 { NoUps(stack, i - 1); }
  }

  /** Normalising the front of a path first changes nothing, whatever is appended, exactly
      when the front does not come to look like a drive. */
  lemma {:induction false} ComposesExactly(a: string)
    requires a != ""
    ensures (forall b :: Normalize(a + "/" + b) == Normalize(Normalize(a) + "/" + b)) <==> !Driven(a)
  {
    if Driven(a) {
      var parts := Parts(a);
      var b := Ups(|parts|);
      PartsSettled(a);
      forall i | 0 <= i < |parts| ensures parts[i] != ".." { NoUps(parts, i); }
      UpsEmpty(parts);
      NormalText(a);
      DriveOfNormal(a);
      PartsOfJoined(a, b);
      PartsOfJoined(Normalize(a), b);
      NormalText(a + "/" + b);
      NormalText(Normalize(a) + "/" + b);
      assert Normalize(a + "/" + b) != Normalize(Normalize(a) + "/" + b);
    } else {
      forall b ensures Normalize(a + "/" + b) == Normalize(Normalize(a) + "/" + b) { ComposesWhenNotDriven(a, b); }
    }
  }

  // ---- parent and name ----

  /** Without trailing separators, keeping at least one character. */
  function Trim(n: string): (end: nat)
    ensures end <= |n|
  {
    if |n| > 1 && IsSep(n[|n| - 1]) then Trim(n[..|n| - 1]) else |n|
  }

  function LastSep(n: string): (at: int)
    ensures -1 <= at < |n|
  {
    if n == "" then -1 else if IsSep(n[|n| - 1]) then |n| - 1 else LastSep(n[..|n| - 1])
  }

  function Parent(s: string): string {
    var n := Normalize(s);
    var slash := LastSep(n[..Trim(n)]);
    if slash < 0 then "." else if slash == 0 then "/" else n[..slash]
  }

  function Name(s: string): string {
    var n := Normalize(s);
    n[LastSep(n[..Trim(n)]) + 1..Trim(n)]
  }

  function JoinAll(parts: seq<string>, sofar: string): string
    decreases |parts|
  {
    if parts == [] then sofar
    else JoinAll(parts[1..], if parts[0] == "" then sofar else if sofar == "" then parts[0] else sofar + "/" + parts[0])
  }

  function Join(parts: seq<string>): string { Normalize(JoinAll(parts, "")) }

  lemma {:induction false} LastSepOf(head: string, part: string)
    requires forall i :: 0 <= i < |part| ==> !IsSep(part[i])
    ensures LastSep(head + part) == LastSep(head)
    decreases |part|
  {
    if part == "" { assert head + part == head; }
    else {
      assert (head + part)[..|head + part| - 1] == head + part[..|part| - 1];
      LastSepOf(head, part[..|part| - 1]);
    }
  }

  /** What stands before the last part of the normal text. */
  function Head(s: string): string
    requires Parts(s) != []
  {
    var parts := Parts(s);
    Root(s) + (if |parts| == 1 then "" else JoinParts(parts[..|parts| - 1]) + "/")
  }

  lemma {:induction false} NormalSplits(s: string)
    requires Parts(s) != []
    ensures var head, name := Head(s), Parts(s)[|Parts(s)| - 1];
      Normalize(s) == head + name && (head != "" ==> head[|head| - 1] == '/') && IsPart(name)
  {
    PartsSettled(s);
    NormalText(s);
    var parts := Parts(s);
    if |parts| > 1 {
      assert Root(s) + (JoinParts(parts[..|parts| - 1]) + "/" + parts[|parts| - 1])
          == (Root(s) + (JoinParts(parts[..|parts| - 1]) + "/")) + parts[|parts| - 1];
    } else {
      assert Root(s) + "" == Root(s);
    }
  }

  lemma {:induction false} ApartFrom(n: string, head: string, name: string)
    requires n == head + name && (head != "" ==> head[|head| - 1] == '/') && IsPart(name)
    ensures Trim(n) == |n| && LastSep(n[..|n|]) == |head| - 1 && n[|head|..|n|] == name && n[..|head|] == head
  {
    assert n[|n| - 1] == name[|name| - 1];
    LastSepOf(head, name);
    assert n[..|n|] == n;
  }

  lemma {:induction false} TakenApart(s: string)
    requires Parts(s) != []
    ensures var head, name := Head(s), Parts(s)[|Parts(s)| - 1];
      && Name(s) == name && name != ""
      && Parent(s) == ParentOf(head)
  {
    NormalSplits(s);
    ApartFrom(Normalize(s), Head(s), Parts(s)[|Parts(s)| - 1]);
  }

  lemma {:induction false} JoinPair(a: string, b: string)
    requires a != "" && b != ""
    ensures Join([a, b]) == Normalize(a + "/" + b)
  {
    assert [a, b][1..] == [b] && [b][1..] == [];
    assert JoinAll([b], a) == a + "/" + b && JoinAll([a, b], "") == JoinAll([b], a);
  }

  lemma {:induction false} JoinsBackSimple(s: string, root: string, name: string)
    requires (root == "" || root == "/") && IsPart(name) && name != "."
    ensures Normalize((if root == "" then "." else "/") + "/" + name) == root + name
  {
    var first := if root == "" then "." else "/";
    NormalText(first + "/" + name);
    PartsOfJoined(first, name);
    assert name + "" == name;
    SplitPart(name, "");
    assert Split("") == [] && [name][1..] == [];
    assert [] + [name] == [name];
    if root == "" { DotParts(); } else { assert "/"[1..] == ""; assert Parts("/") == []; }
    assert JoinParts([name]) == name;
  }

  /** Joining a path's parent and name gives its normal form back, except at a drive's root and
      for a longer path that starts like a drive without being one. */
  lemma {:induction false} JoinsBackExactly(s: string)
    ensures Join([Parent(s), Name(s)]) == Normalize(s)
            <==> !(HasDrive(s) && Parts(s) == []) && !(Shaky(s) && |Parts(s)| > 1)
  {
    if Parts(s) != [] {
      PartsJoinBack(s);
    } else if HasDrive(s) {
      DriveRootIsLost(s);
    } else if IsAbsolute(s) {
      RootJoinsBack(s);
    } else {
      DotJoinsBack(s);
    }
  }

  lemma {:induction false} PartsJoinBack(s: string)
    requires Parts(s) != []
    ensures Join([Parent(s), Name(s)]) == Normalize(s) <==> !(Shaky(s) && |Parts(s)| > 1)
  {
    RejoinedText(s);
    NormalSplits(s);
    if |Head(s)| <= 1 { ShortHead(s, Head(s), Parts(s)[|Parts(s)| - 1]); } else { LongHead(s, Head(s), Parts(s)[|Parts(s)| - 1]); }
  }

  function ParentOf(head: string): string { if |head| == 0 then "." else if |head| == 1 then "/" else head[..|head| - 1] }

  lemma {:induction false} RejoinedText(s: string)
    requires Parts(s) != []
    ensures Join([Parent(s), Name(s)]) == Normalize(ParentOf(Head(s)) + "/" + Parts(s)[|Parts(s)| - 1])
  {
    TakenApart(s);
    var parent, name := Parent(s), Name(s);
    JoinPair(parent, name);
  }

  lemma {:induction false} ShortHead(s: string, head: string, name: string)
    requires Parts(s) != [] && head == Head(s) && name == Parts(s)[|Parts(s)| - 1]
    requires |head| <= 1 && (head != "" ==> head[0] == '/') && Normalize(s) == head + name
    ensures Normalize(ParentOf(head) + "/" + name) == Normalize(s)
    ensures !(Shaky(s) && |Parts(s)| > 1)
  {
    PartsSettled(s);
    assert head == "" || head == "/";
    JoinsBackSimple(s, head, name);
    if |Parts(s)| > 1 { JoinStarts(Parts(s)[..|Parts(s)| - 1]); }
  }

  lemma {:induction false} LongHead(s: string, head: string, name: string)
    requires Parts(s) != [] && head == Head(s) && name == Parts(s)[|Parts(s)| - 1]
    requires |head| > 1 && head[|head| - 1] == '/' && Normalize(s) == head + name
    ensures Normalize(ParentOf(head) + "/" + name) == Normalize(s) <==> !(Shaky(s) && |Parts(s)| > 1)
  {
    assert head[..|head| - 1] + "/" == head;
    IdempotentExactly(s);
    if |Parts(s)| == 1 { NormalText(s); }
  }

  lemma {:induction false} DriveRootIsLost(s: string)
    requires HasDrive(s) && Parts(s) == []
    ensures Join([Parent(s), Name(s)]) != Normalize(s)
  {
    var drive := s[..2];
    var n := drive + "/";
    NormalText(s);
    assert Normalize(s) == n;
    assert n[..2] == drive && n[..|n| - 1] == drive && Trim(n) == Trim(drive) == 2;
    assert drive[..1] == [drive[0]] && LastSep(drive[..1]) == -1 && LastSep(drive) == -1;
    assert drive[0..2] == drive;
    assert Join([Parent(s), Name(s)]) == Normalize("." + "/" + drive) by { JoinPair(".", drive); }
    JoinsBackSimple(s, "", drive);
  }

  lemma {:induction false} RootJoinsBack(s: string)
    requires IsAbsolute(s) && !HasDrive(s) && Parts(s) == []
    ensures Join([Parent(s), Name(s)]) == Normalize(s)
  {
    var n := "/";
    NormalText(s);
    assert Normalize(s) == n && Trim(n) == 1 && n[..1] == n && LastSep(n) == 0 && n[1..1] == "";
    assert ["/", ""][1..] == [""] && [""][1..] == [];
    assert JoinAll([""], "/") == "/" && JoinAll(["/", ""], "") == JoinAll([""], "/");
    IdempotentExactly(s);
  }

  lemma {:induction false} DotJoinsBack(s: string)
    requires !IsAbsolute(s) && Parts(s) == []
    ensures Join([Parent(s), Name(s)]) == Normalize(s)
  {
    var n := ".";
    NormalText(s);
    assert Normalize(s) == n && Trim(n) == 1 && n[..1] == n && n[..0] == "" && LastSep("") == -1 && LastSep(n) == -1 && n[0..1] == n;
    assert Join([Parent(s), Name(s)]) == Normalize("." + "/" + ".") by { JoinPair(".", "."); }
    DotParts();
    PartsOfJoined(".", ".");
    assert Split(".") == ["."] by { SplitPart(".", ""); assert "." + "" == "."; }
    NormalText("." + "/" + ".");
  }

  // ---- read off the text ----

  /** No part of the text between separators starts like a drive. */
  predicate DriveFree(s: string) { forall i :: 0 <= i < |Split(s)| ==> !HasDrive(Split(s)[i]) }

  lemma {:induction false} ResolvedFrom(parts: seq<string>, stack: seq<string>)
    ensures forall x :: x in Resolve(parts, stack) ==> x in parts || x in stack
    decreases |parts|
  {
    if parts != [] {
      ResolvedFrom(parts[1..], Push(stack, parts[0]));
      assert forall x :: x in parts[1..] ==> x in parts;
      assert forall x :: x in Push(stack, parts[0]) ==> x in stack || x == parts[0];
    }
  }

  lemma {:induction false} DriveIsPart(s: string)
    requires HasDrive(s)
    ensures Split(s) != [] && HasDrive(Split(s)[0])
  {
    RunSpan(s);
    assert Run(s) >= 2 by { assert !IsSep(s[0]) && !IsSep(s[1]) && Run(s) == 1 + Run(s[1..]) && Run(s[1..]) == 1 + Run(s[1..][1..]); }
  }

  /** Such a path is stable: it normalises once and for all, in front of anything, and joins back. */
  lemma {:induction false} DriveFreeIsStable(s: string)
    requires DriveFree(s)
    ensures Normalize(Normalize(s)) == Normalize(s) && Join([Parent(s), Name(s)]) == Normalize(s)
    ensures s != "" ==> forall b :: Normalize(s + "/" + b) == Normalize(Normalize(s) + "/" + b)
  {
    if HasDrive(s) { DriveIsPart(s); }
    ResolvedFrom(Split(s), []);
    if Parts(s) != [] { assert Parts(s)[0] in Parts(s) && Parts(s)[0] in Split(s); }
    IdempotentExactly(s);
    JoinsBackExactly(s);
    if s != "" { ComposesExactly(s); }
  }

  /** An absolute path without a drive may hold parts that look like one. */
  lemma {:induction false} RootedIsStable(s: string)
    requires s != "" && IsSep(s[0])
    ensures Normalize(Normalize(s)) == Normalize(s) && Join([Parent(s), Name(s)]) == Normalize(s)
    ensures forall b :: Normalize(s + "/" + b) == Normalize(Normalize(s) + "/" + b)
  {
    IdempotentExactly(s);
    JoinsBackExactly(s);
    ComposesExactly(s);
  }
}
