/** What the parts of a path mean: "." stays, ".." takes back the name before it, and nothing
    else is lost. */
module PathLaws {
  import opened Paths

  /** A directory or file name as written between separators. */
  predicate Named(x: string) {
    x != "" && x != "." && x != ".." && forall i :: 0 <= i < |x| ==> x[i] != '/' && x[i] != '\\'
  }

  // ---- lists of parts ----

  /** Deleting a "." anywhere changes nothing. */
  lemma {:induction false} SelfDrops(front: seq<string>, back: seq<string>)
    ensures Resolve(front + ["."] + back, []) == Resolve(front + back, [])
  {
    var stack := Resolve(front, []);
    assert front + ["."] + back == front + (["."] + back) && (["."] + back)[1..] == back;
    ResolveAppend(front, ["."] + back, []);
    ResolveAppend(front, back, []);
  }

  lemma {:induction false} UpStep(x: string, back: seq<string>, stack: seq<string>)
    requires x != "." && x != ".."
    ensures Resolve([x, ".."] + back, stack) == Resolve(back, stack)
  {
    var up := [".."] + back;
    assert [x, ".."] + back == [x] + up && ([x] + up)[1..] == up && up[1..] == back;
    assert (stack + [x])[..|stack|] == stack;
    assert Push(stack + [x], "..") == stack;
    assert Resolve(up, stack + [x]) == Resolve(back, stack);
  }

  /** So does deleting a name together with the ".." right after it. */
  lemma {:induction false} UpCancels(front: seq<string>, x: string, back: seq<string>)
    requires x != "." && x != ".."
    ensures Resolve(front + [x, ".."] + back, []) == Resolve(front + back, [])
  {
    var stack := Resolve(front, []);
    assert front + [x, ".."] + back == front + ([x, ".."] + back);
    ResolveAppend(front, [x, ".."] + back, []);
    ResolveAppend(front, back, []);
    UpStep(x, back, stack);
  }

  /** Where neither can be deleted, every part stays: names, after any number of "..". */
  lemma {:induction false} NothingElseDrops(parts: seq<string>)
    requires forall i :: 0 <= i < |parts| ==> Named(parts[i]) || parts[i] == ".."
    requires forall i :: 0 < i < |parts| && parts[i] == ".." ==> !Named(parts[i - 1])
    ensures Resolve(parts, []) == parts
  {
    assert parts[0..] == parts && parts[..0] == [];
    SettledStays(parts, 0);
  }

  // ---- texts ----

  lemma {:induction false} SplitOne(x: string)
    requires IsPart(x)
    ensures Split(x) == [x]
  {
    assert x + "" == x;
    SplitPart(x, "");
  }

  /** A name added to a path is its last part. */
  lemma {:induction false} NameAppends(a: string, x: string)
    requires a != "" && Named(x)
    ensures Parts(a + "/" + x) == Parts(a) + [x]
  {
    PartsOfJoined(a, x);
    SplitOne(x);
    assert [x][1..] == [];
  }

  /** Going into a directory and up again is staying. */
  lemma {:induction false} UpUndoes(a: string, x: string)
    requires a != "" && Named(x)
    ensures Normalize(a + "/" + x + "/..") == Normalize(a)
  {
    var b := x + "/" + "..";
    assert a + "/" + x + "/.." == a + "/" + b;
    PartsOfJoined(a, b);
    SplitAtSep(x, "..");
    SplitOne(x);
    SplitOne("..");
    assert [x] + [".."] == [x, ".."] + [];
    UpStep(x, [], Parts(a));
    NormalText(a);
    NormalText(a + "/" + b);
  }

  /** "." and empty parts mean nothing. */
  lemma {:induction false} DotStays(a: string)
    requires a != ""
    ensures Normalize(a + "/.") == Normalize(a) && Normalize(a + "/") == Normalize(a)
  {
    assert a + "/." == a + "/" + "." && a + "/" == a + "/" + "";
    PartsOfJoined(a, ".");
    PartsOfJoined(a, "");
    SplitOne(".");
    assert ["."][1..] == [];
    NormalText(a);
    NormalText(a + "/.");
    NormalText(a + "/");
  }

  /** Where a path is nothing but "..", one more stays. */
  lemma {:induction false} LeadingUpStays(a: string)
    requires a != "" && forall i :: 0 <= i < |Parts(a)| ==> Parts(a)[i] == ".."
    ensures Parts(a + "/..") == Parts(a) + [".."]
  {
    assert a + "/.." == a + "/" + "..";
    PartsOfJoined(a, "..");
    SplitOne("..");
    assert [".."][1..] == [];
  }

  lemma {:induction false} HeadOfJoined(a: string, x: string)
    requires a != "" && Named(x)
    ensures Parts(a + "/" + x) != []
    ensures Head(a + "/" + x) == Root(a) + (if Parts(a) == [] then "" else JoinParts(Parts(a)) + "/")
  {
    NameAppends(a, x);
    PartsOfJoined(a, x);
    var parts := Parts(a) + [x];
    assert parts[..|parts| - 1] == Parts(a);
  }

  lemma {:induction false} ParentOfText(root: string, text: string)
    requires text != "" && (root == "" || root[|root| - 1] == '/')
    ensures ParentOf(root + (text + "/")) == root + text
  {
    assert root + (text + "/") == root + text + "/";
  }

  /** The name of `a/x` is x, and its parent is a in normal form, except exactly at a drive's
      root, where the root's slash goes with it. */
  lemma {:induction false} NameAndParentOf(a: string, x: string)
    requires a != "" && Named(x)
    ensures Name(a + "/" + x) == x
    ensures Parent(a + "/" + x) == Normalize(a) <==> !(HasDrive(a) && Parts(a) == [])
  {
    HeadOfJoined(a, x);
    NameAppends(a, x);
    TakenApart(a + "/" + x);
    NormalText(a);
    PartsSettled(a);
    if Parts(a) != [] {
      JoinStarts(Parts(a));
      ParentOfText(Root(a), JoinParts(Parts(a)));
    } else {
      assert Root(a) + "" == Root(a);
      assert HasDrive(a) ==> |Root(a)| == 3 && |Normalize(a)| == 3;
    }
  }

  lemma {:induction false} SplitBackslash(s: string, i: nat)
    requires i < |s| && s[i] == '\\'
    ensures Split(s[i := '/']) == Split(s)
  {
    var front, back := s[..i], s[i + 1..];
    assert s == front + "\\" + back && s[i := '/'] == front + "/" + back;
    SplitAtSep(front, back);
    SplitAtBackslash(front, back);
  }

  lemma {:induction false} SplitAtBackslash(a: string, b: string)
    ensures Split(a + "\\" + b) == Split(a) + Split(b)
    decreases |a|
  {
    var tail := "\\" + b;
    assert a + "\\" + b == a + tail;
    if a == "" {
      assert a + tail == tail && tail[1..] == b;
    } else if IsSep(a[0]) {
      assert (a + tail)[1..] == a[1..] + "\\" + b;
      SplitAtBackslash(a[1..], b);
    } else {
      var n := Run(a);
      RunSpan(a);
      SplitAtBackslash(a[n..], b);
      FirstBeforeSep(a, tail, n);
      assert a[n..] + "\\" + b == a[n..] + tail;
    }
  }

  /** A backslash is read as a slash, wherever it stands. */
  lemma {:induction false} BackslashIsSlash(s: string, i: nat)
    requires i < |s| && s[i] == '\\'
    ensures Normalize(s[i := '/']) == Normalize(s)
  {
    var t := s[i := '/'];
    if HasDrive(s) {
      assert t[2..] == s[2..][i - 2 := '/'] && t[..2] == s[..2];
      SplitBackslash(s[2..], i - 2);
    } else {
      assert !HasDrive(t);
      SplitBackslash(s, i);
    }
    assert Parts(t) == Parts(s);
  }

  lemma {:induction false} DriveParts(d: string)
    requires HasDrive(d)
    ensures Parts("/" + d[2..]) == Parts(d) && Root("/" + d[2..]) == "/" && Root(d) == d[..2] + "/"
  {
    var r := "/" + d[2..];
    assert r[0] == '/' && r[1..] == d[2..];
  }

  lemma {:induction false} RootedText(s: string)
    requires IsAbsolute(s)
    ensures Normalize(s) == Root(s) + JoinParts(Parts(s))
  {
    NormalText(s);
  }

  lemma {:induction false} Regroup(a: string, b: string, c: string)
    ensures (a + b) + c == a + (b + c)
  {
  }

  /** A letter and a colon in front of a path are kept in front of the absolute path. */
  lemma {:induction false} DriveIsKept(d: string)
    requires |d| >= 2 && d[1] == ':' && ('a' <= d[0] <= 'z' || 'A' <= d[0] <= 'Z')
    ensures Normalize(d) == d[..2] + Normalize("/" + d[2..])
  {
    var r := "/" + d[2..];
    DriveParts(d);
    RootedText(d);
    RootedText(r);
    Regroup(d[..2], "/", JoinParts(Parts(d)));
  }

  /** A path that starts with neither a separator nor a drive stays relative. */
  lemma {:induction false} RelativeStays(s: string)
    requires s == "" || (s[0] != '/' && s[0] != '\\')
    requires |s| < 2 || s[1] != ':' || !('a' <= s[0] <= 'z' || 'A' <= s[0] <= 'Z')
    ensures Normalize(s) != "" && Normalize(s)[0] != '/'
  {
    NormalText(s);
    PartsSettled(s);
    if Parts(s) != [] { JoinStarts(Parts(s)); }
  }

  function NonEmpty(parts: seq<string>): seq<string> {
    if parts == [] then [] else (if parts[0] == "" then [] else [parts[0]]) + NonEmpty(parts[1..])
  }

  predicate AllNonEmpty(parts: seq<string>) { forall i :: 0 <= i < |parts| ==> parts[i] != "" }

  lemma {:induction false} JoinOneMore(sofar: seq<string>, x: string)
    requires AllNonEmpty(sofar) && x != ""
    ensures JoinParts(sofar + [x]) == if JoinParts(sofar) == "" then x else JoinParts(sofar) + "/" + x
  {
    assert (sofar + [x])[..|sofar|] == sofar;
  }

  lemma {:induction false} JoinAllFrom(parts: seq<string>, sofar: seq<string>)
    requires AllNonEmpty(sofar)
    ensures JoinAll(parts, JoinParts(sofar)) == JoinParts(sofar + NonEmpty(parts))
    decreases |parts|
  {
    if parts == [] {
      assert sofar + [] == sofar;
    } else if parts[0] == "" {
      JoinAllFrom(parts[1..], sofar);
      assert [] + NonEmpty(parts[1..]) == NonEmpty(parts[1..]);
    } else {
      JoinOneMore(sofar, parts[0]);
      JoinAllFrom(parts[1..], sofar + [parts[0]]);
      assert sofar + ([parts[0]] + NonEmpty(parts[1..])) == sofar + [parts[0]] + NonEmpty(parts[1..]);
    }
  }

  /** Joining is normalising the nonempty texts with a slash between each two. */
  lemma {:induction false} JoinIsText(parts: seq<string>)
    ensures Join(parts) == Normalize(JoinParts(NonEmpty(parts)))
  {
    assert [] + NonEmpty(parts) == NonEmpty(parts);
    JoinAllFrom(parts, []);
  }
}
