/** The text each loaded module contributes: its own lines in order, rewritten once. */
module ImportTexts {
  import opened Imports

  /** A module's body is its code lines, each with a line feed, in order; imports leave nothing. */
  lemma {:induction false} BodyIsItsLines(front: seq<Line>, line: Line, back: seq<Line>)
    ensures BodyText([]) == ""
    ensures BodyText(front + [line] + back)
            == BodyText(front) + (match line case Code(text) => text + "\n" case _ => "") + BodyText(back)
    decreases |front|
  {
    var all := front + [line] + back;
    var own := match line case Code(text) => text + "\n" case _ => "";
    if front == [] {
      assert all[0] == line && all[1..] == back;
      assert "" + own + BodyText(back) == own + BodyText(back);
    } else {
      BodyIsItsLines(front[1..], line, back);
      assert all[0] == front[0] && all[1..] == front[1..] + [line] + back;
      var first := if front[0].Code? then front[0].text + "\n" else "";
      assert first + (BodyText(front[1..]) + own + BodyText(back)) == (first + BodyText(front[1..])) + own + BodyText(back);
    }
  }

  /** Every emitted body is its module's own, rewritten as a module unless it is the root. */
  predicate OwnBodies(repo: Repo, root: Path, chunks: seq<Chunk>) {
    forall i :: 0 <= i < |chunks| && chunks[i].Body? ==>
      && chunks[i].path in repo.files
      && chunks[i].text == repo.rewrite(chunks[i].path, BodyText(repo.files[chunks[i].path]), chunks[i].path != root)
  }

  lemma {:induction false} OwnAppend(repo: Repo, root: Path, a: seq<Chunk>, b: seq<Chunk>)
    requires OwnBodies(repo, root, a) && OwnBodies(repo, root, b)
    ensures OwnBodies(repo, root, a + b)
  {
  }

  lemma {:induction false} OwnAssembled(repo: Repo, root: Path, imports: seq<Chunk>, path: Path, text: string)
    requires OwnBodies(repo, root, imports) && path in repo.files
    requires text == repo.rewrite(path, BodyText(repo.files[path]), path != root)
    ensures OwnBodies(repo, root, Assemble(imports, path, text))
  {
  }

  lemma {:induction false} ExpandOwns(repo: Repo, root: Path, path: Path, loaded: seq<Path>, loading: seq<Path>)
    requires path == root ==> loading == []
    requires path != root ==> root in loading
    ensures var out := Expand(repo, path, loaded, loading, path != root);
      out.Done? ==> OwnBodies(repo, root, out.chunks)
    decreases |Unopened(repo, loading)|, 0, 0
  {
    if path in repo.files && path !in loading && path !in loaded {
      OpeningShrinks(repo, path, loading);
      LinesOwn(repo, root, path, repo.files[path], loaded, loading + [path]);
      var inner := ExpandLines(repo, path, repo.files[path], loaded, loading + [path]);
      if inner.Done? {
        OwnAssembled(repo, root, inner.chunks, path, repo.rewrite(path, BodyText(repo.files[path]), path != root));
      }
    }
  }

  lemma {:induction false} LinesOwn(repo: Repo, root: Path, path: Path, lines: seq<Line>, loaded: seq<Path>, loading: seq<Path>)
    requires root in loading
    ensures var out := ExpandLines(repo, path, lines, loaded, loading);
      out.Done? ==> OwnBodies(repo, root, out.chunks)
    decreases |Unopened(repo, loading)|, 1, |lines|
  {
    if lines != [] {
      match lines[0]
      case Code(_) => LinesOwn(repo, root, path, lines[1..], loaded, loading);
      case Malformed =>
      case Use(u) =>
        var first := Expand(repo, u, loaded, loading, true);
        if u != root && first.Done? {
          ExpandOwns(repo, root, u, loaded, loading);
          LinesOwn(repo, root, path, lines[1..], first.loaded, loading);
          var rest := ExpandLines(repo, path, lines[1..], first.loaded, loading);
          OwnAppend(repo, root, [Break], first.chunks);
          if rest.Done? { OwnAppend(repo, root, [Break] + first.chunks, rest.chunks); }
        }
    }
  }

  /** In the expanded text each body is its module's own lines, rewritten as an imported module
      exactly when it is not the root. */
  lemma {:induction false} EmitsOwnBodies(repo: Repo, root: Path)
    requires Expand(repo, root, [], [], false).Done?
    ensures OwnBodies(repo, root, Expand(repo, root, [], [], false).chunks)
  {
    ExpandOwns(repo, root, root, [], []);
  }

  // ---- in which order imports are loaded ----

  /** Reached by way of one of these lines. */
  ghost predicate ReachedBy(repo: Repo, lines: seq<Line>, path: Path) {
    exists u :: Use(u) in lines && Reachable(repo, u, path)
  }

  ghost predicate Fresh(repo: Repo, loaded: seq<Path>, loading: seq<Path>) {
    Ordered(repo, loaded) && forall x :: x in loading ==> x !in loaded
  }

  /** The lines load what was loaded and what they reach, and nothing else. */
  lemma {:induction false} LinesLoadReached(repo: Repo, path: Path, lines: seq<Line>, loaded: seq<Path>, loading: seq<Path>)
    requires Fresh(repo, loaded, loading) && ExpandLines(repo, path, lines, loaded, loading).Done?
    ensures forall x :: x in ExpandLines(repo, path, lines, loaded, loading).loaded <==> x in loaded || ReachedBy(repo, lines, x)
  {
    var out := ExpandLines(repo, path, lines, loaded, loading);
    LinesLoad(repo, path, lines, loaded, loading);
    forall x | ReachedBy(repo, lines, x) ensures x in out.loaded {
      var u :| Use(u) in lines && Reachable(repo, u, x);
      ReachableLoaded(repo, u, x, out.loaded);
    }
    LinesAddReached(repo, path, lines, loaded, loading);
  }

  lemma {:induction false} LinesAddReached(repo: Repo, path: Path, lines: seq<Line>, loaded: seq<Path>, loading: seq<Path>)
    ensures var out := ExpandLines(repo, path, lines, loaded, loading);
      out.Done? ==> forall x :: x in out.loaded ==> x in loaded || ReachedBy(repo, lines, x)
    decreases |lines|
  {
    if lines != [] && !lines[0].Malformed? {
      assert forall u :: Use(u) in lines[1..] ==> Use(u) in lines;
      if lines[0].Use? {
        var u := lines[0].path;
        assert Walk(repo, [u]) && Use(u) in lines;
        ExpandReaches(repo, u, u, loaded, loaded, loading, true);
        var first := Expand(repo, u, loaded, loading, true);
        if first.Done? { LinesAddReached(repo, path, lines[1..], first.loaded, loading); }
      } else {
        LinesAddReached(repo, path, lines[1..], loaded, loading);
      }
    }
  }

  lemma {:induction false} LinesGrow(repo: Repo, path: Path, lines: seq<Line>, k: nat, loaded: seq<Path>, loading: seq<Path>)
    requires Fresh(repo, loaded, loading) && k <= |lines| && ExpandLines(repo, path, lines, loaded, loading).Done?
    ensures var some := ExpandLines(repo, path, lines[..k], loaded, loading);
      some.Done? && some.loaded <= ExpandLines(repo, path, lines, loaded, loading).loaded
    decreases k
  {
    if k == 0 {
      LinesLoad(repo, path, lines, loaded, loading);
    } else {
      assert lines[..k][1..] == lines[1..][..k - 1];
      if lines[0].Use? {
        ExpandLoads(repo, lines[0].path, loaded, loading, true);
        LinesGrow(repo, path, lines[1..], k - 1, Expand(repo, lines[0].path, loaded, loading, true).loaded, loading);
      } else {
        LinesGrow(repo, path, lines[1..], k - 1, loaded, loading);
      }
    }
  }

  /** Imports are loaded in the order of their lines: what a module's first k lines reach, with
      what was loaded before, is loaded in front of everything else. */
  lemma {:induction false} LoadsInLineOrder(repo: Repo, path: Path, lines: seq<Line>, k: nat, loaded: seq<Path>, loading: seq<Path>)
    requires Fresh(repo, loaded, loading) && k <= |lines| && ExpandLines(repo, path, lines, loaded, loading).Done?
    ensures var all := ExpandLines(repo, path, lines, loaded, loading).loaded;
      exists n :: 0 <= n <= |all| && forall x :: x in all[..n] <==> x in loaded || ReachedBy(repo, lines[..k], x)
  {
    LinesGrow(repo, path, lines, k, loaded, loading);
    var some := ExpandLines(repo, path, lines[..k], loaded, loading).loaded;
    LinesLoadReached(repo, path, lines[..k], loaded, loading);
    assert ExpandLines(repo, path, lines, loaded, loading).loaded[..|some|] == some;
  }
}
