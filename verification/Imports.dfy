/** Depth-first expansion of `use` lines into one source text. */
module Imports {
  import opened Wrappers

  /** A canonical path. Resolving the name written after `use` happens before this model. */
  type Path = string

  /** Malformed stands for a `use` line that is empty or has text after the import. */
  datatype Line = Use(path: Path) | Malformed | Code(text: string)

  /** `rewrite(path, body, imported)` is the body after prefixing; `accepts` says that every
      qualified name in a module's lines names an imported module. */
  datatype Repo = Repo(files: map<Path, seq<Line>>, rewrite: (Path, string, bool) -> string, accepts: (Path, seq<Line>) -> bool)

  datatype Error = Cyclic(path: Path) | Missing(path: Path) | BadSource(path: Path)

  datatype Chunk = Body(path: Path, text: string) | Break

  datatype Outcome = Failed(error: Error) | Done(chunks: seq<Chunk>, loaded: seq<Path>)

  function BodyText(lines: seq<Line>): string {
    if lines == [] then "" else (if lines[0].Code? then lines[0].text + "\n" else "") + BodyText(lines[1..])
  }

  function Text(chunks: seq<Chunk>): string {
    if chunks == [] then "" else (if chunks[0].Body? then chunks[0].text else "\n") + Text(chunks[1..])
  }

  function Elements(s: seq<Path>): set<Path> { set x | x in s }

  /** Modules not yet being loaded: what bounds the depth of the recursion. */
  function Unopened(repo: Repo, loading: seq<Path>): set<Path> { repo.files.Keys - Elements(loading) }

  lemma {:induction false} OpeningShrinks(repo: Repo, path: Path, loading: seq<Path>)
    requires path in repo.files && path !in loading
    ensures |Unopened(repo, loading + [path])| < |Unopened(repo, loading)|
  {
    assert Unopened(repo, loading + [path]) == Unopened(repo, loading) - {path};
    assert path in Unopened(repo, loading);
  }

  function Assemble(imports: seq<Chunk>, path: Path, text: string): seq<Chunk> {
    imports + (if imports == [] || text == "" then [] else [Break]) + [Body(path, text)]
  }

  /** The module at `path`, given what was loaded before and what is being loaded around it. */
  function Expand(repo: Repo, path: Path, loaded: seq<Path>, loading: seq<Path>, imported: bool): Outcome
    decreases |Unopened(repo, loading)|, 0, 0
  {
    if path !in repo.files then Failed(Missing(path))
    else if path in loading then Failed(Cyclic(path))
    else if path in loaded then Done([], loaded)
    else
      OpeningShrinks(repo, path, loading);
      var inner := ExpandLines(repo, path, repo.files[path], loaded, loading + [path]);
      if inner.Failed? then inner
      else if !repo.accepts(path, repo.files[path]) then Failed(BadSource(path))
      else Done(Assemble(inner.chunks, path, repo.rewrite(path, BodyText(repo.files[path]), imported)), inner.loaded + [path])
  }

  /** The imports among `lines`, each after a line break. */
  function ExpandLines(repo: Repo, path: Path, lines: seq<Line>, loaded: seq<Path>, loading: seq<Path>): Outcome
    decreases |Unopened(repo, loading)|, 1, |lines|
  {
    if lines == [] then Done([], loaded)
    else match lines[0]
      case Code(_) => ExpandLines(repo, path, lines[1..], loaded, loading)
      case Malformed => Failed(BadSource(path))
      case Use(target) =>
        var first := Expand(repo, target, loaded, loading, true);
        if first.Failed? then first
        else After([Break] + first.chunks, ExpandLines(repo, path, lines[1..], first.loaded, loading))
  }

  function After(chunks: seq<Chunk>, rest: Outcome): Outcome {
    if rest.Failed? then rest else Done(chunks + rest.chunks, rest.loaded)
  }

  // ---- walks along imports ----

  predicate Uses(repo: Repo, path: Path, target: Path) { path in repo.files && Use(target) in repo.files[path] }

  /** Each module uses the next. */
  predicate Walk(repo: Repo, w: seq<Path>) {
    w != [] && forall i :: 0 <= i < |w| - 1 ==> Uses(repo, w[i], w[i + 1])
  }

  predicate Sound(repo: Repo, path: Path) {
    path in repo.files && Malformed !in repo.files[path] && repo.accepts(path, repo.files[path])
  }

  /** A walk to a module that is missing or refused, or that was already on the walk. */
  predicate Stuck(repo: Repo, w: seq<Path>) {
    Walk(repo, w) && (!Sound(repo, w[|w| - 1]) || w[|w| - 1] in w[..|w| - 1])
  }

  ghost predicate Reachable(repo: Repo, root: Path, path: Path) {
    exists w :: Walk(repo, w) && w[0] == root && w[|w| - 1] == path
  }

  // ---- what is loaded is complete ----

  /** Modules are listed once, each after everything it uses. */
  ghost predicate Ordered(repo: Repo, loaded: seq<Path>) {
    && (forall i, j :: 0 <= i < j < |loaded| ==> loaded[i] != loaded[j])
    && (forall i :: 0 <= i < |loaded| ==> Sound(repo, loaded[i]))
    && (forall i, u :: 0 <= i < |loaded| && Uses(repo, loaded[i], u) ==> u in loaded[..i])
  }

  lemma {:induction false} OrderedExtends(repo: Repo, loaded: seq<Path>, path: Path)
    requires Ordered(repo, loaded) && path !in loaded && Sound(repo, path)
    requires forall u :: Uses(repo, path, u) ==> u in loaded
    ensures Ordered(repo, loaded + [path])
  {
    var all := loaded + [path];
    forall i, u | 0 <= i < |all| && Uses(repo, all[i], u) ensures u in all[..i] {
      if i < |loaded| { assert all[i] == loaded[i] && all[..i] == loaded[..i]; } else { assert all[..i] == loaded; }
    }
  }

  function Modules(chunks: seq<Chunk>): seq<Path> {
    if chunks == [] then [] else (if chunks[0].Body? then [chunks[0].path] else []) + Modules(chunks[1..])
  }

  lemma {:induction false} ModulesAppend(a: seq<Chunk>, b: seq<Chunk>)
    ensures Modules(a + b) == Modules(a) + Modules(b)
  {
    if a == [] { assert a + b == b; }
    else { assert (a + b)[1..] == a[1..] + b; ModulesAppend(a[1..], b); }
  }

  lemma {:induction false} TextAppend(a: seq<Chunk>, b: seq<Chunk>)
    ensures Text(a + b) == Text(a) + Text(b)
  {
    if a == [] { assert a + b == b; }
    else { assert (a + b)[1..] == a[1..] + b; TextAppend(a[1..], b); }
  }

  lemma {:induction false} AssembleModules(imports: seq<Chunk>, path: Path, text: string)
    ensures Modules(Assemble(imports, path, text)) == Modules(imports) + [path]
  {
    var gap := if imports == [] || text == "" then [] else [Break];
    ModulesAppend(imports + gap, [Body(path, text)]);
    ModulesAppend(imports, gap);
  }

  /** Expansion only adds to the loaded list, in the order it emits, and keeps it ordered. */
  lemma {:induction false} ExpandLoads(repo: Repo, path: Path, loaded: seq<Path>, loading: seq<Path>, imported: bool)
    requires Ordered(repo, loaded) && (forall x :: x in loading ==> x !in loaded)
    ensures var out := Expand(repo, path, loaded, loading, imported);
      out.Done? ==> Ordered(repo, out.loaded) && path in out.loaded && out.loaded == loaded + Modules(out.chunks)
                    && forall x :: x in loading ==> x !in out.loaded
    decreases |Unopened(repo, loading)|, 0, 0
  {
    if path in repo.files && path !in loading && path !in loaded {
      OpeningShrinks(repo, path, loading);
      LinesLoad(repo, path, repo.files[path], loaded, loading + [path]);
      var inner := ExpandLines(repo, path, repo.files[path], loaded, loading + [path]);
      if inner.Done? {
        AssembleModules(inner.chunks, path, repo.rewrite(path, BodyText(repo.files[path]), imported));
        assert path in loading + [path];
        if repo.accepts(path, repo.files[path]) { OrderedExtends(repo, inner.loaded, path); }
      }
    }
  }

  lemma {:induction false} LinesLoad(repo: Repo, path: Path, lines: seq<Line>, loaded: seq<Path>, loading: seq<Path>)
    requires Ordered(repo, loaded) && (forall x :: x in loading ==> x !in loaded)
    ensures var out := ExpandLines(repo, path, lines, loaded, loading);
      out.Done? ==> Ordered(repo, out.loaded) && Malformed !in lines && out.loaded == loaded + Modules(out.chunks)
                    && (forall x :: x in loading ==> x !in out.loaded)
                    && (forall u :: Use(u) in lines ==> u in out.loaded)
    decreases |Unopened(repo, loading)|, 1, |lines|
  {
    if lines != [] {
      match lines[0]
      case Code(_) => LinesLoad(repo, path, lines[1..], loaded, loading);
      case Malformed =>
      case Use(u) =>
        var first := Expand(repo, u, loaded, loading, true);
        if first.Done? {
          ExpandLoads(repo, u, loaded, loading, true);
          LinesLoad(repo, path, lines[1..], first.loaded, loading);
          UseLoads(loaded, first, ExpandLines(repo, path, lines[1..], first.loaded, loading));
          assert forall l :: l in lines ==> l == lines[0] || l in lines[1..];
        }
    }
  }

  lemma {:induction false} UseLoads(loaded: seq<Path>, first: Outcome, rest: Outcome)
    requires first.Done? && first.loaded == loaded + Modules(first.chunks)
    requires rest.Done? ==> rest.loaded == first.loaded + Modules(rest.chunks)
    ensures var out := After([Break] + first.chunks, rest);
      out.Done? ==> out.loaded == loaded + Modules(out.chunks) && first.loaded <= out.loaded
  {
    if rest.Done? {
      assert ([Break] + first.chunks)[1..] == first.chunks;
      ModulesAppend([Break] + first.chunks, rest.chunks);
    }
  }

  /** A walk that starts among ordered modules never leaves them and never comes back. */
  lemma {:induction false} OrderedWalks(repo: Repo, loaded: seq<Path>, w: seq<Path>, at: nat)
    requires Ordered(repo, loaded) && Walk(repo, w) && at < |loaded| && w[0] == loaded[at]
    ensures forall k :: 1 <= k < |w| ==> w[k] in loaded[..at]
    ensures !Stuck(repo, w)
    decreases |w|
  {
    if |w| > 1 {
      var next :| 0 <= next < at && loaded[next] == w[1];
      assert Walk(repo, w[1..]);
      OrderedWalks(repo, loaded, w[1..], next);
      forall k | 1 <= k < |w| ensures w[k] in loaded[..at] {
        if k > 1 { assert w[1..][k - 1] in loaded[..next]; }
      }
      forall k | 0 <= k < |w| - 1 ensures w[k] != w[|w| - 1] {
        if k > 0 { assert w[1..][..|w| - 2][k - 1] == w[k]; }
      }
    }
  }

  // ---- a failure has a cause ----

  function Blame(error: Error, w: seq<Path>): bool
    requires w != []
  {
    error.path == w[|w| - 1] && (error.Cyclic? <==> w[|w| - 1] in w[..|w| - 1])
  }

  /** A failure is found at the end of a walk from where loading started. */
  lemma {:induction false} ExpandFails(repo: Repo, path: Path, loaded: seq<Path>, loading: seq<Path>, imported: bool)
    returns (w: seq<Path>)
    requires Walk(repo, loading + [path]) && Expand(repo, path, loaded, loading, imported).Failed?
    requires forall i, j :: 0 <= i < j < |loading| ==> loading[i] != loading[j]
    ensures Stuck(repo, w) && w[0] == (loading + [path])[0]
    ensures Blame(Expand(repo, path, loaded, loading, imported).error, w)
    decreases |Unopened(repo, loading)|, 0, 0
  {
    w := loading + [path];
    assert w[..|w| - 1] == loading;
    assert path in loading ==> path in repo.files by {
      if path in loading { var i :| 0 <= i < |loading| && loading[i] == path; assert Uses(repo, w[i], w[i + 1]); }
    }
    if path in repo.files && path !in loading {
      OpeningShrinks(repo, path, loading);
      if ExpandLines(repo, path, repo.files[path], loaded, w).Failed? {
        w := LinesFail(repo, path, repo.files[path], loaded, w);
      }
    }
  }

  lemma {:induction false} LinesFail(repo: Repo, path: Path, lines: seq<Line>, loaded: seq<Path>, loading: seq<Path>)
    returns (w: seq<Path>)
    requires Walk(repo, loading) && loading[|loading| - 1] == path && path in repo.files
    requires forall i, j :: 0 <= i < j < |loading| ==> loading[i] != loading[j]
    requires forall l :: l in lines ==> l in repo.files[path]
    requires ExpandLines(repo, path, lines, loaded, loading).Failed?
    ensures Stuck(repo, w) && w[0] == loading[0]
    ensures Blame(ExpandLines(repo, path, lines, loaded, loading).error, w)
    decreases |Unopened(repo, loading)|, 1, |lines|
  {
    match lines[0]
    case Code(_) => w := LinesFail(repo, path, lines[1..], loaded, loading);
    case Malformed => assert lines[0] in lines; w := loading;
    case Use(u) =>
      var first := Expand(repo, u, loaded, loading, true);
      if first.Failed? {
        assert lines[0] in lines;
        w := ExpandFails(repo, u, loaded, loading, true);
      } else {
        w := LinesFail(repo, path, lines[1..], first.loaded, loading);
      }
  }

  // ---- the theorems ----

  /** Expansion fails exactly when some chain of imports from the root comes to a missing or
      refused module or comes back to itself, and the error names where it got stuck. */
  lemma {:induction false} FailsExactlyWhenStuck(repo: Repo, root: Path)
    ensures Expand(repo, root, [], [], false).Failed? <==> exists w :: Stuck(repo, w) && w[0] == root
    ensures var out := Expand(repo, root, [], [], false);
      out.Failed? ==> exists w :: Stuck(repo, w) && w[0] == root && Blame(out.error, w)
  {
    var out := Expand(repo, root, [], [], false);
    if out.Failed? {
      assert [] + [root] == [root];
      var w := ExpandFails(repo, root, [], [], false);
    } else {
      ExpandLoads(repo, root, [], [], false);
      forall w | Walk(repo, w) && w[0] == root ensures !Stuck(repo, w) {
        var at :| 0 <= at < |out.loaded| && out.loaded[at] == root;
        OrderedWalks(repo, out.loaded, w, at);
      }
    }
  }

  /** The text holds each reachable module once, after all it imports, and nothing else;
      the root comes last. */
  lemma {:induction false} EmitsEachOnce(repo: Repo, root: Path)
    requires Expand(repo, root, [], [], false).Done?
    ensures var order := Modules(Expand(repo, root, [], [], false).chunks);
      && Ordered(repo, order) && (forall path :: path in order <==> Reachable(repo, root, path))
      && order != [] && order[|order| - 1] == root
  {
    var out := Expand(repo, root, [], [], false);
    ExpandLoads(repo, root, [], [], false);
    var order := Modules(out.chunks);
    assert out.loaded == order;
    forall path | Reachable(repo, root, path) ensures path in order { ReachableLoaded(repo, root, path, order); }
    assert Walk(repo, [root]);
    assert [] + [root] == [root];
    ExpandReaches(repo, root, root, [], [], [], false);
  }

  lemma {:induction false} ReachableLoaded(repo: Repo, root: Path, path: Path, loaded: seq<Path>)
    requires Reachable(repo, root, path) && Ordered(repo, loaded) && root in loaded
    ensures path in loaded
  {
    var w :| Walk(repo, w) && w[0] == root && w[|w| - 1] == path;
    var at :| 0 <= at < |loaded| && loaded[at] == root;
    OrderedWalks(repo, loaded, w, at);
    if |w| > 1 { assert w[|w| - 1] in loaded[..at]; }
  }

  /** Everything that is added lies on a chain of imports from the root. */
  lemma {:induction false} ExpandReaches(repo: Repo, root: Path, path: Path, base: seq<Path>, loaded: seq<Path>, loading: seq<Path>, imported: bool)
    requires Reachable(repo, root, path) && (forall x :: x in loaded ==> x in base || Reachable(repo, root, x))
    ensures var out := Expand(repo, path, loaded, loading, imported);
      out.Done? ==> forall x :: x in out.loaded ==> x in base || Reachable(repo, root, x)
    decreases |Unopened(repo, loading)|, 0, 0
  {
    if path in repo.files && path !in loading && path !in loaded {
      OpeningShrinks(repo, path, loading);
      LinesReach(repo, root, path, repo.files[path], base, loaded, loading + [path]);
    }
  }

  lemma {:induction false} LinesReach(repo: Repo, root: Path, path: Path, lines: seq<Line>, base: seq<Path>, loaded: seq<Path>, loading: seq<Path>)
    requires path in repo.files && Reachable(repo, root, path)
    requires (forall x :: x in loaded ==> x in base || Reachable(repo, root, x)) && (forall l :: l in lines ==> l in repo.files[path])
    ensures var out := ExpandLines(repo, path, lines, loaded, loading);
      out.Done? ==> forall x :: x in out.loaded ==> x in base || Reachable(repo, root, x)
    decreases |Unopened(repo, loading)|, 1, |lines|
  {
    if lines != [] && !lines[0].Malformed? {
      assert lines[0] in lines;
      if lines[0].Use? {
        UseReaches(repo, root, path, lines[0].path);
        ExpandReaches(repo, root, lines[0].path, base, loaded, loading, true);
        var first := Expand(repo, lines[0].path, loaded, loading, true);
        if first.Done? { LinesReach(repo, root, path, lines[1..], base, first.loaded, loading); }
      } else {
        LinesReach(repo, root, path, lines[1..], base, loaded, loading);
      }
    }
  }

  lemma {:induction false} UseReaches(repo: Repo, root: Path, path: Path, u: Path)
    requires path in repo.files && Reachable(repo, root, path) && Use(u) in repo.files[path]
    ensures Reachable(repo, root, u)
  {
    var w :| Walk(repo, w) && w[0] == root && w[|w| - 1] == path;
    var longer := w + [u];
    assert Walk(repo, longer) && longer[0] == root && longer[|longer| - 1] == u;
  }

  // ---- the loader ----

  class Loader {
    const repo: Repo
    var loaded: seq<Path>
    var loading: seq<Path>

    constructor (repo: Repo)
      ensures this.repo == repo && loaded == [] && loading == []
    {
      this.repo := repo;
      loaded, loading := [], [];
    }

    /** None is a reported error, after which nothing is emitted. */
    method ExpandFrom(path: Path, imported: bool) returns (r: Option<string>)
      modifies this
      ensures match Expand(repo, path, old(loaded), old(loading), imported)
        case Failed(_) => r.None?
        case Done(chunks, all) => r == Some(Text(chunks)) && loaded == all && loading == old(loading)
      decreases |Unopened(repo, loading)|, 0
    {
      if path !in repo.files || path in loading { return None; }
      if path in loaded { return Some(""); }
      OpeningShrinks(repo, path, loading);
      loading := loading + [path];
      ghost var inner := ExpandLines(repo, path, repo.files[path], loaded, loading);
      var ok, imports, body := ReadLines(path);
      if !ok || !repo.accepts(path, repo.files[path]) { return None; }
      body := repo.rewrite(path, body, imported);
      loading := loading[..|loading| - 1];
      loaded := loaded + [path];
      AssembleText(inner.chunks, path, body);
      if imports == "" { return Some(body); }
      if body == "" { return Some(imports); }
      r := Some(imports + "\n" + body);
    }

    /** The line loop: imported text in order, and the lines that are not imports. */
    method ReadLines(path: Path) returns (ok: bool, imports: string, body: string)
      requires path in repo.files
      modifies this
      ensures match ExpandLines(repo, path, repo.files[path], old(loaded), old(loading))
        case Failed(_) => !ok
        case Done(chunks, all) =>
          && ok && imports == Text(chunks) && (chunks == [] <==> imports == "")
          && body == BodyText(repo.files[path]) && loaded == all && loading == old(loading)
      decreases |Unopened(repo, loading)|, 1
    {
      var lines := repo.files[path];
      ok, imports, body := true, "", "";
      ghost var chunks: seq<Chunk> := [];
      ghost var spec := ExpandLines(repo, path, lines, loaded, loading);
      LinesStart(repo, path, lines, loaded, loading);
      for k := 0 to |lines|
        invariant ok && loading == old(loading)
        invariant imports == Text(chunks) && (chunks == [] <==> imports == "")
        invariant LinesLeft(repo, path, lines, k, chunks, body, loaded, loading, spec)
      {
        LinesStep(repo, path, lines, k, chunks, body, loaded, loading, spec);
        match lines[k]
        case Malformed => return false, "", "";
        case Code(text) => body := body + text + "\n";
        case Use(u) =>
          ghost var first := Expand(repo, u, loaded, loading, true);
          var expanded := ExpandFrom(u, true);
          if expanded.None? { return false, "", ""; }
          UseText(chunks, first.chunks);
          chunks := chunks + ([Break] + first.chunks);
          imports := imports + "\n" + expanded.value;
      }
      LinesEnd(repo, path, lines, chunks, body, loaded, loading, spec);
    }
  }

  /** What has been read, and what the lines from k on will add, is the whole expansion. */
  ghost predicate LinesLeft(repo: Repo, path: Path, lines: seq<Line>, k: nat, chunks: seq<Chunk>, body: string,
                            loaded: seq<Path>, loading: seq<Path>, spec: Outcome)
    requires k <= |lines|
  {
    && spec == After(chunks, ExpandLines(repo, path, lines[k..], loaded, loading))
    && body + BodyText(lines[k..]) == BodyText(lines)
  }

  lemma {:induction false} LinesStart(repo: Repo, path: Path, lines: seq<Line>, loaded: seq<Path>, loading: seq<Path>)
    ensures LinesLeft(repo, path, lines, 0, [], "", loaded, loading, ExpandLines(repo, path, lines, loaded, loading))
  {
    assert lines[0..] == lines && "" + BodyText(lines) == BodyText(lines);
    AfterNothing(ExpandLines(repo, path, lines, loaded, loading));
  }

  lemma {:induction false} LinesEnd(repo: Repo, path: Path, lines: seq<Line>, chunks: seq<Chunk>, body: string,
                                    loaded: seq<Path>, loading: seq<Path>, spec: Outcome)
    requires LinesLeft(repo, path, lines, |lines|, chunks, body, loaded, loading, spec)
    ensures spec == Done(chunks, loaded) && body == BodyText(lines)
  {
    assert lines[|lines|..] == [] && chunks + [] == chunks && body + "" == body;
  }

  lemma {:induction false} LinesStep(repo: Repo, path: Path, lines: seq<Line>, k: nat, chunks: seq<Chunk>, body: string,
                                     loaded: seq<Path>, loading: seq<Path>, spec: Outcome)
    requires k < |lines| && LinesLeft(repo, path, lines, k, chunks, body, loaded, loading, spec)
    ensures match lines[k]
      case Malformed => spec.Failed?
      case Code(text) => LinesLeft(repo, path, lines, k + 1, chunks, body + text + "\n", loaded, loading, spec)
      case Use(u) =>
        var first := Expand(repo, u, loaded, loading, true);
        if first.Failed? then spec.Failed?
        else LinesLeft(repo, path, lines, k + 1, chunks + ([Break] + first.chunks), body, first.loaded, loading, spec)
  {
    assert lines[k..][1..] == lines[k + 1..];
    match lines[k]
    case Malformed =>
    case Code(text) => assert body + ((text + "\n") + BodyText(lines[k + 1..])) == (body + text + "\n") + BodyText(lines[k + 1..]);
    case Use(u) =>
      var first := Expand(repo, u, loaded, loading, true);
      assert "" + BodyText(lines[k + 1..]) == BodyText(lines[k + 1..]);
      if first.Done? { AfterTwice(chunks, [Break] + first.chunks, ExpandLines(repo, path, lines[k + 1..], first.loaded, loading)); }
  }

  lemma {:induction false} AfterNothing(out: Outcome)
    ensures After([], out) == out
  {
    if out.Done? { assert [] + out.chunks == out.chunks; }
  }

  lemma {:induction false} AfterTwice(a: seq<Chunk>, b: seq<Chunk>, rest: Outcome)
    ensures After(a, After(b, rest)) == After(a + b, rest)
  {
    if rest.Done? { assert a + (b + rest.chunks) == (a + b) + rest.chunks; }
  }

  lemma {:induction false} UseText(a: seq<Chunk>, b: seq<Chunk>)
    ensures Text(a + ([Break] + b)) == Text(a) + "\n" + Text(b)
  {
    TextAppend(a, [Break] + b);
    assert ([Break] + b)[1..] == b;
  }

  lemma {:induction false} AssembleText(imports: seq<Chunk>, path: Path, text: string)
    ensures Text(Assemble(imports, path, text))
            == if imports == [] then text else if text == "" then Text(imports) else Text(imports) + "\n" + text
  {
    var gap := if imports == [] || text == "" then [] else [Break];
    TextAppend(imports + gap, [Body(path, text)]);
    TextAppend(imports, gap);
    assert Text([Body(path, text)]) == text && Text(gap) == if gap == [] then "" else "\n";
  }
}
