/**
  Three import closures: a depth-first worklist over readable files, a breadth-first worklist
  over scoped test files, and rounds to a fixed point. All three compute the reachable set of
  their own graph, which is the least set that holds the roots and is closed under the edges.
 */
module ImportClosure {
  import opened Common
  import opened Strings

  type Path = string

  // ---------------------------------------------------------------------------
  // Reachability
  // ---------------------------------------------------------------------------

  type Graph = map<Path, set<Path>>

  predicate Edge(graph: Graph, p: Path, q: Path) {
    p in graph && q in graph[p]
  }

  ghost predicate IsChain(roots: set<Path>, graph: Graph, c: seq<Path>) {
    && |c| > 0 && c[0] in roots
    && forall i | 0 <= i < |c| - 1 :: Edge(graph, c[i], c[i + 1])
  }

  ghost predicate Reaches(roots: set<Path>, graph: Graph, p: Path) {
    exists c :: IsChain(roots, graph, c) && c[|c| - 1] == p
  }

  ghost predicate IsReachableSet(roots: set<Path>, graph: Graph, s: set<Path>) {
    forall p :: p in s <==> Reaches(roots, graph, p)
  }

  ghost predicate Closed(roots: set<Path>, graph: Graph, s: set<Path>) {
    roots <= s && forall p, q | p in s && Edge(graph, p, q) :: q in s
  }

  ghost predicate IsLeastClosed(roots: set<Path>, graph: Graph, s: set<Path>) {
    Closed(roots, graph, s) && forall t | Closed(roots, graph, t) :: s <= t
  }

  lemma RootReaches(roots: set<Path>, graph: Graph, p: Path)
    requires p in roots
    ensures Reaches(roots, graph, p)
  {
    assert IsChain(roots, graph, [p]);
  }

  lemma EdgeReaches(roots: set<Path>, graph: Graph, p: Path, q: Path)
    requires Reaches(roots, graph, p) && Edge(graph, p, q)
    ensures Reaches(roots, graph, q)
  {
    var c :| IsChain(roots, graph, c) && c[|c| - 1] == p;
    var d := c + [q];
    forall i | 0 <= i < |d| - 1 ensures Edge(graph, d[i], d[i + 1]) {
      if i < |c| - 1 {
        assert Edge(graph, c[i], c[i + 1]);
      }
    }
    assert IsChain(roots, graph, d);
  }

  lemma {:induction false} ChainStaysIn(roots: set<Path>, graph: Graph, s: set<Path>, c: seq<Path>, k: nat)
    requires Closed(roots, graph, s) && IsChain(roots, graph, c) && k < |c|
    ensures c[k] in s
  {
    if k > 0 {
      ChainStaysIn(roots, graph, s, c, k - 1);
      assert Edge(graph, c[k - 1], c[k]);
    }
  }

  lemma ReachedIsInClosed(roots: set<Path>, graph: Graph, s: set<Path>)
    requires Closed(roots, graph, s)
    ensures forall p | Reaches(roots, graph, p) :: p in s
  {
    forall p | Reaches(roots, graph, p) ensures p in s {
      var c :| IsChain(roots, graph, c) && c[|c| - 1] == p;
      ChainStaysIn(roots, graph, s, c, |c| - 1);
    }
  }

  /** Being the reachable set and being the least closed set are the same thing. */
  lemma ReachableIffLeastClosed(roots: set<Path>, graph: Graph, s: set<Path>)
    ensures IsReachableSet(roots, graph, s) <==> IsLeastClosed(roots, graph, s)
  {
    if IsReachableSet(roots, graph, s) {
      forall p | p in roots ensures p in s { RootReaches(roots, graph, p); }
      forall p, q | p in s && Edge(graph, p, q) ensures q in s { EdgeReaches(roots, graph, p, q); }
      forall t | Closed(roots, graph, t) ensures s <= t { ReachedIsInClosed(roots, graph, t); }
    }
    if IsLeastClosed(roots, graph, s) {
      ReachedIsInClosed(roots, graph, s);
      var t := set p | p in s && Reaches(roots, graph, p);
      forall p | p in roots ensures p in t { RootReaches(roots, graph, p); }
      forall p, q | p in t && Edge(graph, p, q) ensures q in t { EdgeReaches(roots, graph, p, q); }
      assert Closed(roots, graph, t);
    }
  }

  ghost function Everything(roots: set<Path>, graph: Graph): set<Path> {
    roots + set p, q | p in graph && q in graph[p] :: q
  }

  /** `done` and `todo` cover the roots and every edge out of `done`, and hold nothing else. */
  ghost predicate Frontier(roots: set<Path>, graph: Graph, done: set<Path>, todo: set<Path>) {
    && (forall p | p in roots :: p in done || p in todo)
    && (forall p, q | p in done && Edge(graph, p, q) :: q in done || q in todo)
    && (forall p | p in done :: Reaches(roots, graph, p))
    && (forall p | p in todo :: Reaches(roots, graph, p))
  }

  lemma FrontierIsDone(roots: set<Path>, graph: Graph, done: set<Path>)
    requires Frontier(roots, graph, done, {})
    ensures IsReachableSet(roots, graph, done)
  {
    ReachedIsInClosed(roots, graph, done);
  }

  lemma ReachedIsSomething(roots: set<Path>, graph: Graph, p: Path)
    requires Reaches(roots, graph, p)
    ensures p in Everything(roots, graph)
  {
    var c :| IsChain(roots, graph, c) && c[|c| - 1] == p;
    if |c| > 1 {
      assert Edge(graph, c[|c| - 2], c[|c| - 1]);
    }
  }

  lemma FrontierDrops(roots: set<Path>, graph: Graph, done: set<Path>, todo: set<Path>, rest: set<Path>)
    requires Frontier(roots, graph, done, todo)
    requires forall q | q in todo :: q in done || q in rest
    requires forall q | q in rest :: q in todo
    ensures Frontier(roots, graph, done, rest)
  {
  }

  /** Processing a node not done before: its successors join the nodes to do. */
  lemma FrontierAdvances(roots: set<Path>, graph: Graph, done: set<Path>, todo: set<Path>, p: Path, rest: set<Path>)
    requires Frontier(roots, graph, done, todo) && p in todo && p !in done
    requires forall q | q in todo :: q == p || q in rest
    requires forall q | Edge(graph, p, q) :: q == p || q in rest || q in done
    requires forall q | q in rest :: q in todo || Edge(graph, p, q)
    ensures Frontier(roots, graph, done + {p}, rest)
    ensures |Everything(roots, graph) - (done + {p})| < |Everything(roots, graph) - done|
  {
    forall q | q in rest ensures Reaches(roots, graph, q) {
      if q !in todo {
        EdgeReaches(roots, graph, p, q);
      }
    }
    forall a, b | a in done + {p} && Edge(graph, a, b) ensures b in done + {p} || b in rest {
      if a == p {
        assert Edge(graph, p, b);
      } else {
        assert b in done || b in todo;
      }
    }
    ReachedIsSomething(roots, graph, p);
    Shrinks(Everything(roots, graph), done, p);
  }

  lemma Shrinks(all: set<Path>, done: set<Path>, p: Path)
    requires p in all && p !in done
    ensures |all - (done + {p})| < |all - done|
  {
    assert all - done == (all - (done + {p})) + {p};
  }

  // ---------------------------------------------------------------------------
  // Depth first, readable files only
  // ---------------------------------------------------------------------------

  /** A readable file: one whose parse raises, or one with the modules it imports by absolute name. */
  datatype Source = Unparsable | Parsed(imports: set<string>)

  /** `sources` are the readable files; `modules` resolves a non-library module name to a raw path. */
  datatype Repo = Repo(sources: map<Path, Source>, modules: map<string, Path>)

  /** Strips every leading dot and slash. */
  function Stripped(s: string): (r: string)
    ensures r == "" || (r[0] != '.' && r[0] != '/')
    ensures |r| <= |s| && r == s[|s| - |r|..]
    ensures forall i | 0 <= i < |s| - |r| :: s[i] == '.' || s[i] == '/'
  {
    if s != "" && (s[0] == '.' || s[0] == '/') then Stripped(s[1..]) else s
  }

  predicate IsSlash(c: char) {
    c == '/' || c == '\\'
  }

  /** Leading dots and slashes of either kind are gone; in what is left backslashes are slashes. */
  function Normalise(path: Path): (r: Path)
    ensures |r| <= |path| && (r != "" ==> r[0] != '.' && r[0] != '/')
    ensures forall i | 0 <= i < |path| - |r| :: path[i] == '.' || IsSlash(path[i])
    ensures forall i | 0 <= i < |r| ::
      var c := path[|path| - |r| + i];
      r[i] == if IsSlash(c) then '/' else c
  {
    Stripped(ReplaceChar(path, '\\', '/'))
  }

  /** Normalising once is enough: the second pass on a popped path changes nothing. */
  lemma NormaliseIsIdempotent(path: Path)
    ensures Normalise(Normalise(path)) == Normalise(path)
  {
    var s := ReplaceChar(path, '\\', '/');
    var r := Stripped(s);
    var k := |s| - |r|;
    forall i | 0 <= i < |r| ensures r[i] != '\\' {
      assert r[i] == s[k + i];
    }
    ReplaceNothing(r, '\\', '/');
  }

  function ModuleToPath(repo: Repo, m: string): Option<Path> {
    if m in repo.modules && Normalise(repo.modules[m]) != "" then Some(Normalise(repo.modules[m])) else None
  }

  /** File `p` imports a module that is not a library's and whose path is `q`. */
  ghost predicate Imports(repo: Repo, p: Path, q: Path) {
    && p in repo.sources && repo.sources[p].Parsed? && q != ""
    && exists m | m in repo.sources[p].imports :: m in repo.modules && Normalise(repo.modules[m]) == q
  }

  /** The import edges between readable files. */
  ghost function ReadableImports(repo: Repo): Graph {
    map p | p in repo.sources :: set q | q in repo.sources && Imports(repo, p, q)
  }

  ghost function ReadableStart(repo: Repo, start: Path): set<Path> {
    if Normalise(start) in repo.sources then {Normalise(start)} else {}
  }

  ghost predicate InReach(repo: Repo, start: Path, p: Path) {
    Reaches(ReadableStart(repo, start), ReadableImports(repo), p)
  }

  /** The part of a worklist, once normalised, that can be read. */
  ghost function Readable(repo: Repo, pending: seq<Path>): set<Path> {
    set p | p in pending && Normalise(p) in repo.sources :: Normalise(p)
  }

  lemma ReadablePops(repo: Repo, pending: seq<Path>)
    requires |pending| > 0
    ensures var last := Normalise(pending[|pending| - 1]);
            forall q :: q in Readable(repo, pending) <==>
              q in Readable(repo, pending[..|pending| - 1]) || (q == last && q in repo.sources)
  {
    var n := |pending| - 1;
    assert pending == pending[..n] + [pending[n]];
  }

  lemma EdgeIsReadableImport(repo: Repo, p: Path, q: Path)
    ensures Edge(ReadableImports(repo), p, q) <==> Imports(repo, p, q) && q in repo.sources
  {
    if Imports(repo, p, q) && q in repo.sources {
      assert q in ReadableImports(repo)[p];
    }
  }

  lemma ImportIsNormal(repo: Repo, p: Path, q: Path)
    requires Imports(repo, p, q)
    ensures Normalise(q) == q
  {
    var m :| m in repo.sources[p].imports && m in repo.modules && Normalise(repo.modules[m]) == q;
    NormaliseIsIdempotent(repo.modules[m]);
  }

  method PushImports(repo: Repo, p: Path, seen: set<Path>, pending0: seq<Path>) returns (pending: seq<Path>)
    requires p in repo.sources && repo.sources[p].Parsed?
    ensures pending0 <= pending
    ensures forall q | q in pending[|pending0|..] :: Imports(repo, p, q) && q !in seen
    ensures forall q | Imports(repo, p, q) :: q in seen || q in pending
  {
    pending := pending0;
    var imports := repo.sources[p].imports;
    var left := imports;
    while left != {}
      invariant left <= imports
      invariant pending0 <= pending
      invariant forall q | q in pending[|pending0|..] :: Imports(repo, p, q) && q !in seen
      invariant forall m | m in imports - left && ModuleToPath(repo, m).Some? ::
        ModuleToPath(repo, m).value in seen || ModuleToPath(repo, m).value in pending
    {
      var m :| m in left;
      var target := ModuleToPath(repo, m);
      if target.Some? && target.value !in seen {
        pending := pending + [target.value];
      }
      left := left - {m};
    }
    forall q | Imports(repo, p, q) ensures q in seen || q in pending {
      var m :| m in imports && m in repo.modules && Normalise(repo.modules[m]) == q;
      assert m in imports - left && ModuleToPath(repo, m) == Some(q);
    }
  }

  /** What pushing a file's imports adds to the readable part of the worklist. */
  lemma PushedIsReadable(repo: Repo, p: Path, seen: set<Path>, before: seq<Path>, after: seq<Path>)
    requires forall q | q in after :: q in before || Imports(repo, p, q)
    requires forall q | q in before :: q in after
    requires forall q | Imports(repo, p, q) :: q in seen || q in after
    ensures Readable(repo, before) <= Readable(repo, after)
    ensures forall q | Edge(ReadableImports(repo), p, q) :: q in Readable(repo, after) || q in seen
    ensures forall q | q in Readable(repo, after) :: q in Readable(repo, before) || Edge(ReadableImports(repo), p, q)
  {
    forall q | Edge(ReadableImports(repo), p, q) ensures q in Readable(repo, after) || q in seen {
      EdgeIsReadableImport(repo, p, q);
      ImportIsNormal(repo, p, q);
    }
    forall q | q in Readable(repo, after) ensures q in Readable(repo, before) || Edge(ReadableImports(repo), p, q) {
      var raw :| raw in after && Normalise(raw) == q && q in repo.sources;
      if raw !in before {
        ImportIsNormal(repo, p, raw);
        EdgeIsReadableImport(repo, p, raw);
      }
    }
  }

  ghost predicate ReadFrontier(repo: Repo, start: Path, seen: set<Path>, pending: seq<Path>) {
    Frontier(ReadableStart(repo, start), ReadableImports(repo), seen, Readable(repo, pending)) && AllNormal(repo, seen)
  }

  lemma StartFrontier(repo: Repo, start: Path)
    ensures ReadFrontier(repo, start, {}, [start])
  {
    if Normalise(start) in repo.sources {
      RootReaches(ReadableStart(repo, start), ReadableImports(repo), Normalise(start));
    }
  }

  /** A popped path that was seen, or that cannot be read, drops out. */
  lemma SkipKeepsFrontier(repo: Repo, start: Path, seen: set<Path>, pending: seq<Path>)
    requires pending != [] && ReadFrontier(repo, start, seen, pending)
    requires var path := Normalise(pending[|pending| - 1]); path in seen || path !in repo.sources
    ensures ReadFrontier(repo, start, seen, pending[..|pending| - 1])
  {
    ReadablePops(repo, pending);
    FrontierDrops(ReadableStart(repo, start), ReadableImports(repo), seen,
                  Readable(repo, pending), Readable(repo, pending[..|pending| - 1]));
  }

  /** `after` is the worklist without its last path and with that path's imports. */
  ghost predicate Pushed(repo: Repo, pending: seq<Path>, path: Path, seen: set<Path>, after: seq<Path>)
    requires pending != []
  {
    var before := pending[..|pending| - 1];
    && (forall q | q in after :: q in before || Imports(repo, path, q))
    && (forall q | q in before :: q in after)
    && (forall q | Imports(repo, path, q) :: q in seen || q in after)
  }

  lemma PushedShows(repo: Repo, pending: seq<Path>, path: Path, seen: set<Path>, after: seq<Path>)
    requires pending != [] && pending[..|pending| - 1] <= after
    requires forall q | q in after[|pending| - 1..] :: Imports(repo, path, q) && q !in seen
    requires forall q | Imports(repo, path, q) :: q in seen || q in after
    ensures Pushed(repo, pending, path, seen, after)
  {
    var before := pending[..|pending| - 1];
    assert after == before + after[|before|..];
  }

  lemma PushedFacts(repo: Repo, pending: seq<Path>, path: Path, seen: set<Path>, after: seq<Path>)
    requires pending != [] && path == Normalise(pending[|pending| - 1]) && path in repo.sources
    requires Pushed(repo, pending, path, seen + {path}, after)
    ensures path in Readable(repo, pending)
    ensures forall q | q in Readable(repo, pending) :: q == path || q in Readable(repo, after)
    ensures forall q | Edge(ReadableImports(repo), path, q) :: q == path || q in Readable(repo, after) || q in seen
    ensures forall q | q in Readable(repo, after) ::
      q in Readable(repo, pending) || Edge(ReadableImports(repo), path, q)
  {
    PushedIsReadable(repo, path, seen + {path}, pending[..|pending| - 1], after);
    ReadablePops(repo, pending);
  }

  ghost predicate AllNormal(repo: Repo, seen: set<Path>) {
    forall p | p in seen :: p in repo.sources && repo.sources[p].Parsed? && Normalise(p) == p
  }

  lemma ReadKeepsFrontier(repo: Repo, start: Path, seen: set<Path>, pending: seq<Path>, path: Path, after: seq<Path>)
    requires pending != [] && Frontier(ReadableStart(repo, start), ReadableImports(repo), seen, Readable(repo, pending))
    requires path == Normalise(pending[|pending| - 1]) && path !in seen
    requires path in repo.sources && Pushed(repo, pending, path, seen + {path}, after)
    ensures Frontier(ReadableStart(repo, start), ReadableImports(repo), seen + {path}, Readable(repo, after))
    ensures var all := Everything(ReadableStart(repo, start), ReadableImports(repo));
            |all - (seen + {path})| < |all - seen|
  {
    PushedFacts(repo, pending, path, seen, after);
    FrontierAdvances(ReadableStart(repo, start), ReadableImports(repo), seen,
                     Readable(repo, pending), path, Readable(repo, after));
  }

  lemma EmptyFrontier(repo: Repo, start: Path, seen: set<Path>)
    requires ReadFrontier(repo, start, seen, [])
    ensures IsReachableSet(ReadableStart(repo, start), ReadableImports(repo), seen)
    ensures !exists p :: InReach(repo, start, p) && p in repo.sources && repo.sources[p].Unparsable?
  {
    assert Readable(repo, []) == {};
    FrontierIsDone(ReadableStart(repo, start), ReadableImports(repo), seen);
  }

  /**
    The worklist of files behind a failing test. It raises exactly when some file in reach
    does not parse; otherwise it returns the readable files in reach, all normalised.
   */
  method FilesBehind(repo: Repo, start: Path) returns (r: Option<set<Path>>)
    ensures r.None? <==> exists p :: InReach(repo, start, p) && p in repo.sources && repo.sources[p].Unparsable?
    ensures r.Some? ==> IsReachableSet(ReadableStart(repo, start), ReadableImports(repo), r.value)
    ensures r.Some? ==> forall p | p in r.value :: p in repo.sources && Normalise(p) == p
  {
    var pending, seen := [start], {};
    StartFrontier(repo, start);
    while pending != []
      invariant ReadFrontier(repo, start, seen, pending)
      decreases |Everything(ReadableStart(repo, start), ReadableImports(repo)) - seen|, |pending|
    {
      var path := Normalise(pending[|pending| - 1]);
      ghost var before := pending;
      pending := pending[..|pending| - 1];
      if path in seen || path !in repo.sources {
        SkipKeepsFrontier(repo, start, seen, before);
        continue;
      }
      if repo.sources[path].Unparsable? {
        ReadablePops(repo, before);
        assert path in Readable(repo, before);
        assert InReach(repo, start, path);
        return None;
      }
      pending := PushImports(repo, path, seen + {path}, pending);
      PushedShows(repo, before, path, seen + {path}, pending);
      ReadKeepsFrontier(repo, start, seen, before, path, pending);
      NormaliseIsIdempotent(before[|before| - 1]);
      seen := seen + {path};
    }
    EmptyFrontier(repo, start, seen);
    return Some(seen);
  }

  // ---------------------------------------------------------------------------
  // Breadth first, scoped test files
  // ---------------------------------------------------------------------------

  /**
    Test tree of the mutation gate: the files each parsable file imports, in order (a file that
    cannot be read or parsed has no entry), and which files lie in a scoped tree.
   */
  datatype Tree = Tree(targets: map<Path, seq<Path>>, scoped: set<Path>)

  datatype PairClosure = PairClosure(refused: set<Path>, legal: set<Path>)

  ghost function ScopedImports(tree: Tree): Graph {
    map p | p in tree.targets :: set q | q in tree.targets[p] && q in tree.scoped
  }

  predicate IsPytestFile(p: Path, name: Path -> string) {
    name(p) == "conftest.py" || name(p) == "__init__.py" || "test_" <= name(p)
  }

  /** Unscoped files that a file of `from` imports. */
  ghost function UnscopedImports(tree: Tree, from: set<Path>): set<Path> {
    set p, q | p in from && p in tree.targets && q in tree.targets[p] && q !in tree.scoped :: q
  }

  ghost function Items(s: seq<Path>): set<Path> {
    set p | p in s
  }

  lemma UnscopedImportsSplit(tree: Tree, from: set<Path>, p: Path)
    ensures UnscopedImports(tree, from + {p}) == UnscopedImports(tree, from) + UnscopedImports(tree, {p})
  {
  }

  ghost function TargetsIn(tree: Tree, p: Path): set<Path> {
    if p in tree.targets then ScopedImports(tree)[p] else {}
  }

  method EnqueueTargets(
    tree: Tree, source: Path, seen: set<Path>, queue0: seq<Path>, refused0: set<Path>, legal0: set<Path>)
    returns (queue: seq<Path>, refused: set<Path>, legal: set<Path>)
    requires source in tree.targets
    ensures queue0 <= queue
    ensures forall q | q in queue[|queue0|..] :: q in TargetsIn(tree, source) && q !in seen
    ensures forall q | q in TargetsIn(tree, source) :: q in Items(queue) || q in seen
    ensures refused == refused0 + TargetsIn(tree, source)
    ensures legal == legal0 + UnscopedImports(tree, {source})
  {
    queue, refused, legal := queue0, refused0, legal0;
    var targets := tree.targets[source];
    for k := 0 to |targets|
      invariant queue0 <= queue
      invariant forall q | q in queue[|queue0|..] :: q in targets && q in tree.scoped && q !in seen
      invariant forall i | 0 <= i < k && targets[i] in tree.scoped :: targets[i] in queue || targets[i] in seen
      invariant refused == refused0 + set i | 0 <= i < k && targets[i] in tree.scoped :: targets[i]
      invariant legal == legal0 + set i | 0 <= i < k && targets[i] !in tree.scoped :: targets[i]
    {
      var target := targets[k];
      if target in tree.scoped {
        refused := refused + {target};
        if target !in seen {
          queue := queue + [target];
        }
      } else {
        legal := legal + {target};
      }
    }
  }

  /** Where the queue, the refused and the legal files stand against the sources done. */
  ghost predicate Progress(tree: Tree, roots: set<Path>, inits: set<Path>,
                           done: set<Path>, todo: set<Path>, refused: set<Path>, legal: set<Path>) {
    && Frontier(roots, ScopedImports(tree), done, todo)
    && (forall p :: p in refused <==> p in done || p in todo || p in inits)
    && legal == UnscopedImports(tree, done)
  }

  lemma SourceKeepsProgress(tree: Tree, roots: set<Path>, inits: set<Path>, done: set<Path>, todo: set<Path>,
                            refused: set<Path>, legal: set<Path>, p: Path, rest: set<Path>, queued: set<Path>)
    requires Progress(tree, roots, inits, done, todo, refused, legal)
    requires p !in done && forall q :: q in todo <==> q == p || q in rest
    requires forall q | q in rest :: q in queued
    requires forall q | q in queued :: q in rest || q in TargetsIn(tree, p)
    requires forall q | q in TargetsIn(tree, p) :: q in queued || q in done || q == p
    ensures Progress(tree, roots, inits, done + {p}, queued,
                     refused + TargetsIn(tree, p), legal + UnscopedImports(tree, {p}))
    ensures |Everything(roots, ScopedImports(tree)) - (done + {p})| < |Everything(roots, ScopedImports(tree)) - done|
  {
    assert forall q :: q in TargetsIn(tree, p) <==> Edge(ScopedImports(tree), p, q);
    FrontierAdvances(roots, ScopedImports(tree), done, todo, p, queued);
    UnscopedImportsSplit(tree, done, p);
  }

  lemma DoneSourceKeepsProgress(tree: Tree, roots: set<Path>, inits: set<Path>, done: set<Path>, todo: set<Path>,
                                refused: set<Path>, legal: set<Path>, p: Path, rest: set<Path>)
    requires Progress(tree, roots, inits, done, todo, refused, legal)
    requires p in done && forall q :: q in todo <==> q == p || q in rest
    ensures Progress(tree, roots, inits, done, rest, refused, legal)
  {
  }

  lemma StartIsProgress(tree: Tree, roots: set<Path>, inits: set<Path>)
    ensures Progress(tree, roots, inits, {}, roots, roots + inits, {})
  {
    forall p | p in roots ensures Reaches(roots, ScopedImports(tree), p) {
      RootReaches(roots, ScopedImports(tree), p);
    }
  }

  lemma ItemsOf(queue: seq<Path>)
    requires queue != []
    ensures Items(queue) == Items(queue[1..]) + {queue[0]}
  {
    assert queue == [queue[0]] + queue[1..];
  }

  /** Takes the first source off the queue and, if it is new, sorts what it imports. */
  method TakeSource(tree: Tree, seen0: set<Path>, queue0: seq<Path>, refused0: set<Path>, legal0: set<Path>,
                    ghost roots: set<Path>, ghost inits: set<Path>)
    returns (seen: set<Path>, queue: seq<Path>, refused: set<Path>, legal: set<Path>)
    requires queue0 != [] && Progress(tree, roots, inits, seen0, Items(queue0), refused0, legal0)
    ensures Progress(tree, roots, inits, seen, Items(queue), refused, legal)
    ensures (seen == seen0 && |queue| < |queue0|)
         || |Everything(roots, ScopedImports(tree)) - seen| < |Everything(roots, ScopedImports(tree)) - seen0|
  {
    var source, rest := queue0[0], queue0[1..];
    ItemsOf(queue0);
    seen, queue, refused, legal := seen0, rest, refused0, legal0;
    if source in seen {
      DoneSourceKeepsProgress(tree, roots, inits, seen, Items(queue0), refused, legal, source, Items(rest));
    } else {
      seen := seen + {source};
      if source in tree.targets {
        queue, refused, legal := EnqueueTargets(tree, source, seen, queue, refused, legal);
      } else {
        assert UnscopedImports(tree, {source}) == {};
        assert refused == refused + TargetsIn(tree, source) && legal == legal + UnscopedImports(tree, {source});
      }
      assert queue == rest + queue[|rest|..];
      SourceKeepsProgress(tree, roots, inits, seen0, Items(queue0), refused0, legal0, source,
                          Items(rest), Items(queue));
    }
  }

  /** The queue loop: visits every source once and sorts what it imports. */
  method VisitSources(tree: Tree, test: Path, conftests: seq<Path>, inits: set<Path>)
    returns (refused: set<Path>, legal: set<Path>, seen: set<Path>)
    ensures Progress(tree, {test} + Items(conftests), inits, seen, {}, refused, legal)
  {
    ghost var roots := {test} + Items(conftests);
    var queue := [test] + conftests;
    assert Items(queue) == roots;
    StartIsProgress(tree, roots, inits);
    refused := (set p | p in queue) + inits;
    legal, seen := {}, {};
    while queue != []
      invariant Progress(tree, roots, inits, seen, Items(queue), refused, legal)
      decreases |Everything(roots, ScopedImports(tree)) - seen|, |queue|
    {
      seen, queue, refused, legal := TakeSource(tree, seen, queue, refused, legal, roots, inits);
    }
  }

  /**
    The files a mutation of a test pair may not touch, and those it may. `name` gives a path's
    last component; `inits` are the scoped package files above the test.
   */
  method ClosePair(tree: Tree, test: Path, conftests: seq<Path>, inits: set<Path>, name: Path -> string)
    returns (r: PairClosure, ghost seen: set<Path>)
    ensures IsReachableSet({test} + Items(conftests), ScopedImports(tree), seen)
    ensures r.refused == seen + inits
    ensures r.legal == UnscopedImports(tree, seen) - r.refused
    ensures r.refused !! r.legal && r.legal !! tree.scoped
  {
    var refused, legal, done := VisitSources(tree, test, conftests, inits);
    FrontierIsDone({test} + Items(conftests), ScopedImports(tree), done);
    legal := legal - refused;
    legal := set p | p in legal && !(p in tree.scoped && IsPytestFile(p, name));
    r, seen := PairClosure(refused, legal), done;
  }

  // ---------------------------------------------------------------------------
  // Rounds to a fixed point
  // ---------------------------------------------------------------------------

  function Round(imports: Graph, selected: set<Path>): set<Path> {
    selected + set p, q | p in selected && p in imports && q in imports[p] :: q
  }

  lemma RoundReaches(roots: set<Path>, imports: Graph, selected: set<Path>)
    requires forall p | p in selected :: Reaches(roots, imports, p)
    ensures forall p | p in Round(imports, selected) :: Reaches(roots, imports, p)
  {
    forall q | q in Round(imports, selected) ensures Reaches(roots, imports, q) {
      if q !in selected {
        var p :| p in selected && p in imports && q in imports[p];
        EdgeReaches(roots, imports, p, q);
      }
    }
  }

  lemma RoundShrinks(roots: set<Path>, imports: Graph, selected: set<Path>)
    requires forall p | p in Round(imports, selected) :: Reaches(roots, imports, p)
    requires Round(imports, selected) != selected
    ensures |Everything(roots, imports) - Round(imports, selected)| < |Everything(roots, imports) - selected|
  {
    var all, next := Everything(roots, imports), Round(imports, selected);
    var extra :| extra in next && extra !in selected;
    ReachedIsSomething(roots, imports, extra);
    assert all - selected == (all - next) + ((all - selected) * next);
    assert extra in (all - selected) * next;
  }

  lemma FixedRoundIsLeast(roots: set<Path>, imports: Graph, selected: set<Path>)
    requires roots <= selected && Round(imports, selected) == selected
    requires forall p | p in selected :: Reaches(roots, imports, p)
    ensures IsReachableSet(roots, imports, selected) && IsLeastClosed(roots, imports, selected)
  {
    forall p, q | p in selected && Edge(imports, p, q) ensures q in selected {
      assert q in Round(imports, selected);
    }
    ReachedIsInClosed(roots, imports, selected);
    ReachableIffLeastClosed(roots, imports, selected);
  }

  /** Adds every import of every selected file until nothing is new. */
  method LocalImportClosure(imports: Graph, roots: set<Path>) returns (selected: set<Path>)
    ensures IsReachableSet(roots, imports, selected)
    ensures IsLeastClosed(roots, imports, selected)
  {
    selected := roots;
    forall p | p in roots ensures Reaches(roots, imports, p) { RootReaches(roots, imports, p); }
    while true
      invariant roots <= selected && forall p | p in selected :: Reaches(roots, imports, p)
      decreases |Everything(roots, imports) - selected|
    {
      var next := Round(imports, selected);
      if next == selected {
        FixedRoundIsLeast(roots, imports, selected);
        return;
      }
      RoundReaches(roots, imports, selected);
      RoundShrinks(roots, imports, selected);
      selected := next;
    }
  }
}
