/**
  Certification predicates: evidence categories, and the depth-first search that refuses a
  certification graph with a directed cycle.
 */
module Certification {
  import opened Common
  import opened Strings

  type Seat = string

  datatype Category = LiveData | FileLine | NoCategory

  datatype Certifier = Certifier(
    seat: Option<Seat>, model: Option<string>, evidenceRef: string, category: Option<Category>)

  /** `notValueKey` says that `under_b` has the key at all; `notValue` that its value is not null. */
  datatype Predicate = Predicate(
    authorSeat: Option<Seat>, authorModel: Option<string>, hypothesis: string,
    observable: bool, notValueKey: bool, notValue: bool, certifier: Certifier)

  datatype Reason = NonExclusivePredicate | ReciprocalCertification | EvidenceCategoryMismatch

  function ResolveEvidenceCategory(ref: string): Category {
    if "live:" <= ref then LiveData
    else
      var k := LastIndex(ref, ':');
      if k > 0 && k + 1 < |ref| && AllDigits(ref[k + 1..]) then FileLine else NoCategory
  }

  /** The reference names live data. */
  ghost predicate IsLiveRef(ref: string) {
    |ref| >= 5 && ref[..5] == "live:"
  }

  /** The reference ends in a colon and a line number, after something. */
  ghost predicate IsLineRef(ref: string) {
    exists k | 0 < k < |ref| - 1 :: ref[k] == ':' && forall i | k < i < |ref| :: '0' <= ref[i] <= '9'
  }

  lemma EvidenceMeans(ref: string)
    ensures ResolveEvidenceCategory(ref).LiveData? <==> IsLiveRef(ref)
    ensures ResolveEvidenceCategory(ref).FileLine? <==> !IsLiveRef(ref) && IsLineRef(ref)
  {
    var k := LastIndex(ref, ':');
    if j :| 0 < j < |ref| - 1 && ref[j] == ':' && forall i | j < i < |ref| :: '0' <= ref[i] <= '9' {
      assert j == k;
    }
    if 0 < k < |ref| - 1 && AllDigits(ref[k + 1..]) {
      assert forall i | k < i < |ref| :: ref[i] == ref[k + 1..][i - k - 1];
    }
  }

  // ---------------------------------------------------------------------------
  // Cycles
  // ---------------------------------------------------------------------------

  type Edges = set<(Seat, Seat)>

  ghost predicate IsPath(edges: Edges, p: seq<Seat>) {
    forall i | 0 <= i < |p| - 1 :: (p[i], p[i + 1]) in edges
  }

  ghost predicate IsCycle(edges: Edges, p: seq<Seat>) {
    |p| >= 2 && p[0] == p[|p| - 1] && IsPath(edges, p)
  }

  ghost predicate HasCycle(edges: Edges) {
    exists p :: IsCycle(edges, p)
  }

  ghost predicate Adjacency(edges: Edges, graph: map<Seat, set<Seat>>) {
    && (forall e | e in edges :: e.0 in graph && e.1 in graph[e.0])
    && (forall s, t | s in graph && t in graph[s] :: (s, t) in edges)
  }

  /** Nodes done with: successors of a done node are done, and no cycle starts at one. */
  ghost predicate Settled(edges: Edges, visited: set<Seat>) {
    && (forall e | e in edges && e.0 in visited :: e.1 in visited)
    && (forall p | IsCycle(edges, p) :: p[0] !in visited)
  }

  lemma {:induction false} PathStaysIn(edges: Edges, visited: set<Seat>, p: seq<Seat>, k: nat)
    requires IsPath(edges, p) && k < |p| && p[0] in visited
    requires forall e | e in edges && e.0 in visited :: e.1 in visited
    ensures p[k] in visited
  {
    if k > 0 {
      PathStaysIn(edges, visited, p, k - 1);
      assert (p[k - 1], p[k]) in edges;
    }
  }

  lemma SettleOne(edges: Edges, visited: set<Seat>, node: Seat)
    requires Settled(edges, visited) && node !in visited
    requires forall e | e in edges && e.0 == node :: e.1 in visited
    ensures Settled(edges, visited + {node})
  {
    forall p | IsCycle(edges, p) ensures p[0] !in visited + {node} {
      if p[0] == node {
        assert (p[0], p[1]) in edges;
        assert IsPath(edges, p[1..]) by {
          forall i | 0 <= i < |p[1..]| - 1 ensures (p[1..][i], p[1..][i + 1]) in edges {
            assert (p[i + 1], p[i + 2]) in edges;
          }
        }
        PathStaysIn(edges, visited, p[1..], |p| - 2);
      }
    }
  }

  /** A node met again on the current path closes a cycle. */
  lemma CloseCycle(edges: Edges, stack: seq<Seat>, node: Seat)
    requires IsPath(edges, stack + [node]) && node in stack
    ensures HasCycle(edges)
  {
    var i :| 0 <= i < |stack| && stack[i] == node;
    var q := stack + [node];
    var p := q[i..];
    forall k | 0 <= k < |p| - 1 ensures (p[k], p[k + 1]) in edges {
      assert (q[i + k], q[i + k + 1]) in edges;
    }
    assert IsCycle(edges, p);
  }

  /** One call of the recursive search. `stack` is the path of nodes being visited. */
  method Visit(graph: map<Seat, set<Seat>>, visiting0: set<Seat>, visited0: set<Seat>, node: Seat,
               ghost edges: Edges, ghost stack: seq<Seat>, ghost nodes: set<Seat>)
    returns (found: bool, visiting: set<Seat>, visited: set<Seat>)
    requires Adjacency(edges, graph) && node in nodes && forall e | e in edges :: e.1 in nodes
    requires visiting0 == (set s | s in stack) && IsPath(edges, stack + [node])
    requires Settled(edges, visited0) && visiting0 !! visited0
    ensures found ==> HasCycle(edges)
    ensures !found ==> visiting == visiting0 && visited0 + {node} <= visited
    ensures !found ==> Settled(edges, visited) && visiting !! visited
    decreases nodes - visiting0 - visited0
  {
    visiting, visited := visiting0, visited0;
    if node in visiting {
      CloseCycle(edges, stack, node);
      return true, visiting, visited;
    }
    if node in visited { return false, visiting, visited; }
    assert node in nodes - visiting0 - visited0;
    visiting := visiting + {node};
    var targets := if node in graph then graph[node] else {};
    var todo := targets;
    while todo != {}
      invariant todo <= targets && targets - todo <= visited
      invariant visiting == visiting0 + {node} && visited0 <= visited
      invariant Settled(edges, visited) && visiting !! visited
      decreases todo
    {
      var target :| target in todo;
      todo := todo - {target};
      ghost var deeper := stack + [node];
      assert IsPath(edges, deeper + [target]) by {
        forall i | 0 <= i < |deeper + [target]| - 1
          ensures ((deeper + [target])[i], (deeper + [target])[i + 1]) in edges
        {
          assert i < |deeper| - 1 ==> (deeper[i], deeper[i + 1]) in edges;
        }
      }
      assert visiting == set s | s in deeper;
      found, visiting, visited := Visit(graph, visiting, visited, target, edges, deeper, nodes);
      if found { return; }
    }
    assert forall e | e in edges && e.0 == node :: e.1 in visited;
    SettleOne(edges, visited, node);
    visiting := visiting - {node};
    visited := visited + {node};
    found := false;
  }

  method BuildGraph(edges: Edges) returns (graph: map<Seat, set<Seat>>)
    ensures Adjacency(edges, graph)
  {
    graph := map[];
    var todo := edges;
    while todo != {}
      invariant todo <= edges && Adjacency(edges - todo, graph)
      decreases todo
    {
      var e :| e in todo;
      todo := todo - {e};
      graph := graph[e.0 := (if e.0 in graph then graph[e.0] else {}) + {e.1}];
    }
    assert edges - todo == edges;
  }

  lemma CyclesStartAtKeys(edges: Edges, graph: map<Seat, set<Seat>>)
    requires Adjacency(edges, graph)
    ensures forall p | IsCycle(edges, p) :: p[0] in graph
  {
    forall p | IsCycle(edges, p) ensures p[0] in graph {
      assert (p[0], p[1]) in edges;
    }
  }

  /** The search answers true exactly when the graph has a directed cycle. */
  method DetectCycle(edges: Edges) returns (found: bool)
    ensures found <==> HasCycle(edges)
  {
    var graph := BuildGraph(edges);
    ghost var nodes := graph.Keys + (set e | e in edges :: e.1);
    CyclesStartAtKeys(edges, graph);
    var visiting: set<Seat>, visited: set<Seat> := {}, {};
    var todo := graph.Keys;
    while todo != {}
      invariant todo <= graph.Keys && graph.Keys - todo <= visited
      invariant visiting == {} && Settled(edges, visited)
      decreases todo
    {
      var node :| node in todo;
      todo := todo - {node};
      assert IsPath(edges, [] + [node]);
      found, visiting, visited := Visit(graph, visiting, visited, node, edges, [], nodes);
      if found { return true; }
    }
    return false;
  }

  // ---------------------------------------------------------------------------
  // The predicate checks
  // ---------------------------------------------------------------------------

  ghost predicate SelfCertified(p: Predicate) {
    p.certifier.seat == p.authorSeat || p.certifier.model == p.authorModel
  }

  ghost predicate Exclusive(p: Predicate) {
    p.notValueKey && p.observable
  }

  /** The category the certifier declares is the one its evidence reference has. */
  ghost predicate ShowsItsCategory(p: Predicate) {
    var ref, category := p.certifier.evidenceRef, p.certifier.category;
    if IsLiveRef(ref) then category == Some(LiveData)
    else if IsLineRef(ref) then category == Some(FileLine)
    else category == Some(NoCategory)
  }

  predicate NamesBoth(p: Predicate) {
    p.authorSeat.Some? && p.authorSeat.value != "" && p.certifier.seat.Some? && p.certifier.seat.value != ""
  }

  ghost predicate Certifies(p: Predicate, author: Seat, certifier: Seat) {
    author != "" && certifier != "" && p.authorSeat == Some(author) && p.certifier.seat == Some(certifier)
  }

  /** Author-to-certifier edges of the predicates that name both seats. */
  ghost function CertificationEdges(ps: seq<Predicate>): (edges: Edges)
    ensures forall a, b :: (a, b) in edges <==> exists p | p in ps :: Certifies(p, a, b)
  {
    var edges := set p | p in ps && NamesBoth(p) :: (p.authorSeat.value, p.certifier.seat.value);
    assert forall a, b, p | p in ps && Certifies(p, a, b) :: NamesBoth(p);
    edges
  }

  lemma EdgesPush(ps: seq<Predicate>, p: Predicate)
    ensures CertificationEdges(ps + [p]) ==
      CertificationEdges(ps) + if NamesBoth(p) then {(p.authorSeat.value, p.certifier.seat.value)} else {}
  {
    assert forall q :: q in ps + [p] <==> q in ps || q == p;
  }

  /** What one predicate alone is blocked for. */
  function OwnReasons(p: Predicate): (r: seq<Reason>)
    ensures NonExclusivePredicate in r <==> !Exclusive(p)
    ensures ReciprocalCertification in r <==> SelfCertified(p)
    ensures EvidenceCategoryMismatch in r <==> !ShowsItsCategory(p)
  {
    EvidenceMeans(p.certifier.evidenceRef);
    (if !p.notValueKey || !p.observable then [NonExclusivePredicate] else [])
    + (if p.certifier.seat == p.authorSeat then [ReciprocalCertification] else [])
    + (if p.certifier.model == p.authorModel then [ReciprocalCertification] else [])
    + (if p.certifier.category != Some(ResolveEvidenceCategory(p.certifier.evidenceRef))
       then [EvidenceCategoryMismatch] else [])
  }

  ghost predicate Raised(ps: seq<Predicate>, r: Reason) {
    exists k :: 0 <= k < |ps| && r in OwnReasons(ps[k])
  }

  lemma RaisedPush(ps: seq<Predicate>, p: Predicate, r: Reason)
    ensures Raised(ps + [p], r) <==> Raised(ps, r) || r in OwnReasons(p)
  {
    if Raised(ps, r) {
      var k :| 0 <= k < |ps| && r in OwnReasons(ps[k]);
      assert (ps + [p])[k] == ps[k];
    }
    assert (ps + [p])[|ps|] == p;
  }

  /** `reciprocal-certification` is raised iff some predicate certifies itself by seat or model, or
      the seats certify each other in a circle; the other two reasons have one cause each. */
  method PredicateBlocks(ps: seq<Predicate>) returns (reasons: seq<Reason>)
    ensures ReciprocalCertification in reasons <==>
      (exists k :: 0 <= k < |ps| && SelfCertified(ps[k])) || HasCycle(CertificationEdges(ps))
    ensures NonExclusivePredicate in reasons <==> exists k :: 0 <= k < |ps| && !Exclusive(ps[k])
    ensures EvidenceCategoryMismatch in reasons <==> exists k :: 0 <= k < |ps| && !ShowsItsCategory(ps[k])
  {
    reasons := [];
    var edges: Edges := {};
    for i := 0 to |ps|
      invariant edges == CertificationEdges(ps[..i])
      invariant forall r :: r in reasons <==> Raised(ps[..i], r)
    {
      var p := ps[i];
      assert ps[..i + 1] == ps[..i] + [p];
      EdgesPush(ps[..i], p);
      forall r { RaisedPush(ps[..i], p, r); }
      reasons := reasons + OwnReasons(p);
      if NamesBoth(p) { edges := edges + {(p.authorSeat.value, p.certifier.seat.value)}; }
    }
    assert ps[..|ps|] == ps;
    var cyclic := DetectCycle(edges);
    if cyclic { reasons := reasons + [ReciprocalCertification]; }
    assert forall r | r != ReciprocalCertification :: r in reasons <==> Raised(ps, r);
    assert ReciprocalCertification in reasons <==> Raised(ps, ReciprocalCertification) || cyclic;
  }
}
