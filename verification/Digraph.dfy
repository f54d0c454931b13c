/**
 Finite directed graphs as sets of pairs, and the reachability facts shared by the
 scheduler, the graph builder and the affected tracker. An edge `(a, b)` means
 "a requires b".
 */
module Digraph {

  ghost predicate IsPath<T>(edges: set<(T, T)>, path: seq<T>) {
    && |path| > 0
    && forall i | 0 <= i < |path| - 1 :: (path[i], path[i + 1]) in edges
  }

  ghost predicate IsPathFrom<T>(edges: set<(T, T)>, a: T, b: T, path: seq<T>) {
    IsPath(edges, path) && path[0] == a && path[|path| - 1] == b
  }

  /** Reflexive and transitive reachability. */
  ghost predicate Reaches<T(!new)>(edges: set<(T, T)>, a: T, b: T) {
    exists path :: IsPathFrom(edges, a, b, path)
  }

  /** Reachability by at least one edge. */
  ghost predicate StrictlyReaches<T(!new)>(edges: set<(T, T)>, a: T, b: T) {
    exists c :: (a, c) in edges && Reaches(edges, c, b)
  }

  ghost predicate Acyclic<T(!new)>(edges: set<(T, T)>) {
    forall a :: !StrictlyReaches(edges, a, a)
  }

  ghost predicate Closed<T(!new)>(edges: set<(T, T)>, members: iset<T>) {
    forall a, b | (a, b) in edges && a in members :: b in members
  }

  lemma ReachesSelf<T(!new)>(edges: set<(T, T)>, a: T)
    ensures Reaches(edges, a, a)
  {
    assert IsPathFrom(edges, a, a, [a]);
  }

  lemma ReachesCons<T(!new)>(edges: set<(T, T)>, a: T, b: T, c: T)
    requires (a, b) in edges && Reaches(edges, b, c)
    ensures Reaches(edges, a, c)
    ensures StrictlyReaches(edges, a, c)
  {
    var path :| IsPathFrom(edges, b, c, path);
    assert IsPathFrom(edges, a, c, [a] + path);
  }

  lemma ReachesEdge<T(!new)>(edges: set<(T, T)>, a: T, b: T)
    requires (a, b) in edges
    ensures Reaches(edges, a, b)
    ensures StrictlyReaches(edges, a, b)
  {
    ReachesSelf(edges, b);
    ReachesCons(edges, a, b, b);
  }

  /** Induction principle: a set closed under the edges holds all it reaches. */
  lemma {:induction false} ReachesStaysIn<T(!new)>(edges: set<(T, T)>, a: T, b: T, members: iset<T>)
    requires Reaches(edges, a, b) && a in members && Closed(edges, members)
    ensures b in members
  {
    var path :| IsPathFrom(edges, a, b, path);
    PathStaysIn(edges, path, |path| - 1, members);
  }

  lemma {:induction false} PathStaysIn<T(!new)>(edges: set<(T, T)>, path: seq<T>, n: nat, members: iset<T>)
    requires IsPath(edges, path) && path[0] in members && Closed(edges, members) && n < |path|
    ensures path[n] in members
  {
    if n > 0 {
      PathStaysIn(edges, path, n - 1, members);
      assert (path[n - 1], path[n - 1 + 1]) in edges;
    }
  }

  lemma ReachesTrans<T(!new)>(edges: set<(T, T)>, a: T, b: T, c: T)
    requires Reaches(edges, a, b) && Reaches(edges, b, c)
    ensures Reaches(edges, a, c)
  {
    var members := iset x | Reaches(edges, a, x);
    forall x, y | (x, y) in edges && x in members ensures y in members {
      ReachesSnoc(edges, a, x, y);
    }
    ReachesStaysIn(edges, b, c, members);
  }

  lemma ReachesSnoc<T(!new)>(edges: set<(T, T)>, a: T, b: T, c: T)
    requires Reaches(edges, a, b) && (b, c) in edges
    ensures Reaches(edges, a, c)
  {
    var path :| IsPathFrom(edges, a, b, path);
    assert IsPathFrom(edges, a, c, path + [c]);
  }

  /** A reached node is the start itself or lies behind a first edge. */
  lemma ReachesSplit<T(!new)>(edges: set<(T, T)>, a: T, b: T)
    requires Reaches(edges, a, b)
    ensures a == b || StrictlyReaches(edges, a, b)
  {
    var path :| IsPathFrom(edges, a, b, path);
    if |path| > 1 {
      assert (path[0], path[0 + 1]) in edges;
      var rest := path[1..];
      forall i | 0 <= i < |rest| - 1 ensures (rest[i], rest[i + 1]) in edges {
        assert (path[i + 1], path[i + 1 + 1]) in edges;
      }
      assert IsPathFrom(edges, path[1], b, rest);
    }
  }

  lemma ReachesMono<T(!new)>(edges: set<(T, T)>, more: set<(T, T)>, a: T, b: T)
    requires edges <= more && Reaches(edges, a, b)
    ensures Reaches(more, a, b)
  {
    var path :| IsPathFrom(edges, a, b, path);
    assert IsPathFrom(more, a, b, path);
  }

  /** What a new edge adds to reachability: only paths through it. */
  lemma ReachesAfterAdd<T(!new)>(edges: set<(T, T)>, a: T, b: T, x: T, y: T)
    requires Reaches(edges + {(a, b)}, x, y)
    ensures Reaches(edges, x, y) || (Reaches(edges, x, a) && Reaches(edges, b, y))
  {
    var members := iset z | Reaches(edges, x, z) || (Reaches(edges, x, a) && Reaches(edges, b, z));
    forall u, v | (u, v) in edges + {(a, b)} && u in members ensures v in members {
      if (u, v) in edges {
        if Reaches(edges, x, u) {
          ReachesSnoc(edges, x, u, v);
        } else {
          ReachesSnoc(edges, b, u, v);
        }
      } else {
        ReachesSelf(edges, b);
      }
    }
    ReachesSelf(edges, x);
    ReachesStaysIn(edges + {(a, b)}, x, y, members);
  }

  /** A cycle that uses a new edge shows that the edge's target already reached its source. */
  lemma CycleAfterAdd<T(!new)>(edges: set<(T, T)>, a: T, b: T, x: T)
    requires StrictlyReaches(edges + {(a, b)}, x, x)
    ensures StrictlyReaches(edges, x, x) || Reaches(edges, b, a)
  {
    var c :| (x, c) in edges + {(a, b)} && Reaches(edges + {(a, b)}, c, x);
    ReachesAfterAdd(edges, a, b, c, x);
    if (x, c) in edges && !Reaches(edges, c, x) {
      ReachesCons(edges, x, c, a);
      ReachesTrans(edges, b, x, a);
    }
  }

  /** The guard of `Dag::add_edge`: an edge whose target does not reach its source closes no cycle. */
  lemma AddEdgeKeepsAcyclic<T(!new)>(edges: set<(T, T)>, a: T, b: T)
    requires Acyclic(edges) && !Reaches(edges, b, a)
    ensures Acyclic(edges + {(a, b)})
  {
    forall x ensures !StrictlyReaches(edges + {(a, b)}, x, x) {
      if StrictlyReaches(edges + {(a, b)}, x, x) {
        CycleAfterAdd(edges, a, b, x);
      }
    }
  }

  /** Rejected edges are exactly the ones that would close a cycle. */
  lemma AddEdgeClosesCycle<T(!new)>(edges: set<(T, T)>, a: T, b: T)
    requires Reaches(edges, b, a)
    ensures !Acyclic(edges + {(a, b)})
  {
    ReachesMono(edges, edges + {(a, b)}, b, a);
    assert (a, b) in edges + {(a, b)};
    assert StrictlyReaches(edges + {(a, b)}, a, a);
  }

  /** A node reached from elsewhere has an incoming edge. */
  lemma ReachedHasIncoming<T(!new)>(edges: set<(T, T)>, a: T, b: T) returns (x: T)
    requires Reaches(edges, a, b) && a != b
    ensures (x, b) in edges && Reaches(edges, a, x)
  {
    var path :| IsPathFrom(edges, a, b, path);
    x := path[|path| - 2];
    assert (path[|path| - 2], path[|path| - 2 + 1]) in edges;
    assert IsPathFrom(edges, a, x, path[..|path| - 1]);
  }

  /** In an acyclic graph every non-empty set has a member that requires none of the others. */
  lemma SinkExists<T(!new)>(edges: set<(T, T)>, members: set<T>) returns (sink: T)
    requires Acyclic(edges) && members != {}
    ensures sink in members && forall b | (sink, b) in edges :: b !in members
  {
    var start :| start in members;
    sink := SinkBelow(edges, members, start, {});
  }

  lemma {:induction false} SinkBelow<T(!new)>(edges: set<(T, T)>, members: set<T>, at: T, above: set<T>) returns (sink: T)
    requires Acyclic(edges) && at in members && above <= members
    requires forall a | a in above :: StrictlyReaches(edges, a, at)
    ensures sink in members && forall b | (sink, b) in edges :: b !in members
    decreases members - above
  {
    if b :| (at, b) in edges && b in members {
      forall a | a in above + {at} ensures StrictlyReaches(edges, a, b) {
        ReachesEdge(edges, at, b);
        if a in above {
          var c :| (a, c) in edges && Reaches(edges, c, at);
          ReachesSnoc(edges, c, at, b);
        }
      }
      assert at !in above;
      sink := SinkBelow(edges, members, b, above + {at});
    } else {
      sink := at;
    }
  }

  predicate Less(a: nat, b: nat) {
    a < b
  }

  /** Edges that lead from smaller to larger numbers close no cycle. */
  lemma AscendingIsAcyclic(edges: set<(nat, nat)>)
    requires forall e | e in edges :: e.0 < e.1
    ensures Acyclic(edges)
  {
    forall x: nat ensures !StrictlyReaches(edges, x, x) {
      if StrictlyReaches(edges, x, x) {
        var b :| (x, b) in edges && Reaches(edges, b, x);
        ReachesStaysIn(edges, b, x, iset z | Less(x, z));
      }
    }
  }
}
