/** Paths in a finite directed graph. */
module Graph {
  type Edges<!N(==)> = set<(N, N)>

  ghost predicate IsPath<N>(edges: Edges<N>, p: seq<N>, a: N, b: N) {
    && p != [] && p[0] == a && p[|p| - 1] == b
    && (forall i :: 0 <= i < |p| - 1 ==> (p[i], p[i + 1]) in edges)
  }

  ghost predicate Reach<N(!new)>(edges: Edges<N>, a: N, b: N) {
    exists p :: IsPath(edges, p, a, b)
  }

  /** The edges and their reverses. */
  ghost function Both<N>(edges: Edges<N>): Edges<N> {
    edges + set e | e in edges :: (e.1, e.0)
  }

  /** Connected when edges may be walked either way. */
  ghost predicate Connected<N(!new)>(edges: Edges<N>, a: N, b: N) {
    Reach(Both(edges), a, b)
  }

  lemma ReachSelf<N(!new)>(edges: Edges<N>, a: N)
    ensures Reach(edges, a, a)
  {
    assert IsPath(edges, [a], a, a);
  }

  lemma ReachEdge<N(!new)>(edges: Edges<N>, a: N, b: N)
    requires (a, b) in edges
    ensures Reach(edges, a, b)
  {
    assert IsPath(edges, [a, b], a, b);
  }

  lemma ReachJoins<N(!new)>(edges: Edges<N>, a: N, b: N, c: N)
    requires Reach(edges, a, b) && Reach(edges, b, c)
    ensures Reach(edges, a, c)
  {
    var p :| IsPath(edges, p, a, b);
    var q :| IsPath(edges, q, b, c);
    assert IsPath(edges, p + q[1..], a, c);
  }

  lemma ReachGrows<N(!new)>(edges: Edges<N>, more: Edges<N>, a: N, b: N)
    requires Reach(edges, a, b) && edges <= more
    ensures Reach(more, a, b)
  {
    var p :| IsPath(edges, p, a, b);
    assert IsPath(more, p, a, b);
  }

  /** A set closed under the edges holds everything reachable from it. */
  lemma {:induction false} ReachStaysIn<N(!new)>(edges: Edges<N>, closed: iset<N>, p: seq<N>, a: N, b: N)
    requires forall e :: e in edges && e.0 in closed ==> e.1 in closed
    requires a in closed && IsPath(edges, p, a, b)
    ensures b in closed
    decreases |p|
  {
    if |p| > 1 {
      assert (p[0], p[1]) in edges;
      assert IsPath(edges, p[1..], p[1], b);
      ReachStaysIn(edges, closed, p[1..], p[1], b);
    }
  }

  lemma {:induction false} PathTurns<N(!new)>(edges: Edges<N>, p: seq<N>, a: N, b: N)
    requires (forall e :: e in edges ==> (e.1, e.0) in edges) && IsPath(edges, p, a, b)
    ensures Reach(edges, b, a)
    decreases |p|
  {
    if |p| == 1 {
      ReachSelf(edges, a);
    } else {
      assert (p[0], p[1]) in edges;
      assert IsPath(edges, p[1..], p[1], b);
      PathTurns(edges, p[1..], p[1], b);
      ReachEdge(edges, p[1], a);
      ReachJoins(edges, b, p[1], a);
    }
  }

  // ---- Connectedness is an equivalence.

  lemma BothTurns<N(!new)>(edges: Edges<N>)
    ensures forall e :: e in Both(edges) ==> (e.1, e.0) in Both(edges)
  {
    forall e | e in Both(edges) ensures (e.1, e.0) in Both(edges) {
      if e in edges {
      } else {
        var f :| f in edges && (f.1, f.0) == e;
        assert f == (e.1, e.0);
      }
    }
  }

  lemma ConnectedTurns<N(!new)>(edges: Edges<N>, a: N, b: N)
    requires Connected(edges, a, b)
    ensures Connected(edges, b, a)
  {
    BothTurns(edges);
    var p :| IsPath(Both(edges), p, a, b);
    PathTurns(Both(edges), p, a, b);
  }

  lemma ConnectedJoins<N(!new)>(edges: Edges<N>, a: N, b: N, c: N)
    requires Connected(edges, a, b) && Connected(edges, b, c)
    ensures Connected(edges, a, c)
  {
    ReachJoins(Both(edges), a, b, c);
  }

  lemma ConnectedGrows<N(!new)>(edges: Edges<N>, more: Edges<N>, a: N, b: N)
    requires Connected(edges, a, b) && edges <= more
    ensures Connected(more, a, b)
  {
    ReachGrows(Both(edges), Both(more), a, b);
  }

  // ---- Walking with the edges only.

  lemma ReachConnects<N(!new)>(edges: Edges<N>, a: N, b: N)
    requires Reach(edges, a, b)
    ensures Connected(edges, a, b)
  {
    ReachGrows(edges, Both(edges), a, b);
  }

  ghost predicate Symmetric<N>(edges: Edges<N>) {
    forall e :: e in edges ==> (e.1, e.0) in edges
  }

  lemma SymmetricReach<N(!new)>(edges: Edges<N>, a: N, b: N)
    requires Symmetric(edges)
    ensures Reach(edges, a, b) <==> Connected(edges, a, b)
  {
    assert Both(edges) == edges;
  }
}
