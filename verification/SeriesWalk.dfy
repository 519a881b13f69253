/** Walks from one series over the relation rows. */
module SeriesWalk {
  import opened Franchise
  import opened Graph
  import opened Wrappers

  function StructuralTargets(relations: seq<Relation>): set<Series> {
    set r | r in relations && r.kind.GroupsFranchise() :: r.target
  }

  /** Adds the structural targets of one row, queueing the new ones. */
  method Spread(relations: seq<Relation>, seen0: set<Series>, frontier0: seq<Series>)
    returns (seen: set<Series>, frontier: seq<Series>)
    ensures seen == seen0 + StructuralTargets(relations)
    ensures forall x :: x in frontier <==> x in frontier0 || x in seen - seen0
    ensures seen == seen0 ==> frontier == frontier0
  {
    seen, frontier := seen0, frontier0;
    for j := 0 to |relations|
      invariant seen == seen0 + StructuralTargets(relations[..j])
      invariant forall x :: x in frontier <==> x in frontier0 || x in seen - seen0
      invariant seen == seen0 ==> frontier == frontier0
    {
      TargetsNext(relations, j);
      var r := relations[j];
      if r.kind.GroupsFranchise() && r.target !in seen {
        seen, frontier := seen + {r.target}, frontier + [r.target];
      }
    }
    assert relations[..|relations|] == relations;
  }

  lemma TargetsNext(relations: seq<Relation>, j: nat)
    requires j < |relations|
    ensures StructuralTargets(relations[..j + 1])
         == StructuralTargets(relations[..j]) + if relations[j].kind.GroupsFranchise()
             then {relations[j].target} else {}
  {
    assert relations[..j + 1] == relations[..j] + [relations[j]];
  }

  /** The structural edges out of `x` stay inside `seen`. */
  ghost predicate ClosedAt(rows: map<Series, Row>, seen: set<Series>, x: Series) {
    x in rows ==> StructuralTargets(rows[x].relations) <= seen
  }

  /** Everything seen is queued or done. */
  ghost predicate Pending(rows: map<Series, Row>, seen: set<Series>, frontier: seq<Series>) {
    forall x :: x in seen ==> x in frontier || ClosedAt(rows, seen, x)
  }

  ghost predicate AllReached(edges: Edges<Series>, s: Series, seen: set<Series>) {
    forall x :: x in seen ==> Reach(edges, s, x)
  }

  lemma SpreadReaches(rows: map<Series, Row>, s: Series, seen: set<Series>, current: Series)
    requires AllReached(StructuralEdges(rows), s, seen) && current in seen && current in rows
    ensures AllReached(StructuralEdges(rows), s, seen + StructuralTargets(rows[current].relations))
  {
    var edges := StructuralEdges(rows);
    forall x | x in StructuralTargets(rows[current].relations) ensures Reach(edges, s, x) {
      var r :| r in rows[current].relations && r.kind.GroupsFranchise() && r.target == x;
      assert (current, x) in edges;
      ReachEdge(edges, current, x);
      ReachJoins(edges, s, current, x);
    }
  }

  lemma ClosedHoldsAll(rows: map<Series, Row>, s: Series, seen: set<Series>)
    requires s in seen && AllReached(StructuralEdges(rows), s, seen) && Pending(rows, seen, [])
    ensures forall x :: x in seen <==> Reach(StructuralEdges(rows), s, x)
  {
    var edges := StructuralEdges(rows);
    forall e | e in edges && e.0 in seen ensures e.1 in seen {
      assert ClosedAt(rows, seen, e.0);
      var r :| r in rows[e.0].relations && r.kind.GroupsFranchise() && e.1 == r.target;
      assert r.target in StructuralTargets(rows[e.0].relations);
    }
    forall x | Reach(edges, s, x) ensures x in seen {
      var p :| IsPath(edges, p, s, x);
      ReachStaysIn(edges, (iset z | z in seen), p, s, x);
    }
  }

  ghost function Universe(rows: map<Series, Row>, s: Series): set<Series> {
    {s} + Targets(StructuralEdges(rows))
  }

  lemma TargetsInUniverse(rows: map<Series, Row>, s: Series, x: Series)
    requires x in rows
    ensures StructuralTargets(rows[x].relations) <= Universe(rows, s)
  {
    forall t | t in StructuralTargets(rows[x].relations) ensures t in Universe(rows, s) {
      assert (x, t) in StructuralEdges(rows);
    }
  }

  lemma GapShrinks(universe: set<Series>, seen: set<Series>, more: set<Series>)
    requires seen <= more <= universe && seen != more
    ensures |universe - more| < |universe - seen|
  {
    assert !(more <= seen);
    var x :| x in more && x !in seen;
    assert universe - more <= (universe - seen) - {x};
    SubsetSize(universe - more, (universe - seen) - {x});
  }

  lemma {:induction false} SubsetSize(a: set<Series>, b: set<Series>)
    requires a <= b
    ensures |a| <= |b|
    decreases |a|
  {
    if a != {} {
      var x :| x in a;
      SubsetSize(a - {x}, b - {x});
    }
  }

  /** The walk finds exactly the series reachable along structural edges. */
  method ReachableComponent(rows: map<Series, Row>, s: Series) returns (seen: set<Series>)
    ensures forall x :: x in seen <==> Reach(StructuralEdges(rows), s, x)
  {
    seen := {s};
    var frontier := [s];
    ReachSelf(StructuralEdges(rows), s);
    while frontier != []
      invariant s in seen && seen <= Universe(rows, s)
      invariant AllReached(StructuralEdges(rows), s, seen)
      invariant Pending(rows, seen, frontier) && forall x :: x in frontier ==> x in seen
      decreases |Universe(rows, s) - seen|, |frontier|
    {
      var current := frontier[|frontier| - 1];
      assert frontier == frontier[..|frontier| - 1] + [current];
      frontier := frontier[..|frontier| - 1];
      if current in rows {
        ghost var was := seen;
        SpreadReaches(rows, s, seen, current);
        TargetsInUniverse(rows, s, current);
        seen, frontier := Spread(rows[current].relations, seen, frontier);
        if seen != was {
          GapShrinks(Universe(rows, s), was, seen);
        }
      }
    }
    ClosedHoldsAll(rows, s, seen);
  }

  /** The walk stays in the union-find component, and is all of it once every
      structural relation is recorded from both sides. */
  lemma WalkAgreesWithComponents(lib: Library, roots: Forest, s: Series, seen: set<Series>, x: Series)
    requires IsComponents(lib, roots) && s in roots
    requires forall y :: y in seen <==> Reach(StructuralEdges(lib.relations), s, y)
    ensures x in seen ==> x in roots && roots[x] == roots[s]
    ensures Symmetric(StructuralEdges(lib.relations)) ==> (x in seen <==> x in roots && roots[x] == roots[s])
  {
    var edges := StructuralEdges(lib.relations);
    if x in seen {
      ReachConnects(edges, s, x);
      EdgeEndsKnown(lib, s, x);
      ComponentsPartition(lib, roots, s, x);
    }
    if Symmetric(edges) && x in roots && roots[x] == roots[s] {
      ComponentsPartition(lib, roots, s, x);
      SymmetricReach(edges, s, x);
    }
  }

  // ---- Season ordinals.

  /** The prequel with the lowest id. */
  function LowestPrequel(relations: seq<Relation>): (p: Option<Series>)
    ensures p.Some? ==> Relation(Prequel, p.value) in relations
    ensures forall r :: r in relations && r.kind == Prequel ==> p.Some? && p.value.id <= r.target.id
  {
    if relations == [] then None
    else
      var r, rest := relations[0], LowestPrequel(relations[1..]);
      if r.kind == Prequel && (rest.None? || r.target.id <= rest.value.id) then Some(r.target) else rest
  }

  /** The season's lowest prequel, if its row records one. */
  function PrequelOf(rows: map<Series, Row>, s: Series): (p: Option<Series>)
    ensures p.Some? ==> s in rows && Relation(Prequel, p.value) in rows[s].relations
    ensures forall r :: s in rows && r in rows[s].relations && r.kind == Prequel ==>
                          p.Some? && p.value.id <= r.target.id
  {
    if s in rows then LowestPrequel(rows[s].relations) else None
  }

  /** Prequel steps from `s` without a repeat. */
  ghost predicate IsChain(rows: map<Series, Row>, s: Series, c: seq<Series>) {
    && c != [] && c[0] == s
    && (forall i :: 0 <= i < |c| - 1 ==> PrequelOf(rows, c[i]) == Some(c[i + 1]))
    && (forall i, j :: 0 <= i < j < |c| ==> c[i] != c[j])
  }

  /** The chain cannot go on. */
  ghost predicate IsWholeChain(rows: map<Series, Row>, s: Series, c: seq<Series>) {
    IsChain(rows, s, c) && (PrequelOf(rows, c[|c| - 1]).None? || PrequelOf(rows, c[|c| - 1]).value in c)
  }

  /** There is one whole chain from a series. */
  lemma WholeChainUnique(rows: map<Series, Row>, s: Series, c: seq<Series>, d: seq<Series>)
    requires IsWholeChain(rows, s, c) && IsWholeChain(rows, s, d)
    ensures c == d
  {
    ChainPrefix(rows, s, c, d, |c|);
    ChainPrefix(rows, s, d, c, |d|);
  }

  lemma {:induction false} ChainPrefix(rows: map<Series, Row>, s: Series, c: seq<Series>, d: seq<Series>, n: nat)
    requires IsWholeChain(rows, s, d) && IsChain(rows, s, c) && n <= |c|
    ensures n <= |d| && c[..n] == d[..n]
  {
    if n > 1 {
      ChainPrefix(rows, s, c, d, n - 1);
      assert c[n - 2] == d[n - 2] && PrequelOf(rows, c[n - 2]) == Some(c[n - 1]);
      assert c[n - 1] !in c[..n - 1];
      var e := d[..n - 1];
      assert e == d || |e| < |d|;
    }
  }

  lemma ChainNext(rows: map<Series, Row>, s: Series, c: seq<Series>, x: Series)
    requires IsChain(rows, s, c) && PrequelOf(rows, c[|c| - 1]) == Some(x) && x !in c
    ensures IsChain(rows, s, c + [x])
  {
  }

  /** Every series a prequel walk can visit. */
  ghost function Chainable(rows: map<Series, Row>, s: Series): set<Series> {
    {s} + set x | x in rows && PrequelOf(rows, x).Some? :: PrequelOf(rows, x).value
  }

  lemma PrequelChainable(rows: map<Series, Row>, s: Series, x: Series)
    requires PrequelOf(rows, x).Some?
    ensures PrequelOf(rows, x).value in Chainable(rows, s)
  {
    assert x in rows;
  }

  /** One more than the prequel steps that can be walked without a repeat. */
  method SeasonOrdinal(rows: map<Series, Row>, s: Series) returns (ordinal: nat)
    ensures exists c :: IsWholeChain(rows, s, c) && ordinal == |c|
  {
    var seen, current, done := {s}, s, false;
    ordinal := 1;
    ghost var c := [s];
    while !done
      invariant IsChain(rows, s, c) && current == c[|c| - 1] && ordinal == |c|
      invariant forall x :: x in seen <==> x in c
      invariant seen <= Chainable(rows, s)
      invariant done ==> IsWholeChain(rows, s, c)
      decreases |Chainable(rows, s) - seen|, !done
    {
      var prequel := PrequelOf(rows, current);
      if prequel.None? || prequel.value in seen {
        done := true;
      } else {
        PrequelChainable(rows, s, current);
        GapShrinks(Chainable(rows, s), seen, seen + {prequel.value});
        ChainNext(rows, s, c, prequel.value);
        seen, current, ordinal := seen + {prequel.value}, prequel.value, ordinal + 1;
        c := c + [prequel.value];
      }
    }
  }
}
