/** Franchises: the connected components of the structural relation edges, by a
    union-find over the whole library and by a walk from one series. */
module Franchise {
  import opened Graph
  import opened Sorted
  import opened Wrappers

  datatype Series = Series(id: nat)
  datatype Hash = Hash(value: nat)

  datatype RelationKind =
    | Sequel | Prequel | SameSetting | AlternativeSetting | AlternativeVersion | MusicVideo
    | Character | SideStory | ParentStory | Summary | FullStory | Other(code: nat)
  {
    /** Whether the edge puts both series into one franchise. */
    predicate GroupsFranchise() {
      Sequel? || Prequel? || AlternativeVersion? || SideStory? || ParentStory? || Summary? || FullStory?
    }
  }

  datatype Relation = Relation(kind: RelationKind, target: Series)
  datatype Row = Row(title: string, year: Option<nat>, relations: seq<Relation>)
  datatype Metadata = Metadata(series: Option<Series>, name: string)

  /** The two maps of the view that grouping reads. */
  datatype Library = Library(relations: map<Series, Row>, metadata: map<Hash, Option<Metadata>>)

  predicate SeriesLess(a: Series, b: Series) {
    a.id < b.id
  }

  predicate HashLess(a: Hash, b: Hash) {
    a.value < b.value
  }

  /** The structural edges out of one row. */
  function RowEdges(s: Series, relations: seq<Relation>): Edges<Series> {
    set r | r in relations && r.kind.GroupsFranchise() :: (s, r.target)
  }

  function StructuralEdges(rows: map<Series, Row>): Edges<Series> {
    set s, r | s in rows && r in rows[s].relations && r.kind.GroupsFranchise() :: (s, r.target)
  }

  function FileSeries(metadata: map<Hash, Option<Metadata>>): set<Series> {
    set h | h in metadata && metadata[h].Some? && metadata[h].value.series.Some? :: metadata[h].value.series.value
  }

  /** Every series a row, a structural edge or a file mentions. */
  function Known(lib: Library): set<Series> {
    lib.relations.Keys + (set e | e in StructuralEdges(lib.relations) :: e.1) + FileSeries(lib.metadata)
  }

  lemma SeriesOrder()
    ensures Total(SeriesLess)
  {
  }

  lemma HashOrder()
    ensures Total(HashLess)
  {
  }

  function SeriesInOrder(s: set<Series>): (r: seq<Series>)
    ensures forall x :: x in r <==> x in s
  {
    SeriesOrder();
    InOrder(SeriesLess, s)
  }

  function HashesInOrder(s: set<Hash>): (r: seq<Hash>)
    ensures forall x :: x in r <==> x in s
  {
    HashOrder();
    InOrder(HashLess, s)
  }

  // ---- The union-find forest.

  type Forest = map<Series, Series>

  /** The parent is known and not larger, so every chain ends; the label is the
      same along the chain and names its end. */
  ghost predicate RootedAt(parent: Forest, labels: Forest, x: Series) {
    && x in parent && x in labels && parent[x].id <= x.id
    && parent[x] in parent && parent[x] in labels && labels[parent[x]] == labels[x]
    && (parent[x] == x ==> labels[x] == x)
    && labels[x] in parent && parent[labels[x]] == labels[x] && labels[x] in labels && labels[labels[x]] == labels[x]
  }

  /** `labels` names the root at the end of every chain. */
  ghost predicate Rooted(parent: Forest, labels: Forest) {
    && labels.Keys == parent.Keys
    && forall x {:trigger RootedAt(parent, labels, x)} :: x in parent ==> RootedAt(parent, labels, x)
  }

  function Label(labels: Forest, x: Series): Series {
    if x in labels then labels[x] else x
  }

  /** The larger of two roots moves under the smaller. */
  function Moved(ra: Series, rb: Series, r: Series): Series {
    var lo, hi := if ra.id <= rb.id then ra else rb, if ra.id <= rb.id then rb else ra;
    if r == hi then lo else r
  }

  /** The labels after joining the trees of `a` and `b`. */
  ghost function Relabelled(labels: Forest, a: Series, b: Series): Forest {
    map x | x in labels.Keys + {a, b} :: Moved(Label(labels, a), Label(labels, b), Label(labels, x))
  }

  lemma FindRooted(parent: Forest, labels: Forest, id: Series)
    requires Rooted(parent, labels) && Label(labels, id).id <= id.id
    ensures var root := Label(labels, id); Rooted(parent[id := root], labels[id := root])
  {
    var root := Label(labels, id);
    var parent', labels' := parent[id := root], labels[id := root];
    assert id in parent ==> RootedAt(parent, labels, id);
    forall x | x in parent' ensures RootedAt(parent', labels', x) {
      assert x in parent ==> RootedAt(parent, labels, x);
    }
  }

  function Sent(labels: Forest, lo: Series, hi: Series): Forest {
    map x | x in labels :: if labels[x] == hi then lo else labels[x]
  }

  /** Hanging one root under another. */
  lemma LinkRooted(parent: Forest, labels: Forest, lo: Series, hi: Series)
    requires Rooted(parent, labels) && lo.id <= hi.id
    requires lo in parent && hi in parent && parent[lo] == lo && parent[hi] == hi
    ensures Rooted(parent[hi := lo], Sent(labels, lo, hi))
  {
    assert RootedAt(parent, labels, lo) && RootedAt(parent, labels, hi);
    var parent', labels' := parent[hi := lo], Sent(labels, lo, hi);
    forall x | x in parent' ensures RootedAt(parent', labels', x) {
      assert RootedAt(parent, labels, x);
    }
  }

  /** Follows parents to the root. */
  method Chase(parent: Forest, ghost labels: Forest, id: Series) returns (root: Series)
    requires Rooted(parent, labels)
    ensures root == Label(labels, id) && root.id <= id.id
  {
    root := id;
    while root in parent && parent[root] != root
      invariant root.id <= id.id && Label(labels, root) == Label(labels, id)
      decreases root.id
    {
      assert RootedAt(parent, labels, root);
      root := parent[root];
    }
    assert root in parent ==> RootedAt(parent, labels, root);
  }

  class UnionFind {
    var parent: Forest
    ghost var labels: Forest

    ghost predicate Valid()
      reads this
    {
      Rooted(parent, labels)
    }

    constructor ()
      ensures Valid() && labels == map[]
    {
      parent, labels := map[], map[];
    }

    method Find(id: Series) returns (root: Series)
      requires Valid()
      modifies this
      ensures Valid() && root == Label(old(labels), id) && labels == old(labels)[id := root]
      ensures parent == old(parent)[id := root]
    {
      root := Chase(parent, labels, id);
      FindRooted(parent, labels, id);
      parent, labels := parent[id := root], labels[id := root];
    }

    method Union(a: Series, b: Series)
      requires Valid()
      modifies this
      ensures Valid() && labels == Relabelled(old(labels), a, b)
    {
      assert (a in parent ==> RootedAt(parent, labels, a)) && (b in parent ==> RootedAt(parent, labels, b));
      var ra := Find(a);
      var rb := Find(b);
      var lo, hi := if ra.id <= rb.id then ra else rb, if ra.id <= rb.id then rb else ra;
      assert RootedAt(parent, labels, a) && RootedAt(parent, labels, b);
      RelabelledIs(old(labels), a, b);
      LinkRooted(parent, labels, lo, hi);
      parent, labels := parent[hi := lo], Sent(labels, lo, hi);
    }

    /** One relations row: its series, then its structural edges. */
    method AddRow(s: Series, relations: seq<Relation>)
      requires Valid()
      modifies this
      ensures Valid() && labels == RowAdded(old(labels), s, relations)
    {
      var _ := Find(s);
      for j := 0 to |relations|
        invariant Valid() && labels == RowAdded(old(labels), s, relations[..j])
      {
        assert relations[..j + 1][..j] == relations[..j];
        if relations[j].kind.GroupsFranchise() {
          Union(s, relations[j].target);
        }
      }
      assert relations[..|relations|] == relations;
    }

    method AddRows(rows: map<Series, Row>, order: seq<Series>)
      requires Valid() && labels == map[] && forall s :: s in order ==> s in rows
      modifies this
      ensures Valid() && labels == RowsAdded(rows, order)
    {
      for i := 0 to |order|
        invariant Valid() && labels == RowsAdded(rows, order[..i])
      {
        assert order[..i + 1][..i] == order[..i];
        AddRow(order[i], rows[order[i]].relations);
      }
      assert order[..|order|] == order;
    }

    /** Series known only through files. */
    method AddFiles(metadata: map<Hash, Option<Metadata>>, files: seq<Hash>)
      requires Valid() && forall h :: h in files ==> h in metadata
      modifies this
      ensures Valid() && labels == FilesAdded(old(labels), metadata, files)
    {
      for i := 0 to |files|
        invariant Valid() && labels == FilesAdded(old(labels), metadata, files[..i])
      {
        assert files[..i + 1][..i] == files[..i];
        var file := metadata[files[i]];
        if file.Some? && file.value.series.Some? {
          var _ := Find(file.value.series.value);
        }
      }
      assert files[..|files|] == files;
    }

    /** Compresses every chain. */
    method Flatten(all: seq<Series>)
      requires Valid() && forall x :: x in all <==> x in parent
      modifies this
      ensures Valid() && labels == old(labels) && parent == labels
    {
      for i := 0 to |all|
        invariant Valid() && labels == old(labels)
        invariant Agree(parent, labels, all[..i])
      {
        assert all[i] in parent;
        assert RootedAt(parent, labels, all[i]);
        ghost var was := parent;
        var root := Find(all[i]);
        assert labels[all[i] := root] == labels;
        AgreeNext(was, labels, all, i);
      }
      assert all[..|all|] == all;
    }
  }

  /** The listed series point straight at their roots. */
  ghost predicate Agree(parent: Forest, labels: Forest, done: seq<Series>) {
    forall x :: x in done ==> x in parent && x in labels && parent[x] == labels[x]
  }

  lemma AgreeNext(parent: Forest, labels: Forest, all: seq<Series>, i: nat)
    requires i < |all| && Agree(parent, labels, all[..i]) && all[i] in labels
    ensures Agree(parent[all[i] := labels[all[i]]], labels, all[..i + 1])
  {
    assert all[..i + 1] == all[..i] + [all[i]];
  }

  lemma RelabelledIs(labels: Forest, a: Series, b: Series)
    requires a in labels ==> labels[a] in labels && labels[labels[a]] == labels[a]
    requires b in labels ==> labels[b] in labels && labels[labels[b]] == labels[b]
    ensures var ra := Label(labels, a);
            var once := labels[a := ra];
            var rb := Label(once, b);
            && rb == Label(labels, b)
            && (if ra.id <= rb.id then Sent(once[b := rb], ra, rb) else Sent(once[b := rb], rb, ra)) ==
               Relabelled(labels, a, b)
  {
  }

  ghost function RowAdded(labels: Forest, s: Series, relations: seq<Relation>): Forest {
    if relations == [] then labels[s := Label(labels, s)]
    else
      var last := relations[|relations| - 1];
      var before := RowAdded(labels, s, relations[..|relations| - 1]);
      if last.kind.GroupsFranchise() then Relabelled(before, s, last.target) else before
  }

  ghost function RowsAdded(rows: map<Series, Row>, order: seq<Series>): Forest
    requires forall s :: s in order ==> s in rows
  {
    if order == [] then map[]
    else
      var last := order[|order| - 1];
      RowAdded(RowsAdded(rows, order[..|order| - 1]), last, rows[last].relations)
  }

  ghost function FilesAdded(labels: Forest, metadata: map<Hash, Option<Metadata>>, files: seq<Hash>): Forest
    requires forall h :: h in files ==> h in metadata
  {
    if files == [] then labels
    else
      var last := metadata[files[|files| - 1]];
      var before := FilesAdded(labels, metadata, files[..|files| - 1]);
      if last.Some? && last.value.series.Some?
      then before[last.value.series.value := Label(before, last.value.series.value)] else before
  }

  // ---- What the labels say about the edges.

  /** Equal labels across every edge; every label is connected to its series and
      not larger. */
  ghost predicate Groups(labels: Forest, edges: Edges<Series>) {
    && (forall a, b :: (a, b) in edges ==> a in labels && b in labels && labels[a] == labels[b])
    && (forall x :: x in labels ==> labels[x].id <= x.id && Connected(edges, x, labels[x]))
  }

  lemma LabelConnects(labels: Forest, edges: Edges<Series>, x: Series)
    requires Groups(labels, edges)
    ensures Connected(edges, x, Label(labels, x))
  {
    if x !in labels {
      ReachSelf(Both(edges), x);
    }
  }

  lemma FindKeepsGroups(labels: Forest, id: Series, edges: Edges<Series>)
    requires Groups(labels, edges)
    ensures Groups(labels[id := Label(labels, id)], edges)
  {
    LabelConnects(labels, edges, id);
  }

  /** The new edge connects the two labels. */
  lemma LabelsConnect(labels: Forest, edges: Edges<Series>, a: Series, b: Series)
    requires Groups(labels, edges)
    ensures var more := edges + {(a, b)};
            Connected(more, Label(labels, a), Label(labels, b)) && Connected(more, Label(labels, b), Label(labels, a))
  {
    var more := edges + {(a, b)};
    var ra, rb := Label(labels, a), Label(labels, b);
    LabelConnects(labels, edges, a);
    LabelConnects(labels, edges, b);
    ConnectedGrows(edges, more, a, ra);
    ConnectedGrows(edges, more, b, rb);
    ConnectedTurns(more, a, ra);
    ReachEdge(Both(more), a, b);
    ConnectedJoins(more, ra, a, b);
    ConnectedJoins(more, ra, b, rb);
    ConnectedTurns(more, ra, rb);
  }

  lemma MovedConnects(labels: Forest, edges: Edges<Series>, a: Series, b: Series, x: Series)
    requires Groups(labels, edges)
    ensures var more, r := edges + {(a, b)}, Moved(Label(labels, a), Label(labels, b), Label(labels, x));
            Connected(more, x, r) && r.id <= x.id
  {
    var more, r := edges + {(a, b)}, Moved(Label(labels, a), Label(labels, b), Label(labels, x));
    LabelConnects(labels, edges, x);
    ConnectedGrows(edges, more, x, Label(labels, x));
    LabelsConnect(labels, edges, a, b);
    if r != Label(labels, x) {
      ConnectedJoins(more, x, Label(labels, x), r);
    }
  }

  lemma UnionKeepsGroups(labels: Forest, a: Series, b: Series, edges: Edges<Series>)
    requires Groups(labels, edges)
    ensures Groups(Relabelled(labels, a, b), edges + {(a, b)})
  {
    var labels', more := Relabelled(labels, a, b), edges + {(a, b)};
    forall x | x in labels' ensures labels'[x].id <= x.id && Connected(more, x, labels'[x]) {
      MovedConnects(labels, edges, a, b, x);
    }
    forall x, y | (x, y) in more ensures x in labels' && y in labels' && labels'[x] == labels'[y] {
      assert (x, y) in edges || (x, y) == (a, b);
    }
  }

  /** One label exactly if connected. */
  lemma SameLabelIff(labels: Forest, edges: Edges<Series>, x: Series, y: Series)
    requires Groups(labels, edges)
    ensures Label(labels, x) == Label(labels, y) <==> Connected(edges, x, y)
  {
    LabelConnects(labels, edges, x);
    LabelConnects(labels, edges, y);
    if Label(labels, x) == Label(labels, y) {
      ConnectedTurns(edges, y, Label(labels, y));
      ConnectedJoins(edges, x, Label(labels, x), y);
    }
    if Connected(edges, x, y) {
      var p :| IsPath(Both(edges), p, x, y);
      var tree := iset z: Series | Label(labels, z) == Label(labels, x);
      ReachStaysIn(Both(edges), tree, p, x, y);
    }
  }

  // ---- Components.

  /** `root` is the smallest series connected to `x`. */
  ghost predicate IsLeastOf(edges: Edges<Series>, x: Series, root: Series) {
    Connected(edges, x, root) && forall y :: Connected(edges, x, y) ==> root.id <= y.id
  }

  lemma LabelIsLeast(labels: Forest, edges: Edges<Series>, x: Series)
    requires Groups(labels, edges)
    ensures IsLeastOf(edges, x, Label(labels, x))
  {
    LabelConnects(labels, edges, x);
    forall y | Connected(edges, x, y) ensures Label(labels, x).id <= y.id {
      SameLabelIff(labels, edges, x, y);
    }
  }

  /** Exactly the known series, each with the smallest member of its component. */
  ghost predicate IsComponents(lib: Library, roots: Forest) {
    && roots.Keys == Known(lib)
    && (forall x :: x in roots ==> IsLeastOf(StructuralEdges(lib.relations), x, roots[x]))
  }

  // ---- The whole pass.

  function Targets(edges: Edges<Series>): set<Series> {
    set e | e in edges :: e.1
  }

  /** The labels group the edges and cover them and the series looked up. */
  ghost predicate Covers(labels: Forest, edges: Edges<Series>, ids: set<Series>) {
    Groups(labels, edges) && labels.Keys == ids + Targets(edges)
  }

  lemma FindCovers(labels: Forest, edges: Edges<Series>, ids: set<Series>, id: Series)
    requires Covers(labels, edges, ids)
    ensures Covers(labels[id := Label(labels, id)], edges, ids + {id})
  {
    FindKeepsGroups(labels, id, edges);
  }

  lemma UnionCovers(labels: Forest, edges: Edges<Series>, ids: set<Series>, a: Series, b: Series)
    requires Covers(labels, edges, ids) && a in ids
    ensures Covers(Relabelled(labels, a, b), edges + {(a, b)}, ids)
  {
    UnionKeepsGroups(labels, a, b, edges);
    assert Targets(edges + {(a, b)}) == Targets(edges) + {b};
  }

  lemma {:induction false} RowCovers(
    labels: Forest, edges: Edges<Series>, ids: set<Series>, s: Series, relations: seq<Relation>)
    requires Covers(labels, edges, ids)
    ensures Covers(RowAdded(labels, s, relations), edges + RowEdges(s, relations), ids + {s})
  {
    if relations == [] {
      FindCovers(labels, edges, ids, s);
      assert edges + RowEdges(s, []) == edges;
    } else {
      var n := |relations| - 1;
      var before := relations[..n];
      RowCovers(labels, edges, ids, s, before);
      RowEdgesNext(s, relations, n);
      assert relations[..n + 1] == relations;
      if relations[n].kind.GroupsFranchise() {
        UnionCovers(RowAdded(labels, s, before), edges + RowEdges(s, before), ids + {s}, s, relations[n].target);
        assert edges + RowEdges(s, before) + {(s, relations[n].target)} == edges + RowEdges(s, relations);
      } else {
        assert edges + RowEdges(s, before) == edges + RowEdges(s, relations);
      }
    }
  }

  lemma RowEdgesNext(s: Series, relations: seq<Relation>, j: nat)
    requires j < |relations|
    ensures RowEdges(s, relations[..j + 1])
         == RowEdges(s, relations[..j]) + if relations[j].kind.GroupsFranchise() then {(s, relations[j].target)} else {}
  {
    assert relations[..j + 1] == relations[..j] + [relations[j]];
    forall e ensures e in RowEdges(s, relations[..j + 1]) <==>
                     e in RowEdges(s, relations[..j]) ||
                         (relations[j].kind.GroupsFranchise() && e == (s, relations[j].target))
    {
      if e in RowEdges(s, relations[..j]) {
        var r :| r in relations[..j] && r.kind.GroupsFranchise() && e == (s, r.target);
        assert r in relations[..j + 1];
      }
      if relations[j].kind.GroupsFranchise() && e == (s, relations[j].target) {
        assert relations[j] in relations[..j + 1];
      }
    }
  }

  ghost function EdgesOf(rows: map<Series, Row>, order: seq<Series>): Edges<Series>
    requires forall s :: s in order ==> s in rows
  {
    if order == [] then {}
    else EdgesOf(rows, order[..|order| - 1]) + RowEdges(order[|order| - 1], rows[order[|order| - 1]].relations)
  }

  lemma {:induction false} RowsCover(rows: map<Series, Row>, order: seq<Series>)
    requires forall s :: s in order ==> s in rows
    ensures Covers(RowsAdded(rows, order), EdgesOf(rows, order), set s | s in order)
  {
    if order != [] {
      var n := |order| - 1;
      RowsCover(rows, order[..n]);
      assert (set s | s in order[..n]) + {order[n]} == set s | s in order by {
        assert order == order[..n] + [order[n]];
      }
      RowCovers(RowsAdded(rows, order[..n]), EdgesOf(rows, order[..n]), (set s | s in order[..n]), order[n],
          rows[order[n]].relations);
    }
  }

  lemma {:induction false} EdgesOfRows(rows: map<Series, Row>, order: seq<Series>, e: (Series, Series))
    requires forall s :: s in order ==> s in rows
    ensures e in EdgesOf(rows, order) <==> e.0 in order && e in RowEdges(e.0, rows[e.0].relations)
  {
    if order != [] {
      EdgesOfRows(rows, order[..|order| - 1], e);
      assert order == order[..|order| - 1] + [order[|order| - 1]];
    }
  }

  lemma AllRows(rows: map<Series, Row>, order: seq<Series>)
    requires forall s :: s in order <==> s in rows
    ensures EdgesOf(rows, order) == StructuralEdges(rows)
  {
    forall e ensures e in EdgesOf(rows, order) <==> e in StructuralEdges(rows) {
      EdgesOfRows(rows, order, e);
    }
  }

  ghost function SeriesOfFiles(metadata: map<Hash, Option<Metadata>>, files: seq<Hash>): set<Series>
    requires forall h :: h in files ==> h in metadata
  {
    set h | h in files && metadata[h].Some? && metadata[h].value.series.Some? :: metadata[h].value.series.value
  }

  lemma {:induction false} FilesCover(
    labels: Forest, edges: Edges<Series>, ids: set<Series>, metadata: map<Hash, Option<Metadata>>, files: seq<Hash>)
    requires Covers(labels, edges, ids) && forall h :: h in files ==> h in metadata
    ensures Covers(FilesAdded(labels, metadata, files), edges, ids + SeriesOfFiles(metadata, files))
  {
    if files == [] {
      assert ids + SeriesOfFiles(metadata, files) == ids;
    } else {
      var n := |files| - 1;
      FilesCover(labels, edges, ids, metadata, files[..n]);
      FileNext(metadata, files);
      var last := metadata[files[n]];
      if last.Some? && last.value.series.Some? {
        FindCovers(FilesAdded(labels, metadata, files[..n]), edges, ids + SeriesOfFiles(metadata, files[..n]),
            last.value.series.value);
        assert ids + SeriesOfFiles(metadata, files[..n]) + {last.value.series.value} ==
            ids + SeriesOfFiles(metadata, files);
      }
    }
  }

  lemma FileNext(metadata: map<Hash, Option<Metadata>>, files: seq<Hash>)
    requires files != [] && forall h :: h in files ==> h in metadata
    ensures var last := metadata[files[|files| - 1]];
            SeriesOfFiles(metadata, files) == SeriesOfFiles(metadata, files[..|files| - 1])
                                              + if last.Some? && last.value.series.Some?
                                                  then {last.value.series.value} else {}
  {
    assert files == files[..|files| - 1] + [files[|files| - 1]];
  }

  /** The labels at the end of the pass are the components. */
  lemma PassIsComponents(lib: Library, rows: seq<Series>, files: seq<Hash>)
    requires (forall s :: s in rows <==> s in lib.relations) && (forall h :: h in files <==> h in lib.metadata)
    ensures IsComponents(lib, FilesAdded(RowsAdded(lib.relations, rows), lib.metadata, files))
  {
    var edges := StructuralEdges(lib.relations);
    RowsCover(lib.relations, rows);
    AllRows(lib.relations, rows);
    assert (set s | s in rows) == lib.relations.Keys;
    FilesCover(RowsAdded(lib.relations, rows), edges, lib.relations.Keys, lib.metadata, files);
    assert SeriesOfFiles(lib.metadata, files) == FileSeries(lib.metadata);
    CoversAll(lib, FilesAdded(RowsAdded(lib.relations, rows), lib.metadata, files));
  }

  lemma CoversAll(lib: Library, labels: Forest)
    requires Covers(labels, StructuralEdges(lib.relations), lib.relations.Keys + FileSeries(lib.metadata))
    ensures IsComponents(lib, labels)
  {
    forall x | x in labels ensures IsLeastOf(StructuralEdges(lib.relations), x, labels[x]) {
      LabelIsLeast(labels, StructuralEdges(lib.relations), x);
    }
  }

  method SeriesComponents(lib: Library) returns (roots: Forest)
    ensures IsComponents(lib, roots)
  {
    var forest := new UnionFind();
    var rows, files := SeriesInOrder(lib.relations.Keys), HashesInOrder(lib.metadata.Keys);
    forest.AddRows(lib.relations, rows);
    forest.AddFiles(lib.metadata, files);
    forest.Flatten(SeriesInOrder(forest.parent.Keys));
    roots := forest.parent;
    PassIsComponents(lib, rows, files);
  }

  // ---- What the result means.

  /** A path that leaves a series ends in a known one. */
  lemma EdgeEndsKnown(lib: Library, x: Series, y: Series)
    requires x in Known(lib) && Connected(StructuralEdges(lib.relations), x, y)
    ensures y in Known(lib)
  {
    var edges := StructuralEdges(lib.relations);
    forall e | e in Both(edges) ensures e.0 in Known(lib) && e.1 in Known(lib) {
      var f := if e in edges then e else (e.1, e.0);
      assert f in edges && f.0 in lib.relations;
    }
    var p :| IsPath(Both(edges), p, x, y);
    ReachStaysIn(Both(edges), (iset z | z in Known(lib)), p, x, y);
  }

  /** Roots are known and are their own roots, and two series share a root
      exactly if structural edges connect them. */
  lemma ComponentsPartition(lib: Library, roots: Forest, x: Series, y: Series)
    requires IsComponents(lib, roots) && x in roots && y in roots
    ensures roots[x] in roots && roots[roots[x]] == roots[x] && roots[x].id <= x.id
    ensures roots[x] == roots[y] <==> Connected(StructuralEdges(lib.relations), x, y)
  {
    var edges := StructuralEdges(lib.relations);
    EdgeEndsKnown(lib, x, roots[x]);
    ConnectedTurns(edges, x, roots[x]);
    SameLeast(edges, roots[x], x, roots[roots[x]], roots[x]);
    SameLeast(edges, x, y, roots[x], roots[y]);
    ReachSelf(Both(edges), x);
  }

  lemma SameLeast(edges: Edges<Series>, x: Series, y: Series, rx: Series, ry: Series)
    requires IsLeastOf(edges, x, rx) && IsLeastOf(edges, y, ry)
    ensures rx == ry <==> Connected(edges, x, y)
  {
    if Connected(edges, x, y) {
      ConnectedTurns(edges, x, y);
      ConnectedJoins(edges, x, y, ry);
      ConnectedJoins(edges, y, x, rx);
    }
    if rx == ry {
      ConnectedTurns(edges, y, ry);
      ConnectedJoins(edges, x, rx, y);
    }
  }
}
