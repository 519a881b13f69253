/** The library grouped into franchises: files under the root of their series,
    or under their name when they have none. */
module FranchiseList {
  import opened Franchise
  import Graph
  import opened Sorted
  import opened Wrappers

  // ---- Files under a key.

  /** The files with key `k`, in the order given. */
  function Under<K(==)>(order: seq<Hash>, keyOf: Hash -> Option<K>, k: K): seq<Hash> {
    if order == [] then []
    else
      var last := order[|order| - 1];
      Under(order[..|order| - 1], keyOf, k) + if keyOf(last) == Some(k) then [last] else []
  }

  lemma {:induction false} UnderHolds<K>(order: seq<Hash>, keyOf: Hash -> Option<K>, k: K, h: Hash)
    ensures h in Under(order, keyOf, k) <==> h in order && keyOf(h) == Some(k)
  {
    if order != [] {
      UnderHolds(order[..|order| - 1], keyOf, k, h);
      assert order == order[..|order| - 1] + [order[|order| - 1]];
    }
  }

  /** Files keep their order. */
  lemma {:induction false} UnderAscends<K>(order: seq<Hash>, keyOf: Hash -> Option<K>, k: K)
    requires Ascending(HashLess, order)
    ensures Ascending(HashLess, Under(order, keyOf, k))
  {
    if order != [] {
      var n := |order| - 1;
      UnderAscends(order[..n], keyOf, k);
      var before := Under(order[..n], keyOf, k);
      forall i | 0 <= i < |before| ensures HashLess(before[i], order[n]) {
        UnderHolds(order[..n], keyOf, k, before[i]);
      }
    }
  }

  ghost predicate Grouped<K(!new)>(order: seq<Hash>, keyOf: Hash -> Option<K>, groups: map<K, seq<Hash>>) {
    forall k :: GroupedAt(order, keyOf, groups, k)
  }

  ghost predicate GroupedAt<K>(order: seq<Hash>, keyOf: Hash -> Option<K>, groups: map<K, seq<Hash>>, k: K) {
    if k in groups then groups[k] == Under(order, keyOf, k) && groups[k] != [] else Under(order, keyOf, k) == []
  }

  /** One pass: every file is appended to its key's list. */
  method GroupBy<K(!new, ==)>(order: seq<Hash>, keyOf: Hash -> Option<K>) returns (groups: map<K, seq<Hash>>)
    ensures Grouped(order, keyOf, groups)
  {
    groups := map[];
    for i := 0 to |order|
      invariant Grouped(order[..i], keyOf, groups)
    {
      var key := keyOf(order[i]);
      GroupNext(order, keyOf, groups, i);
      if key.Some? {
        groups := groups[key.value := (if key.value in groups then groups[key.value] else []) + [order[i]]];
      }
    }
    assert order[..|order|] == order;
  }

  lemma GroupNext<K(!new)>(order: seq<Hash>, keyOf: Hash -> Option<K>, groups: map<K, seq<Hash>>, i: nat)
    requires i < |order| && Grouped(order[..i], keyOf, groups)
    ensures var key := keyOf(order[i]);
            Grouped(order[..i + 1], keyOf,
                    if key.Some?
                      then groups[key.value := (if key.value in groups then groups[key.value] else []) + [order[i]]]
                      else groups)
  {
    var key := keyOf(order[i]);
    var groups' := if key.Some?
        then groups[key.value := (if key.value in groups then groups[key.value] else []) + [order[i]]] else groups;
    var done := order[..i + 1];
    assert done[..i] == order[..i];
    forall k ensures GroupedAt(done, keyOf, groups', k) {
      assert GroupedAt(order[..i], keyOf, groups, k);
    }
  }

  // ---- Titles and years.

  /** `s` is the row to name a franchise after, rather than `t`: the earlier year,
      a known year before none, the lower id on ties. */
  predicate Names(rows: map<Series, Row>, s: Series, t: Series)
    requires s in rows && t in rows
  {
    match (rows[s].year, rows[t].year)
    case (Some(a), Some(b)) => a < b || (a == b && s.id < t.id)
    case (Some(_), None) => true
    case (None, Some(_)) => false
    case (None, None) => s.id < t.id
  }

  ghost predicate IsBest(rows: map<Series, Row>, members: set<Series>, s: Series)
    requires members <= rows.Keys
  {
    s in members && forall t :: t in members && t != s ==> Names(rows, s, t)
  }

  ghost predicate IsFirstYear(rows: map<Series, Row>, members: set<Series>, year: Option<nat>)
    requires members <= rows.Keys
  {
    && (forall t :: t in members && rows[t].year.Some? ==> year.Some? && year.value <= rows[t].year.value)
    && (year.Some? ==> exists t :: t in members && rows[t].year == year)
  }

  datatype Best = Best(title: string, year: Option<nat>)

  function Earlier(a: Option<nat>, b: Option<nat>): Option<nat> {
    match (a, b)
    case (Some(x), Some(y)) => Some(if x <= y then x else y)
    case (None, _) => b
    case (_, None) => a
  }

  /** Whether a later row with this year replaces the one kept so far. */
  predicate Better(kept: Option<Best>, year: Option<nat>) {
    match kept
    case None => true
    case Some(Best(_, Some(existing))) => year.Some? && year.value < existing
    case Some(Best(_, None)) => year.Some?
  }

  function RowsUnder(roots: Forest, done: seq<Series>, r: Series): set<Series> {
    set x | x in done && Label(roots, x) == r
  }

  ghost predicate Chosen(rows: map<Series, Row>, members: set<Series>, kept: Option<Best>)
    requires members <= rows.Keys
  {
    match kept
    case None => members == {}
    case Some(b) => exists s :: IsBest(rows, members, s) && b == Best(rows[s].title, rows[s].year)
  }

  function Kept<T>(m: map<Series, T>, r: Series): Option<T> {
    if r in m then Some(m[r]) else None
  }

  /** What the pass over the rows has found for root `r`. */
  ghost predicate FoldedAt(
    rows: map<Series, Row>, roots: Forest, done: seq<Series>, best: map<Series, Best>,
    years: map<Series, Option<nat>>, r: Series)
    requires forall x :: x in done ==> x in rows
  {
    && Chosen(rows, RowsUnder(roots, done, r), Kept(best, r))
    && IsFirstYear(rows, RowsUnder(roots, done, r), Kept(years, r).GetOr(None))
  }

  lemma BestNext(rows: map<Series, Row>, members: set<Series>, kept: Option<Best>, s: Series)
    requires members <= rows.Keys && s in rows && Chosen(rows, members, kept)
    requires forall t :: t in members ==> t.id < s.id
    ensures Chosen(rows, members + {s},
            if Better(kept, rows[s].year) then Some(Best(rows[s].title, rows[s].year)) else kept)
  {
    if kept.None? {
      assert IsBest(rows, members + {s}, s);
    } else {
      var b :| IsBest(rows, members, b) && kept.value == Best(rows[b].title, rows[b].year);
      if Better(kept, rows[s].year) {
        assert IsBest(rows, members + {s}, s);
      } else {
        assert IsBest(rows, members + {s}, b);
      }
    }
  }

  lemma YearNext(rows: map<Series, Row>, members: set<Series>, year: Option<nat>, s: Series)
    requires members <= rows.Keys && s in rows && IsFirstYear(rows, members, year)
    ensures IsFirstYear(rows, members + {s}, Earlier(year, rows[s].year))
  {
    var year' := Earlier(year, rows[s].year);
    if year'.Some? {
      if year' == rows[s].year {
        assert s in members + {s};
      } else {
        var t :| t in members && rows[t].year == year;
        assert t in members + {s};
      }
    }
  }

  lemma FoldNext(rows: map<Series, Row>, roots: Forest, order: seq<Series>, i: nat,
                 best: map<Series, Best>, years: map<Series, Option<nat>>, r: Series)
    requires i < |order| && (forall x :: x in order ==> x in rows) && Ascending(SeriesLess, order)
    requires FoldedAt(rows, roots, order[..i], best, years, r)
    ensures var s := order[i];
            var root := Label(roots, s);
            var best' := if Better(Kept(best, root), rows[s].year)
                then best[root := Best(rows[s].title, rows[s].year)] else best;
            var years' := years[root := Earlier(Kept(years, root).GetOr(None), rows[s].year)];
            FoldedAt(rows, roots, order[..i + 1], best', years', r)
  {
    var s := order[i];
    var before, after := RowsUnder(roots, order[..i], r), RowsUnder(roots, order[..i + 1], r);
    assert order[..i + 1] == order[..i] + [s];
    if Label(roots, s) == r {
      assert after == before + {s};
      forall t | t in before ensures SeriesLess(t, s) {
      }
      BestNext(rows, before, Kept(best, r), s);
      YearNext(rows, before, Kept(years, r).GetOr(None), s);
    } else {
      assert after == before;
    }
  }

  method FoldTitles(rows: map<Series, Row>, roots: Forest, order: seq<Series>)
    returns (best: map<Series, Best>, years: map<Series, Option<nat>>)
    requires (forall x :: x in order ==> x in rows) && Ascending(SeriesLess, order)
    ensures forall r :: FoldedAt(rows, roots, order, best, years, r)
  {
    best, years := map[], map[];
    for i := 0 to |order|
      invariant forall r :: FoldedAt(rows, roots, order[..i], best, years, r)
    {
      ghost var done, best0, years0 := order[..i + 1], best, years;
      var s := order[i];
      var root := Label(roots, s);
      if Better(Kept(best, root), rows[s].year) {
        best := best[root := Best(rows[s].title, rows[s].year)];
      }
      years := years[root := Earlier(Kept(years, root).GetOr(None), rows[s].year)];
      forall r ensures FoldedAt(rows, roots, done, best, years, r) {
        FoldNext(rows, roots, order, i, best0, years0, r);
      }
    }
    assert order[..|order|] == order;
  }

  // ---- The groups.

  datatype Key = BySeries(root: Series) | ByName(name: string)
  datatype Group = Group(title: string, series: seq<Series>, members: set<Series>, year: Option<nat>, files: seq<Hash>)

  /** Where a file belongs: nowhere without metadata. */
  function FileKey(lib: Library, roots: Forest, h: Hash): (k: Option<Key>)
    ensures k.Some? <==> h in lib.metadata && lib.metadata[h].Some?
    ensures k.Some? ==>
              match lib.metadata[h].value.series
              case Some(s) => k.value.BySeries? && k.value.root == Label(roots, s)
              case None => k.value.ByName? && k.value.name == lib.metadata[h].value.name
  {
    if h !in lib.metadata || lib.metadata[h].None? then None
    else
      var m := lib.metadata[h].value;
      if m.series.Some? then Some(BySeries(Label(roots, m.series.value))) else Some(ByName(m.name))
  }

  function KeyOf(lib: Library, roots: Forest): Hash -> Option<Key> {
    h => FileKey(lib, roots, h)
  }

  function Members(roots: Forest, r: Series): set<Series> {
    set x | x in roots && roots[x] == r
  }

  /** Members with a file, by year and then id; a series without a year comes last. */
  predicate YearLess(rows: map<Series, Row>, a: Series, b: Series) {
    var ya := if a in rows then rows[a].year.GetOr(0xFFFF) else 0xFFFF;
    var yb := if b in rows then rows[b].year.GetOr(0xFFFF) else 0xFFFF;
    ya < yb || (ya == yb && a.id < b.id)
  }

  function YearOrder(rows: map<Series, Row>): Order<Series> {
    (a, b) => YearLess(rows, a, b)
  }

  function InYearOrder(rows: map<Series, Row>, s: set<Series>): (r: seq<Series>)
    ensures Ascending(YearOrder(rows), r) && forall x :: x in r <==> x in s
  {
    assert Total(YearOrder(rows));
    InOrder(YearOrder(rows), s)
  }

  /** What the list says of one franchise. */
  ghost predicate IsGroup(lib: Library, roots: Forest, k: Key, g: Group) {
    && g.files != [] && Ascending(HashLess, g.files)
    && (forall h :: h in g.files <==> FileKey(lib, roots, h) == Some(k))
    && match k
       case ByName(name) => g.title == name && g.members == {} && g.series == [] && g.year == None
       case BySeries(r) =>
         var known := Members(roots, r) * lib.relations.Keys;
         && g.members == Members(roots, r)
         && (if known == {} then FileKey(lib, roots, g.files[0]).Some? && g.title == lib.metadata[g.files[0]].value.name
             else exists s :: IsBest(lib.relations, known, s) && g.title == lib.relations[s].title)
         && IsFirstYear(lib.relations, known, g.year)
         && Ascending(YearOrder(lib.relations), g.series)
         && (forall x :: x in g.series <==> x in g.members && x in FileSeries(lib.metadata))
  }

  /** Every file's franchise is there and every franchise is as it should be. */
  ghost predicate IsList(lib: Library, roots: Forest, groups: map<Key, Group>) {
    && (forall h :: FileKey(lib, roots, h).Some? ==> FileKey(lib, roots, h).value in groups)
    && (forall k :: k in groups ==> IsGroup(lib, roots, k, groups[k]))
  }

  function SeriesGroup(
    lib: Library, roots: Forest, held: set<Series>, best: map<Series, Best>, years: map<Series, Option<nat>>,
    r: Series, files: seq<Hash>): Group
    requires files != []
  {
    var name :=
      if files[0] in lib.metadata && lib.metadata[files[0]].Some? then lib.metadata[files[0]].value.name else "";
    Group(if r in best then best[r].title else name,
          InYearOrder(lib.relations, Members(roots, r) * held),
          Members(roots, r),
          Kept(years, r).GetOr(None),
          files)
  }

  method Groups(lib: Library) returns (roots: Forest, groups: map<Key, Group>)
    ensures IsComponents(lib, roots) && IsList(lib, roots, groups)
  {
    roots := SeriesComponents(lib);
    var hashes, rows := HashesInOrder(lib.metadata.Keys), SeriesInOrder(lib.relations.Keys);
    InOrderAscends(lib);
    var files := GroupBy(hashes, KeyOf(lib, roots));
    var best, years := FoldTitles(lib.relations, roots, rows);
    groups := map k | k in files && files[k] != [] ::
      match k
      case BySeries(r) => SeriesGroup(lib, roots, FileSeries(lib.metadata), best, years, r, files[k])
      case ByName(name) => Group(name, [], {}, None, files[k]);
    forall k | k in groups ensures IsGroup(lib, roots, k, groups[k]) {
      GroupIsRight(lib, roots, hashes, rows, files, best, years, k, groups[k]);
    }
    forall h | FileKey(lib, roots, h).Some? ensures FileKey(lib, roots, h).value in groups {
      var k := FileKey(lib, roots, h).value;
      UnderHolds(hashes, KeyOf(lib, roots), k, h);
      assert GroupedAt(hashes, KeyOf(lib, roots), files, k);
    }
  }

  /** Series before names; `names` is the order of strings. */
  predicate KeyLess(names: Order<string>, a: Key, b: Key) {
    match (a, b)
    case (BySeries(r), BySeries(q)) => r.id < q.id
    case (BySeries(_), ByName(_)) => true
    case (ByName(_), BySeries(_)) => false
    case (ByName(m), ByName(n)) => names(m, n)
  }

  function TitleOf(groups: map<Key, Group>, k: Key): string {
    if k in groups then groups[k].title else ""
  }

  /** By title, then by key. */
  predicate TitleLess(names: Order<string>, groups: map<Key, Group>, a: Key, b: Key) {
    var ta, tb := TitleOf(groups, a), TitleOf(groups, b);
    names(ta, tb) || (ta == tb && KeyLess(names, a, b))
  }

  function TitleOrder(names: Order<string>, groups: map<Key, Group>): Order<Key> {
    (a, b) => TitleLess(names, groups, a, b)
  }

  lemma KeyOrderIsTotal(names: Order<string>)
    requires Total(names)
    ensures Total((a, b) => KeyLess(names, a, b))
  {
  }

  lemma TitleOrderIsTotal(names: Order<string>, groups: map<Key, Group>)
    requires Total(names)
    ensures Total(TitleOrder(names, groups))
  {
    KeyOrderIsTotal(names);
    var keys: Order<Key> := (a, b) => KeyLess(names, a, b);
    assert forall a, b :: keys(a, b) == KeyLess(names, a, b);
    var order := TitleOrder(names, groups);
    forall a, b, c | order(a, b) && order(b, c) ensures order(a, c) {
      assert keys(a, b) && keys(b, c) ==> keys(a, c);
    }
    forall a, b ensures order(a, b) || a == b || order(b, a) {
      assert keys(a, b) || a == b || keys(b, a);
    }
  }

  /** The franchises as they are shown: every one once, by title and then key. */
  method Franchises(names: Order<string>, lib: Library)
    returns (roots: Forest, groups: map<Key, Group>, listed: seq<Key>)
    requires Total(names)
    ensures IsComponents(lib, roots) && IsList(lib, roots, groups)
    ensures |listed| == |groups| && forall k :: k in listed <==> k in groups
    ensures forall i, j :: 0 <= i < j < |listed| && listed[i] in groups && listed[j] in groups ==>
                             var a, b := groups[listed[i]].title, groups[listed[j]].title;
                             names(a, b) || (a == b && KeyLess(names, listed[i], listed[j]))
  {
    roots, groups := Groups(lib);
    TitleOrderIsTotal(names, groups);
    listed := InOrder(TitleOrder(names, groups), groups.Keys);
    forall i, j | 0 <= i < j < |listed| && listed[i] in groups && listed[j] in groups
      ensures TitleLess(names, groups, listed[i], listed[j])
    {
      assert TitleOrder(names, groups)(listed[i], listed[j]);
    }
  }

  /** The one group that names a franchise. */
  lemma BestIsUnique(rows: map<Series, Row>, members: set<Series>, s: Series, t: Series)
    requires members <= rows.Keys && IsBest(rows, members, s) && IsBest(rows, members, t)
    ensures s == t
  {
    assert s in members && t in members;
  }

  lemma InOrderAscends(lib: Library)
    ensures Ascending(HashLess, HashesInOrder(lib.metadata.Keys))
    ensures Ascending(SeriesLess, SeriesInOrder(lib.relations.Keys))
  {
    HashOrder();
    SeriesOrder();
  }

  lemma GroupIsRight(lib: Library, roots: Forest, hashes: seq<Hash>, rows: seq<Series>, files: map<Key, seq<Hash>>,
                     best: map<Series, Best>, years: map<Series, Option<nat>>, k: Key, g: Group)
    requires IsComponents(lib, roots) && Ascending(HashLess, hashes)
    requires (forall h :: h in hashes <==> h in lib.metadata) && (forall s :: s in rows <==> s in lib.relations)
    requires Grouped(hashes, KeyOf(lib, roots), files) && k in files && files[k] != []
    requires forall r :: FoldedAt(lib.relations, roots, rows, best, years, r)
    requires g == match k
                  case BySeries(r) => SeriesGroup(lib, roots, FileSeries(lib.metadata), best, years, r, files[k])
                  case ByName(name) => Group(name, [], {}, None, files[k])
    ensures IsGroup(lib, roots, k, g)
  {
    FilesAreRight(lib, roots, hashes, files, k);
    if k.BySeries? {
      assert files[k][0] in files[k];
      TitleIsRight(lib, roots, rows, best, years, k.root);
    }
  }

  lemma FilesAreRight(lib: Library, roots: Forest, hashes: seq<Hash>, files: map<Key, seq<Hash>>, k: Key)
    requires Ascending(HashLess, hashes) && forall h :: h in hashes <==> h in lib.metadata
    requires Grouped(hashes, KeyOf(lib, roots), files) && k in files
    ensures Ascending(HashLess, files[k]) && forall h :: h in files[k] <==> FileKey(lib, roots, h) == Some(k)
  {
    assert GroupedAt(hashes, KeyOf(lib, roots), files, k);
    UnderAscends(hashes, KeyOf(lib, roots), k);
    forall h ensures h in files[k] <==> FileKey(lib, roots, h) == Some(k) {
      UnderHolds(hashes, KeyOf(lib, roots), k, h);
    }
  }

  lemma TitleIsRight(
    lib: Library, roots: Forest, rows: seq<Series>, best: map<Series, Best>, years: map<Series, Option<nat>>, r: Series)
    requires IsComponents(lib, roots) && (forall s :: s in rows <==> s in lib.relations)
    requires FoldedAt(lib.relations, roots, rows, best, years, r)
    ensures var known := Members(roots, r) * lib.relations.Keys;
            && (if known == {} then r !in best
                else r in best && exists s :: IsBest(lib.relations, known, s) &&
                                               best[r].title == lib.relations[s].title)
            && IsFirstYear(lib.relations, known, Kept(years, r).GetOr(None))
  {
    var known := Members(roots, r) * lib.relations.Keys;
    assert RowsUnder(roots, rows, r) == known by {
      assert lib.relations.Keys <= Known(lib);
    }
  }

  /** A file with metadata is in one franchise and no other; a franchise by
      series is a whole component, and two of them share no series. */
  lemma FilesPartition(lib: Library, roots: Forest, groups: map<Key, Group>, h: Hash, k: Key, k': Key)
    requires IsComponents(lib, roots) && IsList(lib, roots, groups) && k in groups && k' in groups
    ensures h in lib.metadata && lib.metadata[h].Some? <==> exists key :: key in groups && h in groups[key].files
    ensures h in groups[k].files && h in groups[k'].files ==> k == k'
    ensures k != k' ==> groups[k].members !! groups[k'].members
    ensures forall x, y :: x in groups[k].members && y in roots ==>
                             (y in groups[k].members <==> Graph.Connected(StructuralEdges(lib.relations), x, y))
  {
    if h in lib.metadata && lib.metadata[h].Some? {
      var key := FileKey(lib, roots, h).value;
      assert key in groups && h in groups[key].files;
    }
    assert IsGroup(lib, roots, k, groups[k]) && IsGroup(lib, roots, k', groups[k']);
    forall x, y | x in groups[k].members && y in roots
      ensures y in groups[k].members <==> Graph.Connected(StructuralEdges(lib.relations), x, y)
    {
      ComponentsPartition(lib, roots, x, y);
    }
  }
}
