/** Which List entry speaks for a file: the entries linked anywhere in the file's
    franchise, in one canonical order, before manual attachments and names. */
module SeriesIdentity {
  import opened Franchise
  import opened Gating
  import opened Graph
  import opened SeriesWalk
  import opened Sorted
  import opened Wrappers

  datatype EntryId = EntryId(value: nat)
  datatype Entry = Entry(name: string, link: Option<Series>, aliases: set<string>, manual: set<Hash>)

  /** What resolution reads.  `linkedId` and `namedId` are the hashes that derive
      an entry id, and `ordinal` is the season ordinal of a series. */
  datatype View<!U(==)> = View(
    lib: Library,
    entries: map<EntryId, Entry>,
    preferences: map<(U, EntryId), Watch>,
    linkedId: Series -> EntryId,
    namedId: string -> EntryId,
    ordinal: Series -> nat)
  {
    function Edges(): Edges<Series> {
      StructuralEdges(lib.relations)
    }

    function Metadata(file: Hash): (m: Option<Metadata>)
      ensures m.Some? <==> file in lib.metadata && lib.metadata[file].Some?
      ensures m.Some? ==> lib.metadata[file] == m
    {
      if file in lib.metadata then lib.metadata[file] else None
    }

    /** Created on first use rather than by a person. */
    predicate AutoCreated(id: EntryId) {
      id in entries && entries[id].link.Some? && linkedId(entries[id].link.value) == id
    }

    function Depth(id: EntryId): nat {
      if id in entries && entries[id].link.Some? then ordinal(entries[id].link.value) else 0
    }

    /** Human-created first, then the deepest season, then the lowest id. */
    predicate CanonicalLess(a: EntryId, b: EntryId) {
      if AutoCreated(a) != AutoCreated(b) then AutoCreated(b)
      else if Depth(a) != Depth(b) then Depth(a) > Depth(b)
      else a.value < b.value
    }

    function CanonicalOrder(): Order<EntryId> {
      (a, b) => CanonicalLess(a, b)
    }
  }

  lemma CanonicalIsTotal<U>(view: View<U>)
    ensures Total(view.CanonicalOrder())
  {
  }

  function CanonicalFirst<U>(view: View<U>, ids: set<EntryId>): (r: seq<EntryId>)
    ensures forall id :: id in r <==> id in ids
  {
    CanonicalIsTotal(view);
    InOrder(view.CanonicalOrder(), ids)
  }

  /** A person's entry comes before one whose id its link derives; among those of
      one kind the season furthest along the prequels comes first, then the lowest
      id. */
  ghost predicate Leads<U>(view: View<U>, ids: set<EntryId>, first: EntryId)
    requires forall id :: id in ids ==> id in view.entries && view.entries[id].link.Some?
  {
    && first in ids
    && forall id :: id in ids && id != first ==>
         var link, other := view.entries[first].link.value, view.entries[id].link.value;
         if (view.linkedId(link) == first) != (view.linkedId(other) == id) then view.linkedId(link) != first
         else view.ordinal(link) > view.ordinal(other) ||
              (view.ordinal(link) == view.ordinal(other) && first.value < id.value)
  }

  /** The first of any linked entries in the canonical order leads them. */
  lemma CanonicalLeads<U>(view: View<U>, ids: set<EntryId>)
    requires ids != {} && forall id :: id in ids ==> id in view.entries && view.entries[id].link.Some?
    ensures CanonicalFirst(view, ids) != [] && Leads(view, ids, CanonicalFirst(view, ids)[0])
  {
    CanonicalIsTotal(view);
    var r := CanonicalFirst(view, ids);
    var x :| x in ids;
    assert x in r && r[0] in r;
    forall id | id in ids && id != r[0] ensures view.CanonicalLess(r[0], id) {
      assert id in r;
      var i :| 0 <= i < |r| && r[i] == id;
      assert view.CanonicalOrder()(r[0], r[i]);
    }
  }

  /** The entries linked to a season reachable from `s`, or one structural step
      before it. */
  ghost function ClaimantSet<U>(view: View<U>, s: Series): set<EntryId> {
    set id | id in view.entries && view.entries[id].link.Some? &&
             (Reach(view.Edges(), s, view.entries[id].link.value) || (view.entries[id].link.value, s) in view.Edges())
  }

  ghost function Claimants<U>(view: View<U>, s: Series): seq<EntryId> {
    CanonicalFirst(view, ClaimantSet(view, s))
  }

  lemma FirstClaimantLeads<U>(view: View<U>, s: Series)
    ensures Claimants(view, s) == [] <==> ClaimantSet(view, s) == {}
    ensures Claimants(view, s) != [] ==> Leads(view, ClaimantSet(view, s), Claimants(view, s)[0])
  {
    if ClaimantSet(view, s) != {} {
      CanonicalLeads(view, ClaimantSet(view, s));
    }
  }

  // ---- The index.

  datatype Index = Index(
    bySeries: map<Series, set<EntryId>>,
    byNeighbour: map<Series, set<EntryId>>,
    byManual: map<Hash, EntryId>,
    byName: map<string, EntryId>)
  {
    function Linked(s: Series): set<EntryId> {
      if s in bySeries then bySeries[s] else {}
    }

    function Near(s: Series): set<EntryId> {
      if s in byNeighbour then byNeighbour[s] else {}
    }
  }

  predicate Claims(e: Entry, name: string) {
    e.name == name || name in e.aliases
  }

  /** `first` holds the lowest listed id that has a property, for every key. */
  ghost predicate FirstClaims<K(!new)>(
    entries: map<EntryId, Entry>, ids: set<EntryId>, claims: (Entry, K) -> bool, first: map<K, EntryId>) {
    forall k :: if k in first
                then first[k] in ids && first[k] in entries && claims(entries[first[k]], k) &&
                     (forall id :: id in ids && id in entries && claims(entries[id], k) ==> first[k].value <= id.value)
                else (forall id :: id in ids && id in entries ==> !claims(entries[id], k))
  }

  predicate ClaimsFile(e: Entry, file: Hash) {
    file in e.manual
  }

  ghost predicate LinksIndexed(entries: map<EntryId, Entry>, ids: set<EntryId>, ix: Index) {
    forall s, id :: id in ix.Linked(s) <==> id in ids && id in entries && entries[id].link == Some(s)
  }

  ghost predicate NearIndexed(
    edges: Edges<Series>, entries: map<EntryId, Entry>, ids: set<EntryId>, ix: Index) {
    forall s, id :: id in ix.Near(s) <==>
                      id in ids && id in entries && entries[id].link.Some? && (entries[id].link.value, s) in edges
  }

  /** The index of the listed entries. */
  ghost predicate Indexes<U>(view: View<U>, ids: set<EntryId>, ix: Index) {
    && LinksIndexed(view.entries, ids, ix)
    && NearIndexed(view.Edges(), view.entries, ids, ix)
    && FirstClaims(view.entries, ids, ClaimsFile, ix.byManual)
    && FirstClaims(view.entries, ids, Claims, ix.byName)
  }

  function IdLess(a: EntryId, b: EntryId): bool {
    a.value < b.value
  }

  lemma IdOrder()
    ensures Total(IdLess)
  {
  }

  /** Keys that have no entry yet get this one. */
  function OrInserted<K(==)>(first: map<K, EntryId>, keys: set<K>, id: EntryId): map<K, EntryId> {
    first + map k | k in keys && k !in first :: id
  }

  /** One more entry, after all those with lower ids. */
  function Added<U(==)>(view: View<U>, ix: Index, id: EntryId): Index
    requires id in view.entries
  {
    var e := view.entries[id];
    var targets := if e.link.Some? && e.link.value in view.lib.relations
                   then StructuralTargets(view.lib.relations[e.link.value].relations) else {};
    Index(if e.link.Some? then ix.bySeries[e.link.value := ix.Linked(e.link.value) + {id}] else ix.bySeries,
          map t | t in ix.byNeighbour.Keys + targets :: ix.Near(t) + if t in targets then {id} else {},
          OrInserted(ix.byManual, e.manual, id),
          OrInserted(ix.byName, {e.name} + e.aliases, id))
  }

  lemma FirstNext<K(!new)>(entries: map<EntryId, Entry>, ids: set<EntryId>, claims: (Entry, K) -> bool,
                           first: map<K, EntryId>, keys: set<K>, id: EntryId)
    requires FirstClaims(entries, ids, claims, first) && id in entries
    requires forall other :: other in ids ==> other.value < id.value
    requires forall k :: k in keys <==> claims(entries[id], k)
    ensures FirstClaims(entries, ids + {id}, claims, OrInserted(first, keys, id))
  {
  }

  lemma TargetsAreEdges(rows: map<Series, Row>, s: Series, t: Series)
    ensures (s, t) in StructuralEdges(rows) <==> s in rows && t in StructuralTargets(rows[s].relations)
  {
  }

  lemma AddedLinks<U>(view: View<U>, ids: set<EntryId>, ix: Index, id: EntryId)
    requires LinksIndexed(view.entries, ids, ix) && id in view.entries
    ensures LinksIndexed(view.entries, ids + {id}, Added(view, ix, id))
  {
  }

  lemma AddedNear<U>(view: View<U>, ids: set<EntryId>, ix: Index, id: EntryId)
    requires NearIndexed(view.Edges(), view.entries, ids, ix) && id in view.entries
    ensures NearIndexed(view.Edges(), view.entries, ids + {id}, Added(view, ix, id))
  {
    var ix' := Added(view, ix, id);
    var link := view.entries[id].link;
    forall s ensures ix'.Near(s) == ix.Near(s) + if link.Some? && (link.value, s) in view.Edges() then {id} else {} {
      if link.Some? {
        TargetsAreEdges(view.lib.relations, link.value, s);
      }
    }
  }

  lemma AddedIndexes<U>(view: View<U>, ids: set<EntryId>, ix: Index, id: EntryId)
    requires Indexes(view, ids, ix) && id in view.entries && forall other :: other in ids ==> other.value < id.value
    ensures Indexes(view, ids + {id}, Added(view, ix, id))
  {
    var e := view.entries[id];
    FirstNext(view.entries, ids, ClaimsFile, ix.byManual, e.manual, id);
    FirstNext(view.entries, ids, Claims, ix.byName, {e.name} + e.aliases, id);
    AddedLinks(view, ids, ix, id);
    AddedNear(view, ids, ix, id);
  }

  ghost function Listed(order: seq<EntryId>, n: nat): set<EntryId>
    requires n <= |order|
  {
    set id | id in order[..n]
  }

  lemma ListedNext(order: seq<EntryId>, i: nat)
    requires i < |order| && Ascending(IdLess, order)
    ensures Listed(order, i + 1) == Listed(order, i) + {order[i]}
    ensures forall other :: other in Listed(order, i) ==> other.value < order[i].value
  {
    assert order[..i + 1] == order[..i] + [order[i]];
    forall other | other in Listed(order, i) ensures IdLess(other, order[i]) {
    }
  }

  function EntriesInOrder(ids: set<EntryId>): (r: seq<EntryId>)
    ensures Ascending(IdLess, r) && forall id :: id in r <==> id in ids
  {
    IdOrder();
    InOrder(IdLess, ids)
  }

  lemma EmptyIndexes<U>(view: View<U>)
    ensures Indexes(view, {}, Index(map[], map[], map[], map[]))
  {
  }

  lemma NextIndexes<U>(view: View<U>, order: seq<EntryId>, n: nat, ix: Index)
    requires n < |order| && Ascending(IdLess, order) && order[n] in view.entries && Indexes(view, Listed(order, n), ix)
    ensures Indexes(view, Listed(order, n + 1), Added(view, ix, order[n]))
  {
    ListedNext(order, n);
    AddedIndexes(view, Listed(order, n), ix, order[n]);
  }

  /** One pass over the entries in id order. */
  method NewIndex<U>(view: View<U>) returns (ix: Index)
    ensures Indexes(view, view.entries.Keys, ix)
  {
    var order := EntriesInOrder(view.entries.Keys);
    ix := Index(map[], map[], map[], map[]);
    EmptyIndexes(view);
    assert Listed(order, 0) == {};
    for i := 0 to |order|
      invariant Indexes(view, Listed(order, i), ix)
    {
      assert order[i] in order;
      NextIndexes(view, order, i, ix);
      ix := Added(view, ix, order[i]);
    }
    AllListed(order, view.entries.Keys);
  }

  lemma AllListed(order: seq<EntryId>, ids: set<EntryId>)
    requires forall id :: id in order <==> id in ids
    ensures Listed(order, |order|) == ids
  {
    assert order[..|order|] == order;
  }

  // ---- Resolution.

  ghost predicate IsFirst<K(!new)>(entries: map<EntryId, Entry>, claims: (Entry, K) -> bool, k: K, r: Option<EntryId>) {
    match r
    case None => forall id :: id in entries ==> !claims(entries[id], k)
    case Some(first) => && first in entries && claims(entries[first], k)
                        && (forall id :: id in entries && claims(entries[id], k) ==> first.value <= id.value)
  }

  /** What a file resolves to: the canonical claimant of its series, else the
      first entry it is attached to by hand, else the first that has its name. */
  ghost predicate Resolves<U>(view: View<U>, file: Hash, r: Option<EntryId>) {
    var metadata := view.Metadata(file);
    var claimants :=
      if metadata.Some? && metadata.value.series.Some? then Claimants(view, metadata.value.series.value) else [];
    if claimants != [] then r == Some(claimants[0])
    else if exists id :: id in view.entries && ClaimsFile(view.entries[id], file) then
      IsFirst(view.entries, ClaimsFile, file, r)
    else if metadata.Some? then IsFirst(view.entries, Claims, metadata.value.name, r)
    else r == None
  }

  method ClaimantsThrough<U>(view: View<U>, ix: Index, s: Series) returns (r: seq<EntryId>)
    requires Indexes(view, view.entries.Keys, ix)
    ensures r == Claimants(view, s) && (r == [] <==> ClaimantSet(view, s) == {})
    ensures r != [] ==> Leads(view, ClaimantSet(view, s), r[0])
  {
    var seen := ReachableComponent(view.lib.relations, s);
    var ids := (set m, id | m in seen && id in ix.Linked(m) :: id) + ix.Near(s);
    IndexedClaimants(view, ix, s, seen, ids);
    r := CanonicalFirst(view, ids);
    FirstClaimantLeads(view, s);
  }

  lemma IndexedClaimants<U>(view: View<U>, ix: Index, s: Series, seen: set<Series>, ids: set<EntryId>)
    requires Indexes(view, view.entries.Keys, ix) && forall x :: x in seen <==> Reach(view.Edges(), s, x)
    requires ids == (set m, id | m in seen && id in ix.Linked(m) :: id) + ix.Near(s)
    ensures ids == ClaimantSet(view, s)
  {
  }

  method Resolve<U>(view: View<U>, ix: Index, file: Hash) returns (r: Option<EntryId>)
    requires Indexes(view, view.entries.Keys, ix)
    ensures Resolves(view, file, r)
    ensures forall s :: FileOf(view, file, s) && ClaimantSet(view, s) != {} ==>
                          r.Some? && Leads(view, ClaimantSet(view, s), r.value)
  {
    var metadata := view.Metadata(file);
    if metadata.Some? && metadata.value.series.Some? {
      var claimants := ClaimantsThrough(view, ix, metadata.value.series.value);
      if claimants != [] {
        return Some(claimants[0]);
      }
    }
    if file in ix.byManual {
      return Some(ix.byManual[file]);
    }
    if metadata.None? {
      return None;
    }
    r := if metadata.value.name in ix.byName then Some(ix.byName[metadata.value.name]) else None;
  }

  // ---- One entry for the whole franchise.

  ghost predicate Sees<U>(view: View<U>, s: Series, link: Series) {
    Reach(view.Edges(), s, link) || (link, s) in view.Edges()
  }

  ghost predicate LinkedAt<U>(view: View<U>, id: EntryId, link: Series) {
    id in view.entries && view.entries[id].link == Some(link)
  }

  /** In the franchise of `s`, every linked season is reached from every season or
      is one step before it. */
  ghost predicate LinksAreSeen<U>(view: View<U>, s: Series) {
    forall id, link, x :: LinkedAt(view, id, link) && Connected(view.Edges(), s, x) ==>
                            Connected(view.Edges(), x, link) ==> Sees(view, x, link)
  }

  /** The relations of this franchise are recorded from both sides. */
  ghost predicate TwoSided<U>(view: View<U>, s: Series) {
    forall e :: e in view.Edges() && Connected(view.Edges(), s, e.0) ==> (e.1, e.0) in view.Edges()
  }

  /** Then walking with the edges gets everywhere in it. */
  lemma TwoSidedReach<U>(view: View<U>, s: Series, x: Series, y: Series)
    requires TwoSided(view, s) && Connected(view.Edges(), s, x) && Connected(view.Edges(), x, y)
    ensures Reach(view.Edges(), x, y)
  {
    var edges := view.Edges();
    var closed := iset z | Connected(edges, s, z) && Reach(edges, x, z);
    forall e | e in Both(edges) && e.0 in closed ensures e.1 in closed {
      ReachEdge(Both(edges), e.0, e.1);
      ConnectedJoins(edges, s, e.0, e.1);
      assert e in edges;
      ReachEdge(edges, e.0, e.1);
      ReachJoins(edges, x, e.0, e.1);
    }
    ReachSelf(edges, x);
    var p :| IsPath(Both(edges), p, x, y);
    ReachStaysIn(Both(edges), closed, p, x, y);
  }

  /** So that is enough, whatever the rest of the library is like. */
  lemma TwoSidedIsSeen<U>(view: View<U>, s: Series)
    requires TwoSided(view, s)
    ensures LinksAreSeen(view, s)
  {
    forall id, link, x | LinkedAt(view, id, link) && Connected(view.Edges(), s, x) && Connected(view.Edges(), x, link)
      ensures Sees(view, x, link)
    {
      TwoSidedReach(view, s, x, link);
    }
  }

  lemma SeesConnects<U>(view: View<U>, s: Series, link: Series)
    requires Sees(view, s, link)
    ensures Connected(view.Edges(), s, link)
  {
    if Reach(view.Edges(), s, link) {
      ReachConnects(view.Edges(), s, link);
    } else {
      ReachEdge(view.Edges(), link, s);
      ReachConnects(view.Edges(), link, s);
      ConnectedTurns(view.Edges(), link, s);
    }
  }

  ghost predicate LinkedIn<U>(view: View<U>, id: EntryId, s: Series) {
    exists link :: LinkedAt(view, id, link) && Connected(view.Edges(), s, link)
  }

  /** The claimants are then the entries linked anywhere in the component. */
  lemma ClaimantsAreLinked<U>(view: View<U>, s: Series, x: Series, id: EntryId)
    requires LinksAreSeen(view, s) && Connected(view.Edges(), s, x)
    ensures id in ClaimantSet(view, x) <==> LinkedIn(view, id, s)
  {
    if id in ClaimantSet(view, x) {
      var link := view.entries[id].link.value;
      assert LinkedAt(view, id, link);
      SeesConnects(view, x, link);
      ConnectedJoins(view.Edges(), s, x, link);
    }
    if LinkedIn(view, id, s) {
      var link :| LinkedAt(view, id, link) && Connected(view.Edges(), s, link);
      ConnectedTurns(view.Edges(), s, x);
      ConnectedJoins(view.Edges(), x, s, link);
      assert Sees(view, x, link);
    }
  }

  lemma SameClaimants<U>(view: View<U>, s: Series, t: Series)
    requires LinksAreSeen(view, s) && Connected(view.Edges(), s, t)
    ensures ClaimantSet(view, s) == ClaimantSet(view, t)
  {
    ReachSelf(Both(view.Edges()), s);
    forall id ensures id in ClaimantSet(view, s) <==> id in ClaimantSet(view, t) {
      ClaimantsAreLinked(view, s, s, id);
      ClaimantsAreLinked(view, s, t, id);
    }
  }

  ghost predicate Agree<U>(view: View<U>, s: Series, t: Series) {
    ClaimantSet(view, s) == ClaimantSet(view, t)
  }

  /** All seasons of a franchise have the same claimants exactly if its linked
      seasons are seen from all of them. */
  lemma ClaimantsAgreeIff<U>(view: View<U>, s: Series)
    ensures (forall t :: Connected(view.Edges(), s, t) ==> Agree(view, s, t)) <==> LinksAreSeen(view, s)
  {
    if forall t :: Connected(view.Edges(), s, t) ==> Agree(view, s, t) {
      forall id, link, x | LinkedAt(view, id, link) && Connected(view.Edges(), s, x) && Connected(view.Edges(), x, link)
        ensures Sees(view, x, link)
      {
        ReachSelf(view.Edges(), link);
        ConnectedJoins(view.Edges(), s, x, link);
        assert id in ClaimantSet(view, link);
        assert Agree(view, s, link) && Agree(view, s, x);
      }
    }
    if LinksAreSeen(view, s) {
      forall t | Connected(view.Edges(), s, t) ensures Agree(view, s, t) {
        SameClaimants(view, s, t);
      }
    }
  }

  ghost predicate FileOf<U>(view: View<U>, file: Hash, s: Series) {
    file in view.lib.metadata && view.lib.metadata[file].Some? && view.lib.metadata[file].value.series == Some(s)
  }

  /** If any entry is linked in a franchise, all its files resolve to one entry. */
  lemma FranchiseResolvesTogether<U>(
    view: View<U>, f: Hash, g: Hash, s: Series, t: Series, rf: Option<EntryId>, rg: Option<EntryId>, linked: EntryId)
    requires LinksAreSeen(view, s) && Connected(view.Edges(), s, t) && FileOf(view, f, s) && FileOf(view, g, t)
    requires Resolves(view, f, rf) && Resolves(view, g, rg) && LinkedIn(view, linked, s)
    ensures rf == rg && rf.Some? && rf.value in ClaimantSet(view, s)
  {
    SameClaimants(view, s, t);
    ReachSelf(Both(view.Edges()), s);
    ClaimantsAreLinked(view, s, s, linked);
    assert linked in Claimants(view, s);
    assert Claimants(view, s)[0] in Claimants(view, s);
  }

  /** With relations recorded from one side only, a later season can miss the
      entry that its first season resolves to. */
  lemma OneSidedRelationsSplit<U>(view: View<U>, a: Series, b: Series, c: Series, id: EntryId)
    requires a != b && b != c && a != c && view.Edges() == {(a, b), (b, c)}
    requires view.entries.Keys == {id} && view.entries[id].link == Some(a)
    ensures ClaimantSet(view, a) == {id} && ClaimantSet(view, c) == {} && Connected(view.Edges(), a, c)
  {
    var edges := view.Edges();
    ReachSelf(edges, a);
    ReachEdge(edges, a, b);
    ReachEdge(edges, b, c);
    ReachJoins(edges, a, b, c);
    ReachConnects(edges, a, c);
    if Reach(edges, c, a) {
      var p :| IsPath(edges, p, c, a);
      ReachStaysIn(edges, iset{c}, p, c, a);
    }
  }

  // ---- The watch state.

  function Stronger(a: Watch, b: Watch): Watch {
    if a == Watching || b == Watching then Watching
    else if a == NotWatching || b == NotWatching then NotWatching else Maybe
  }

  function Fold<U>(view: View<U>, user: U, ids: seq<EntryId>): Watch {
    if ids == [] then Maybe
    else
      var last := ids[|ids| - 1];
      var before := Fold(view, user, ids[..|ids| - 1]);
      if (user, last) in view.preferences then Stronger(before, view.preferences[(user, last)]) else before
  }

  ghost predicate Prefers<U>(view: View<U>, user: U, ids: set<EntryId>, w: Watch) {
    exists id :: id in ids && (user, id) in view.preferences && view.preferences[(user, id)] == w
  }

  lemma PrefersNext<U>(view: View<U>, user: U, ids: set<EntryId>, id: EntryId, w: Watch)
    ensures Prefers(view, user, ids + {id}, w) <==>
              Prefers(view, user, ids, w) || ((user, id) in view.preferences && view.preferences[(user, id)] == w)
  {
  }

  /** The fold is Watching if any preference is, else NotWatching if any is. */
  lemma {:induction false} FoldIsStrongest<U>(view: View<U>, user: U, ids: seq<EntryId>)
    ensures var all := set id | id in ids;
            Fold(view, user, ids) == if Prefers(view, user, all, Watching) then Watching
                                     else if Prefers(view, user, all, NotWatching) then NotWatching else Maybe
  {
    if ids != [] {
      var n := |ids| - 1;
      FoldIsStrongest(view, user, ids[..n]);
      assert ids == ids[..n] + [ids[n]];
      var before, all := set id | id in ids[..n], set id | id in ids;
      assert all == before + {ids[n]};
      PrefersNext(view, user, before, ids[n], Watching);
      PrefersNext(view, user, before, ids[n], NotWatching);
    }
  }

  /** `r` is what the file resolved to. */
  ghost function WatchOf<U>(view: View<U>, user: U, r: Option<EntryId>): Watch
    requires r.Some? ==> r.value in view.entries
  {
    if r.None? then Maybe
    else
      var link := view.entries[r.value].link;
      Fold(view, user, if link.Some? then Claimants(view, link.value) else [r.value])
  }

  /** A user's state for a file of the franchise is the strongest preference on
      any entry linked there, the same for every file. */
  lemma FranchiseWatchesTogether<U>(view: View<U>, user: U, f: Hash, s: Series, r: Option<EntryId>, linked: EntryId)
    requires LinksAreSeen(view, s) && FileOf(view, f, s) && Resolves(view, f, r) && LinkedIn(view, linked, s)
    ensures r.Some? && r.value in view.entries
    ensures var all := ClaimantSet(view, s);
            WatchOf(view, user, r) == if Prefers(view, user, all, Watching) then Watching
                                      else if Prefers(view, user, all, NotWatching) then NotWatching else Maybe
  {
    ReachSelf(Both(view.Edges()), s);
    FranchiseResolvesTogether(view, f, f, s, s, r, r, linked);
    var l := view.entries[r.value].link.value;
    SeesConnects(view, s, l);
    SameClaimants(view, s, l);
    FoldIsStrongest(view, user, Claimants(view, l));
    assert (set id | id in Claimants(view, l)) == ClaimantSet(view, s);
  }

  // ---- Creating an entry.

  function EntryFor(m: Metadata): Entry {
    Entry(m.name, m.series, if m.series.None? then {m.name} else {}, {})
  }

  function DerivedId<U>(view: View<U>, m: Metadata): EntryId {
    if m.series.Some? then view.linkedId(m.series.value) else view.namedId(m.name)
  }

  /** The entry found; else one to create from the metadata, linked to the series
      under the id that derives from it, or known by its name under the id that
      derives from that; else nothing. */
  ghost predicate IsAnswer<U>(view: View<U>, file: Hash, found: Option<EntryId>, r: Option<(EntryId, Option<Entry>)>) {
    if found.Some? then r == Some((found.value, None))
    else if file !in view.lib.metadata || view.lib.metadata[file].None? then r == None
    else
      var m := view.lib.metadata[file].value;
      match m.series
      case Some(s) => r == Some((view.linkedId(s), Some(Entry(m.name, Some(s), {}, {}))))
      case None => r == Some((view.namedId(m.name), Some(Entry(m.name, None, {m.name}, {}))))
  }

  /** Resolves a file, or gives the id and the entry to create for it. */
  method ResolveOrBuild<U>(view: View<U>, file: Hash) returns (r: Option<(EntryId, Option<Entry>)>)
    ensures exists found :: Resolves(view, file, found) && IsAnswer(view, file, found, r)
  {
    var ix := NewIndex(view);
    var found := Resolve(view, ix, file);
    if found.Some? {
      return Some((found.value, None));
    }
    var metadata := view.Metadata(file);
    if metadata.None? {
      return None;
    }
    r := Some((DerivedId(view, metadata.value), Some(EntryFor(metadata.value))));
  }

  /** Once the created entry is stored, the file resolves to it, even if the id
      was taken by an entry that has since been linked elsewhere. */
  lemma CreatedEntryIsFound<U>(view: View<U>, file: Hash, r: Option<EntryId>)
    requires Resolves(view, file, None) && view.Metadata(file).Some?
    requires var m := view.Metadata(file).value;
             Resolves(view.(entries := view.entries[DerivedId(view, m) := EntryFor(m)]), file, r)
    ensures r == Some(DerivedId(view, view.Metadata(file).value))
  {
    var m := view.Metadata(file).value;
    var id := DerivedId(view, m);
    var view' := view.(entries := view.entries[id := EntryFor(m)]);
    if m.series.Some? {
      CreatedIsOnlyClaimant(view, view', m.series.value, id);
    } else {
      CreatedIsOnlyName(view, view', m.name, id, r);
      CreatedIsNotManual(view, view', file, id);
    }
  }

  lemma CreatedIsNotManual<U>(view: View<U>, view': View<U>, file: Hash, id: EntryId)
    requires forall x :: x in view.entries ==> !ClaimsFile(view.entries[x], file)
    requires id in view'.entries && view'.entries[id].manual == {}
    requires view'.entries == view.entries[id := view'.entries[id]]
    ensures forall x :: x in view'.entries ==> !ClaimsFile(view'.entries[x], file)
  {
  }

  lemma CreatedIsOnlyName<U>(view: View<U>, view': View<U>, name: string, id: EntryId, r: Option<EntryId>)
    requires forall x :: x in view.entries ==> !Claims(view.entries[x], name)
    requires id in view'.entries && Claims(view'.entries[id], name)
    requires view'.entries == view.entries[id := view'.entries[id]]
    ensures IsFirst(view'.entries, Claims, name, r) <==> r == Some(id)
  {
  }

  lemma CreatedIsOnlyClaimant<U>(view: View<U>, view': View<U>, s: Series, id: EntryId)
    requires ClaimantSet(view, s) == {} && id in view'.entries && view'.entries[id].link == Some(s)
    requires view' == view.(entries := view.entries[id := view'.entries[id]])
    ensures Claimants(view', s) == [id]
  {
    ReachSelf(view.Edges(), s);
    assert ClaimantSet(view', s) == {id} by {
      forall x | x in ClaimantSet(view', s) ensures x == id {
        assert x != id ==> x in ClaimantSet(view, s);
      }
    }
    CanonicalIsTotal(view');
  }
}
