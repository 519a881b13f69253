/** Compaction: the resolved view written again into an empty state by one actor.
    `H` stands for file hashes, `I` for what else a playlist entry holds, `K` and
    `V` for the other fields' keys and values, `M` for messages. */
module Compact {
  import opened CrdtState
  import opened Lww
  import opened LwwMap
  import opened Sorted
  import opened Wrappers
  import P = Playlist

  const FIELDS: seq<MapField> :=
    [Watched, SeriesPreference, ManualOverride, FileAvailability, AniDbMetadata, SeriesRelations,
     FileCatalog, ListEntries, ListNextEp, PlaybackPosition, SavedPosition]

  // ---- A state and its view.

  /** The replicated state as compaction reads and writes it. */
  datatype Replica<!H(==), I, K(==), V(==), M> = Replica(
    playlist: P.Cells<H, I>,
    maps: map<MapField, Map<K, V>>,
    nowPlaying: Cell<Option<H>>,
    authority: Cell<V>,
    playing: Cell<bool>,
    marquee: Cell<Option<V>>,
    lookups: set<V>,
    acknowledged: set<V>,
    chat: seq<M>)
  {
    function MapAt(f: MapField): Map<K, V> {
      if f in maps then maps[f] else Empty()
    }
  }

  /** The resolved view. */
  datatype Snapshot<H(==), I, K(==), V(==), M> = Snapshot(
    playlist: seq<P.Slot<H>>,
    infos: map<H, I>,
    maps: map<MapField, map<K, V>>,
    nowPlaying: Option<H>,
    since: Option<nat>,
    authority: Option<V>,
    playing: bool,
    marquee: Option<Lww<V>>,
    lookups: set<V>,
    acknowledged: set<V>,
    chat: seq<M>)
  {
    function MapAt(f: MapField): map<K, V> {
      if f in maps then maps[f] else map[]
    }

    /** One playlist entry per file, and contents for each. */
    ghost predicate Listed() {
      P.Distinct(playlist) && infos.Keys == set x | x in playlist :: x.hash
    }
  }

  function Infos<H(==), I>(p: map<H, P.FileState<I>>): map<H, I> {
    map h | h in p :: p[h].info
  }

  function View<H(!new, ==), I, K(==), V(==), M>(hashLess: Order<H>, s: Replica<H, I, K, V, M>): Snapshot<H, I, K, V, M>
    requires Total(hashLess)
  {
    Snapshot(
      P.Shown(hashLess, P.Resolved(s.playlist)), Infos(P.Resolved(s.playlist)),
      map f | f in FIELDS :: LwwMap.View(s.MapAt(f)),
      if s.nowPlaying.Some? then s.nowPlaying.value.value else None,
      if s.nowPlaying.Some? then Some(s.nowPlaying.value.timestamp) else None,
      if s.authority.Some? then Some(s.authority.value.value) else None,
      s.playing.Some? && s.playing.value.value,
      if s.marquee.Some? && s.marquee.value.value.Some?
        then Some(Lww(s.marquee.value.timestamp, s.marquee.value.value.value)) else None,
      s.lookups, s.acknowledged, s.chat)
  }

  lemma ViewIsListed<H(!new), I, K, V, M>(hashLess: Order<H>, s: Replica<H, I, K, V, M>)
    requires Total(hashLess)
    ensures View(hashLess, s).Listed()
  {
    P.ShownOnce(hashLess, P.Resolved(s.playlist));
    P.ShownIs(hashLess, P.Resolved(s.playlist));
    forall h | h in P.Resolved(s.playlist)
      ensures exists x :: x in P.Shown(hashLess, P.Resolved(s.playlist)) && x.hash == h
    {
      assert P.Slot(P.Resolved(s.playlist)[h].position, h) in P.Shown(hashLess, P.Resolved(s.playlist));
    }
  }

  ghost predicate StampInMap<K, V>(m: Map<K, V>, ts: nat) {
    exists k :: k in m.entries && m.entries[k].cell.Some? && m.entries[k].cell.value.timestamp == ts
  }

  ghost predicate StampInCell<V>(cell: Cell<V>, ts: nat) {
    cell.Some? && cell.value.timestamp == ts
  }

  /** `ts` stamps one of the state's registers. */
  ghost predicate StampIn<H, I, K, V, M>(s: Replica<H, I, K, V, M>, ts: nat) {
    || StampInMap(s.playlist, ts)
    || (exists f :: f in FIELDS && StampInMap(s.MapAt(f), ts))
    || StampInCell(s.nowPlaying, ts) || StampInCell(s.authority, ts)
    || StampInCell(s.playing, ts) || StampInCell(s.marquee, ts)
  }

  // ---- One collection.

  /** The collection resolves to `view`, was written by `actor` alone, and every
      cell carries a stamp from `lo` up to `hi`. */
  ghost predicate Rewrites<K, V>(m: Map<K, V>, view: map<K, V>, actor: Actor, stamps: Stamps, lo: nat, hi: nat) {
    LwwMap.View(m) == view && m.entries.Keys == view.Keys && WrittenBy(m, actor, stamps, lo, hi)
  }

  lemma PutRewrites<K, V>(
    less: Order<V>, m: Map<K, V>, view: map<K, V>, actor: Actor, stamps: Stamps, lo: nat, hi: nat, k: K, v: V)
    requires Rewrites(m, view, actor, stamps, lo, hi) && k !in view && lo <= hi
    ensures Rewrites(Apply(less, m, Op(actor, At(m.clock, actor) + 1, k, Lww(stamps(hi), v))), view[k := v],
                     actor, stamps, lo, hi + 1)
  {
    WrittenNext(less, m, actor, stamps, lo, hi, k, v);
  }

  function Restricted<K(==), V>(view: map<K, V>, keys: seq<K>): map<K, V> {
    map k | k in view && k in keys :: view[k]
  }

  method KeysInOrder<K(!new, ==), V>(keyLess: Order<K>, view: map<K, V>) returns (keys: seq<K>)
    requires Total(keyLess)
    ensures |keys| == |view| && Ascending(keyLess, keys) && forall k :: k in keys <==> k in view
  {
    keys := InOrder(keyLess, view.Keys);
  }

  method RebuildMap<K(!new, ==), V>(
    keyLess: Order<K>, less: Order<V>, view: map<K, V>, actor: Actor, stamps: Stamps, lo: nat)
    returns (m: Map<K, V>, hi: nat)
    requires Total(keyLess)
    ensures hi == lo + |view| && Rewrites(m, view, actor, stamps, lo, hi)
  {
    m, hi := Empty(), lo;
    var keys := KeysInOrder(keyLess, view);
    for i := 0 to |keys|
      invariant hi == lo + i && Rewrites(m, Restricted(view, keys[..i]), actor, stamps, lo, hi)
    {
      NextKey(keyLess, less, view, keys, i, m, actor, stamps, lo, hi);
      m := Apply(less, m, Op(actor, At(m.clock, actor) + 1, keys[i], Lww(stamps(hi), view[keys[i]])));
      hi := hi + 1;
    }
    AllKeys(view, keys);
  }

  lemma AllKeys<K, V>(view: map<K, V>, keys: seq<K>)
    requires forall k :: k in view ==> k in keys
    ensures Restricted(view, keys[..|keys|]) == view
  {
    assert keys[..|keys|] == keys;
  }

  lemma NextKey<K(!new), V>(keyLess: Order<K>, less: Order<V>, view: map<K, V>, keys: seq<K>, i: nat,
                            m: Map<K, V>, actor: Actor, stamps: Stamps, lo: nat, hi: nat)
    requires Total(keyLess) && Ascending(keyLess, keys) && i < |keys| && keys[i] in view && lo <= hi
    requires Rewrites(m, Restricted(view, keys[..i]), actor, stamps, lo, hi)
    ensures Rewrites(Apply(less, m, Op(actor, At(m.clock, actor) + 1, keys[i], Lww(stamps(hi), view[keys[i]]))),
                     Restricted(view, keys[..i + 1]), actor, stamps, lo, hi + 1)
  {
    RestrictedNext(keyLess, view, keys, i);
    PutRewrites(less, m, Restricted(view, keys[..i]), actor, stamps, lo, hi, keys[i], view[keys[i]]);
  }

  lemma RestrictedNext<K(!new), V>(keyLess: Order<K>, view: map<K, V>, keys: seq<K>, i: nat)
    requires Total(keyLess) && Ascending(keyLess, keys) && i < |keys| && keys[i] in view
    ensures keys[i] !in Restricted(view, keys[..i])
    ensures Restricted(view, keys[..i + 1]) == Restricted(view, keys[..i])[keys[i] := view[keys[i]]]
  {
    assert keys[..i + 1] == keys[..i] + [keys[i]];
    forall j | 0 <= j < i ensures keys[j] != keys[i] {
      assert keyLess(keys[j], keys[i]);
    }
  }

  // ---- All collections but the playlist.

  /** Who compacts, with which stamps, and what is kept: `keep` drops an unwatched
      flag and a saved position of zero. */
  datatype Pass<!V> = Pass(actor: Actor, stamps: Stamps, keep: (MapField, V) -> bool, chatKeep: nat)

  /** What survives of one collection. */
  function Reduced<K(==), V>(pass: Pass<V>, f: MapField, view: map<K, V>): map<K, V> {
    map k | k in view && pass.keep(f, view[k]) :: view[k]
  }

  ghost predicate FieldDone<K, V>(
    maps: map<MapField, Map<K, V>>, f: MapField, views: MapField -> map<K, V>, pass: Pass<V>, lo: nat, hi: nat)
  {
    f in maps && Rewrites(maps[f], Reduced(pass, f, views(f)), pass.actor, pass.stamps, lo, hi)
  }

  /** The listed fields, and no others, have been rebuilt. */
  ghost predicate FieldsDone<K, V>(
    maps: map<MapField, Map<K, V>>, fields: seq<MapField>, views: MapField -> map<K, V>, pass: Pass<V>, lo: nat,
    hi: nat)
  {
    && (forall f :: f in maps ==> f in fields)
    && (forall f :: f in fields ==> FieldDone(maps, f, views, pass, lo, hi))
  }

  lemma FieldWiden<K, V>(
    maps: map<MapField, Map<K, V>>, maps': map<MapField, Map<K, V>>, f: MapField, views: MapField -> map<K, V>,
    pass: Pass<V>, lo: nat, hi: nat, lo': nat, hi': nat)
    requires FieldDone(maps, f, views, pass, lo, hi) && lo' <= lo && hi <= hi' && f in maps' && maps'[f] == maps[f]
    ensures FieldDone(maps', f, views, pass, lo', hi')
  {
    WrittenWiden(maps[f], pass.actor, pass.stamps, lo, hi, lo', hi');
  }

  lemma OneMoreField<K, V>(
    maps: map<MapField, Map<K, V>>, fields: seq<MapField>, views: MapField -> map<K, V>, pass: Pass<V>,
    lo: nat, hi: nat, f: MapField, m: Map<K, V>, hi': nat)
    requires FieldsDone(maps, fields, views, pass, lo, hi) && lo <= hi <= hi'
    requires Rewrites(m, Reduced(pass, f, views(f)), pass.actor, pass.stamps, hi, hi')
    ensures FieldsDone(maps[f := m], fields + [f], views, pass, lo, hi')
  {
    forall g | g in fields + [f] ensures FieldDone(maps[f := m], g, views, pass, lo, hi') {
      if g == f {
        assert FieldDone(maps[f := m], f, views, pass, hi, hi');
        FieldWiden(maps[f := m], maps[f := m], f, views, pass, hi, hi', lo, hi');
      } else {
        FieldWiden(maps, maps[f := m], g, views, pass, lo, hi, lo, hi');
      }
    }
  }

  method RebuildFields<K(!new, ==), V>(
    keyLess: Order<K>, less: Order<V>, views: MapField -> map<K, V>, pass: Pass<V>, lo: nat, fields: seq<MapField>)
    returns (maps: map<MapField, Map<K, V>>, hi: nat)
    requires Total(keyLess)
    ensures lo <= hi && FieldsDone(maps, fields, views, pass, lo, hi)
  {
    maps, hi := map[], lo;
    for i := 0 to |fields|
      invariant lo <= hi && FieldsDone(maps, fields[..i], views, pass, lo, hi)
    {
      var m, hi' := RebuildMap(keyLess, less, Reduced(pass, fields[i], views(fields[i])), pass.actor, pass.stamps, hi);
      OneMoreField(maps, fields[..i], views, pass, lo, hi, fields[i], m, hi');
      assert fields[..i] + [fields[i]] == fields[..i + 1];
      maps, hi := maps[fields[i] := m], hi';
    }
    assert fields[..|fields|] == fields;
  }

  lemma BothHalves<K, V>(
    watched: map<MapField, Map<K, V>>, others: map<MapField, Map<K, V>>, views: MapField -> map<K, V>, pass: Pass<V>,
    lo: nat, i: nat, j: nat, hi: nat)
    requires lo <= i <= j <= hi && FieldsDone(watched, FIELDS[..1], views, pass, lo, i)
    requires FieldsDone(others, FIELDS[1..], views, pass, j, hi)
    ensures FieldsDone(watched + others, FIELDS, views, pass, lo, hi)
  {
    assert FIELDS == FIELDS[..1] + FIELDS[1..];
    forall f | f in FIELDS ensures FieldDone(watched + others, f, views, pass, lo, hi) {
      if f in FIELDS[1..] {
        assert FieldDone(others, f, views, pass, j, hi);
        FieldWiden(others, watched + others, f, views, pass, j, hi, lo, hi);
      } else {
        assert FieldDone(watched, f, views, pass, lo, i);
        FieldWiden(watched, watched + others, f, views, pass, lo, i, lo, hi);
      }
    }
  }

  // ---- The whole state.

  /** The newest `n`, or all there are. */
  function LastOnes<M>(chat: seq<M>, n: nat): (r: seq<M>)
    ensures |r| == Min(n, |chat|) && chat == chat[..|chat| - |r|] + r
  {
    if |chat| <= n then chat else chat[|chat| - n..]
  }

  /** The view with the documented reductions and nothing else: flat positions,
      dropped flags and zeros, the last messages, and no lookups,
      acknowledgements or marquee. */
  function Cut<H(==), I, K(==), V(==), M>(
    view: Snapshot<H, I, K, V, M>, pass: Pass<V>, since: nat): Snapshot<H, I, K, V, M> {
    view.(playlist := P.Flattened(view.playlist, pass.actor),
          maps := map f | f in FIELDS :: Reduced(pass, f, view.MapAt(f)),
          since := Some(since), marquee := None, lookups := {}, acknowledged := {},
          chat := LastOnes(view.chat, pass.chatKeep))
  }

  /** Only `pass.actor` wrote anything, and every register carries one of its stamps. */
  ghost predicate Authored<H, I, K, V, M>(s: Replica<H, I, K, V, M>, pass: Pass<V>, lo: nat, hi: nat) {
    && WrittenBy(s.playlist, pass.actor, pass.stamps, lo, hi)
    && (forall f :: f in FIELDS ==> WrittenBy(s.MapAt(f), pass.actor, pass.stamps, lo, hi))
    && CellStamped(s.nowPlaying, pass, lo, hi) && CellStamped(s.authority, pass, lo, hi)
    && CellStamped(s.playing, pass, lo, hi) && CellStamped(s.marquee, pass, lo, hi)
  }

  ghost predicate CellStamped<T, V>(cell: Cell<T>, pass: Pass<V>, lo: nat, hi: nat) {
    cell.Some? ==> Drawn(cell.value.timestamp, pass.stamps, lo, hi)
  }

  method Rebuild<H(!new, ==), I(!new, ==), K(!new, ==), V, M>(
    hashLess: Order<H>, stateLess: Order<Option<P.FileState<I>>>, keyLess: Order<K>, less: Order<V>,
    view: Snapshot<H, I, K, V, M>, pass: Pass<V>, lo: nat)
    returns (rebuilt: Replica<H, I, K, V, M>, hi: nat)
    requires Total(hashLess) && Total(stateLess) && Total(keyLess) && view.Listed()
    ensures lo < hi && Authored(rebuilt, pass, lo, hi) && rebuilt.nowPlaying.Some?
    ensures View(hashLess, rebuilt) == Cut(view, pass, rebuilt.nowPlaying.value.timestamp)
  {
    assert forall x :: x in view.playlist ==> x.hash in view.infos;
    var views := (f: MapField) => view.MapAt(f);
    var playlist, a := P.RebuildPlaylist(hashLess, stateLess, view.playlist, view.infos, pass.actor, pass.stamps, lo);
    var watched, b := RebuildFields(keyLess, less, views, pass, a, FIELDS[..1]);
    var nowPlaying, authority, playing, c := RebuildRegisters(view, pass, b);
    var others, d := RebuildFields(keyLess, less, views, pass, c, FIELDS[1..]);
    rebuilt := Replica(playlist.cells, watched + others, Some(nowPlaying), authority, Some(playing), None, {}, {},
                       LastOnes(view.chat, pass.chatKeep));
    hi := d;
    BothHalves(watched, others, views, pass, a, b, c, hi);
    AllAuthored(rebuilt, views, pass, lo, a, b, c, hi);
    InfosKept(hashLess, view.playlist, view.infos, P.Resolved(playlist.cells), pass.actor);
    AllCut(hashLess, rebuilt, view, views, pass, a, hi);
  }

  method RebuildRegisters<H, I, K, V, M>(view: Snapshot<H, I, K, V, M>, pass: Pass<V>, lo: nat)
    returns (nowPlaying: Lww<Option<H>>, authority: Cell<V>, playing: Lww<bool>, hi: nat)
    ensures lo < hi && nowPlaying.value == view.nowPlaying && playing.value == view.playing
    ensures authority.Some? == view.authority.Some?
    ensures authority.Some? ==> authority.value.value == view.authority.value
    ensures CellStamped(Some(nowPlaying), pass, lo, hi) && CellStamped(Some(playing), pass, lo, hi)
    ensures CellStamped(authority, pass, lo, hi)
  {
    nowPlaying := Lww(pass.stamps(lo), view.nowPlaying);
    hi := lo + 1;
    authority := None;
    if view.authority.Some? {
      authority := Some(Lww(pass.stamps(hi), view.authority.value));
      hi := hi + 1;
    }
    playing := Lww(pass.stamps(hi), view.playing);
    hi := hi + 1;
  }

  lemma AllAuthored<H, I, K, V, M>(
    rebuilt: Replica<H, I, K, V, M>, views: MapField -> map<K, V>, pass: Pass<V>, lo: nat, a: nat, b: nat, c: nat,
    hi: nat)
    requires lo <= a <= b <= c <= hi && WrittenBy(rebuilt.playlist, pass.actor, pass.stamps, lo, a)
    requires FieldsDone(rebuilt.maps, FIELDS, views, pass, a, hi) && rebuilt.marquee.None?
    requires CellStamped(rebuilt.nowPlaying, pass, b, c) && CellStamped(rebuilt.playing, pass, b, c)
    requires CellStamped(rebuilt.authority, pass, b, c)
    ensures Authored(rebuilt, pass, lo, hi)
  {
    WrittenWiden(rebuilt.playlist, pass.actor, pass.stamps, lo, a, lo, hi);
    forall f | f in FIELDS ensures WrittenBy(rebuilt.MapAt(f), pass.actor, pass.stamps, lo, hi) {
      assert FieldDone(rebuilt.maps, f, views, pass, a, hi);
      WrittenWiden(rebuilt.maps[f], pass.actor, pass.stamps, a, hi, lo, hi);
    }
    forall ts: nat | Drawn(ts, pass.stamps, b, c) ensures Drawn(ts, pass.stamps, lo, hi) {
      DrawnWiden(ts, pass.stamps, b, c, lo, hi);
    }
  }

  lemma AllCut<H(!new), I, K, V, M>(
    hashLess: Order<H>, rebuilt: Replica<H, I, K, V, M>, view: Snapshot<H, I, K, V, M>, views: MapField -> map<K, V>,
    pass: Pass<V>, a: nat, hi: nat)
    requires Total(hashLess) && FieldsDone(rebuilt.maps, FIELDS, views, pass, a, hi)
    requires forall f :: views(f) == view.MapAt(f)
    requires P.Shown(hashLess, P.Resolved(rebuilt.playlist)) == P.Flattened(view.playlist, pass.actor)
    requires Infos(P.Resolved(rebuilt.playlist)) == view.infos
    requires rebuilt.nowPlaying.Some? && rebuilt.nowPlaying.value.value == view.nowPlaying
    requires rebuilt.playing.Some? && rebuilt.playing.value.value == view.playing
    requires rebuilt.authority.Some? == view.authority.Some?
    requires rebuilt.authority.Some? ==> rebuilt.authority.value.value == view.authority.value
    requires rebuilt.marquee.None? && rebuilt.lookups == {} && rebuilt.acknowledged == {}
    requires rebuilt.chat == LastOnes(view.chat, pass.chatKeep)
    ensures View(hashLess, rebuilt) == Cut(view, pass, rebuilt.nowPlaying.value.timestamp)
  {
    forall f | f in FIELDS ensures LwwMap.View(rebuilt.MapAt(f)) == Reduced(pass, f, view.MapAt(f)) {
      assert FieldDone(rebuilt.maps, f, views, pass, a, hi);
    }
    assert View(hashLess, rebuilt).maps == Cut(view, pass, 0).maps;
  }

  lemma InfosKept<H(!new), I>(
    hashLess: Order<H>, playlist: seq<P.Slot<H>>, infos: map<H, I>, p: map<H, P.FileState<I>>, actor: Actor)
    requires Total(hashLess) && P.Shown(hashLess, p) == P.Flattened(playlist, actor)
    requires infos.Keys == set x | x in playlist :: x.hash
    requires forall x :: x in playlist ==> x.hash in p && x.hash in infos && p[x.hash].info == infos[x.hash]
    ensures Infos(p) == infos
  {
    forall h | h in p ensures h in infos {
      var j := P.ShownAt(hashLess, p, h);
      assert playlist[j] in playlist && playlist[j].hash == h;
    }
  }

  // ---- What compaction promises.

  /** If the first stamp is past every one in the old state, so are all that the
      rebuilt state carries. */
  lemma RebuiltIsNewer<H, I, K, V, M>(
    was: Replica<H, I, K, V, M>, rebuilt: Replica<H, I, K, V, M>, pass: Pass<V>, lo: nat, hi: nat)
    requires Authored(rebuilt, pass, lo, hi) && Increasing(pass.stamps)
    requires forall ts: nat :: StampIn(was, ts) ==> ts < pass.stamps(lo)
    ensures forall a: nat, b: nat :: StampIn(was, a) && StampIn(rebuilt, b) ==> a < b
  {
    forall a: nat, b: nat | StampIn(was, a) && StampIn(rebuilt, b) ensures a < b {
      StampIsDrawn(rebuilt, pass, lo, hi, b);
      var i: nat :| lo <= i < hi && pass.stamps(i) == b;
      assert i == lo || pass.stamps(lo) < pass.stamps(i);
    }
  }

  lemma StampIsDrawn<H, I, K, V, M>(s: Replica<H, I, K, V, M>, pass: Pass<V>, lo: nat, hi: nat, ts: nat)
    requires Authored(s, pass, lo, hi) && StampIn(s, ts)
    ensures Drawn(ts, pass.stamps, lo, hi)
  {
    if f :| f in FIELDS && StampInMap(s.MapAt(f), ts) {
      assert WrittenBy(s.MapAt(f), pass.actor, pass.stamps, lo, hi);
    }
  }

  /** The collections that are rebuilt are all but the playlist. */
  lemma FieldsAreAll(f: MapField)
    ensures f in FIELDS <==> f != MapField.Playlist
  {
    assert FIELDS[0] == Watched && FIELDS[1] == SeriesPreference && FIELDS[2] == ManualOverride;
    assert FIELDS[3] == FileAvailability && FIELDS[4] == AniDbMetadata && FIELDS[5] == SeriesRelations;
    assert FIELDS[6] == FileCatalog && FIELDS[7] == ListEntries && FIELDS[8] == ListNextEp;
    assert FIELDS[9] == PlaybackPosition && FIELDS[10] == SavedPosition;
  }

  /** The view has exactly the winning value of every written cell of a collection. */
  lemma ViewReadsMaps<H(!new), I, K, V, M>(hashLess: Order<H>, s: Replica<H, I, K, V, M>, f: MapField, k: K)
    requires Total(hashLess) && f != MapField.Playlist
    ensures var view := View(hashLess, s);
            && f in view.maps
            && (k in view.maps[f] <==> f in s.maps && k in s.maps[f].entries && s.maps[f].entries[k].cell.Some?)
            && (k in view.maps[f] ==> view.maps[f][k] == s.maps[f].entries[k].cell.value.value)
  {
    FieldsAreAll(f);
  }

  /** It lists exactly the playlist entries that were not removed, with their contents. */
  lemma ViewReadsPlaylist<H(!new), I, K, V, M>(hashLess: Order<H>, s: Replica<H, I, K, V, M>, h: H)
    requires Total(hashLess)
    ensures var view, cells := View(hashLess, s), s.playlist.entries;
            && (h in view.infos <==> exists x :: x in view.playlist && x.hash == h)
            && (h in view.infos <==> h in cells && cells[h].cell.Some? && cells[h].cell.value.value.Some?)
            && (h in view.infos ==> view.infos[h] == cells[h].cell.value.value.value.info)
  {
    ViewIsListed(hashLess, s);
  }

  /** And what each register holds, with a paused, idle and silent room for registers
      never written. */
  lemma ViewReadsRegisters<H(!new), I, K, V, M>(hashLess: Order<H>, s: Replica<H, I, K, V, M>)
    requires Total(hashLess)
    ensures var view := View(hashLess, s);
            && (match s.nowPlaying
                case Some(w) => view.nowPlaying == w.value && view.since == Some(w.timestamp)
                case None => view.nowPlaying == None && view.since == None)
            && (match s.authority case Some(w) => view.authority == Some(w.value) case None => view.authority == None)
            && (match s.playing case Some(w) => view.playing == w.value case None => !view.playing)
            && (match s.marquee
                case Some(Lww(ts, Some(v))) => view.marquee == Some(Lww(ts, v))
                case _ => view.marquee == None)
            && view.lookups == s.lookups && view.acknowledged == s.acknowledged && view.chat == s.chat
  {
  }

  /** What the reductions leave of a view, place by place. */
  lemma CutKeeps<H, I, K, V, M>(view: Snapshot<H, I, K, V, M>, pass: Pass<V>, since: nat, f: MapField, k: K)
    requires f != MapField.Playlist
    ensures var cut := Cut(view, pass, since);
            && f in cut.maps
            && (k in cut.maps[f] <==> f in view.maps && k in view.maps[f] && pass.keep(f, view.maps[f][k]))
            && (k in cut.maps[f] ==> cut.maps[f][k] == view.maps[f][k])
            && cut.infos == view.infos && cut.nowPlaying == view.nowPlaying && cut.since == Some(since)
            && cut.authority == view.authority && cut.playing == view.playing
            && cut.marquee == None && cut.lookups == {} && cut.acknowledged == {}
            && |cut.chat| == Min(pass.chatKeep, |view.chat|) && cut.chat == view.chat[|view.chat| - |cut.chat|..]
    ensures var cut := Cut(view, pass, since);
            && |cut.playlist| == |view.playlist|
            && forall i :: 0 <= i < |cut.playlist| ==>
                             && cut.playlist[i].hash == view.playlist[i].hash
                             && cut.playlist[i].position == P.Flat(i, pass.actor)
  {
    FieldsAreAll(f);
  }

  /** What is left after one pass, a second leaves alone but for the stamps. */
  lemma CutTwice<H, I, K, V, M>(
    view: Snapshot<H, I, K, V, M>, pass: Pass<V>, stamps: Stamps, since: nat, since': nat)
    ensures var once := Cut(view, pass, since);
            Cut(once, pass.(stamps := stamps), since') == once.(since := Some(since'))
  {
    var once := Cut(view, pass, since);
    var twice := Cut(once, pass.(stamps := stamps), since');
    assert twice.playlist == once.playlist;
    forall f | f in FIELDS ensures Reduced(pass.(stamps := stamps), f, once.MapAt(f)) == once.MapAt(f) {
    }
    assert twice.maps == once.maps;
  }

  /** So a state rebuilt from a rebuilt one shows what that one shows, but for the
      stamp of what is playing. */
  lemma RebuildTwice<H(!new), I, K, V, M>(
    hashLess: Order<H>, view: Snapshot<H, I, K, V, M>, first: Replica<H, I, K, V, M>, again: Replica<H, I, K, V, M>,
    pass: Pass<V>, stamps: Stamps, since: nat, since': nat)
    requires Total(hashLess) && View(hashLess, first) == Cut(view, pass, since)
    requires View(hashLess, again) == Cut(View(hashLess, first), pass.(stamps := stamps), since')
    ensures View(hashLess, again) == View(hashLess, first).(since := Some(since'))
  {
    CutTwice(view, pass, stamps, since, since');
  }

  /** The server's pass over its own state: the view keeps all but the documented
      reductions, every register is newer than all before, and one actor is left. */
  method CompactState<H(!new, ==), I(!new, ==), K(!new, ==), V, M>(
    hashLess: Order<H>, stateLess: Order<Option<P.FileState<I>>>, keyLess: Order<K>, less: Order<V>,
    state: Replica<H, I, K, V, M>, pass: Pass<V>, lo: nat)
    returns (rebuilt: Replica<H, I, K, V, M>, hi: nat)
    requires Total(hashLess) && Total(stateLess) && Total(keyLess)
    requires Increasing(pass.stamps) && forall ts: nat :: StampIn(state, ts) ==> ts < pass.stamps(lo)
    ensures lo < hi && Authored(rebuilt, pass, lo, hi) && rebuilt.nowPlaying.Some?
    ensures View(hashLess, rebuilt) == Cut(View(hashLess, state), pass, rebuilt.nowPlaying.value.timestamp)
    ensures forall a: nat, b: nat :: StampIn(state, a) && StampIn(rebuilt, b) ==> a < b
  {
    ViewIsListed(hashLess, state);
    rebuilt, hi := Rebuild(hashLess, stateLess, keyLess, less, View(hashLess, state), pass, lo);
    RebuiltIsNewer(state, rebuilt, pass, lo, hi);
  }
}
