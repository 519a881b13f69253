/** The playlist: entries keyed by file, shown in the order of their dense
    positions, ties broken by file hash. */
module Playlist {
  import opened Identifier
  import opened Lww
  import opened LwwMap
  import opened Sorted
  import opened Wrappers

  /** `info` is everything of an entry that ordering never looks at. */
  datatype FileState<+I> = FileState(position: Id, info: I)
  datatype Slot<+H> = Slot(position: Id, hash: H)

  /** The cells: a tombstone is a winning `None`. */
  type Cells<!H, I> = Map<H, Option<FileState<I>>>

  function Resolved<H(==), I>(m: Cells<H, I>): map<H, FileState<I>> {
    map h | h in m.entries && m.entries[h].cell.Some? && m.entries[h].cell.value.value.Some?
      :: m.entries[h].cell.value.value.value
  }

  predicate SlotLess<H(==)>(hashLess: Order<H>, a: Slot<H>, b: Slot<H>) {
    Less(a.position, b.position) || (a.position == b.position && hashLess(a.hash, b.hash))
  }

  function SlotOrder<H(==)>(hashLess: Order<H>): Order<Slot<H>> {
    (a, b) => SlotLess(hashLess, a, b)
  }

  lemma SlotOrderIsTotal<H(!new)>(hashLess: Order<H>)
    requires Total(hashLess)
    ensures Total(SlotOrder(hashLess))
  {
    OrderIsTotal();
  }

  function Slots<H(==), I>(p: map<H, FileState<I>>): set<Slot<H>> {
    set h | h in p :: Slot(p[h].position, h)
  }

  /** The display order. */
  function Shown<H(!new, ==), I>(hashLess: Order<H>, p: map<H, FileState<I>>): seq<Slot<H>>
    requires Total(hashLess)
  {
    SlotOrderIsTotal(hashLess);
    InOrder(SlotOrder(hashLess), Slots(p))
  }

  lemma ShownIs<H(!new), I>(hashLess: Order<H>, p: map<H, FileState<I>>)
    requires Total(hashLess)
    ensures forall x :: x in Shown(hashLess, p) <==> x.hash in p && p[x.hash].position == x.position
    ensures Ascending(SlotOrder(hashLess), Shown(hashLess, p))
  {
    SlotOrderIsTotal(hashLess);
  }

  function Without<H(!new, ==)>(shown: seq<Slot<H>>, h: H): (r: seq<Slot<H>>)
    ensures forall x :: x in r <==> x in shown && x.hash != h
  {
    if shown == [] then []
    else if shown[0].hash == h then Without(shown[1..], h)
    else [shown[0]] + Without(shown[1..], h)
  }

  /** How many entries come before the place after `anchor`: none at the front,
      all of them if the anchor is gone. */
  function Place<H(!new, ==)>(rest: seq<Slot<H>>, anchor: Option<H>): (i: nat)
    ensures i <= |rest|
  {
    if anchor.None? || rest == [] then 0
    else if rest[0].hash == anchor.value then 1
    else 1 + Place(rest[1..], anchor)
  }

  lemma {:induction false} PlaceIs<H(!new)>(rest: seq<Slot<H>>, anchor: Option<H>)
    ensures var i := Place(rest, anchor);
            match anchor
            case None => i == 0
            case Some(h) =>
              if exists x :: x in rest && x.hash == h then i > 0 && rest[i - 1].hash == h else i == |rest|
  {
    if rest != [] && anchor.Some? && rest[0].hash != anchor.value {
      PlaceIs(rest[1..], anchor);
      assert rest == [rest[0]] + rest[1..];
    } else if rest != [] {
      assert rest[0] in rest;
    }
  }

  function PositionIn<H(!new, ==)>(rest: seq<Slot<H>>, anchor: Option<H>, actor: Actor): Id {
    var i := Place(rest, anchor);
    BetweenOf(if i > 0 then Some(rest[i - 1].position) else None,
              if i < |rest| then Some(rest[i].position) else None,
              actor)
  }

  function PositionAfter<H(!new, ==), I>(
    hashLess: Order<H>, p: map<H, FileState<I>>, anchor: Option<H>, moving: H, actor: Actor): Id
    requires Total(hashLess)
  {
    PositionIn(Without(Shown(hashLess, p), moving), anchor, actor)
  }

  /** Positions are built from at least one node. */
  predicate Placed<H(==), I>(p: map<H, FileState<I>>) {
    forall h :: h in p ==> p[h].position != []
  }

  // ---- Filtering the display order.

  lemma {:induction false} WithoutAscends<H(!new)>(less: Order<Slot<H>>, shown: seq<Slot<H>>, h: H)
    requires Ascending(less, shown)
    ensures Ascending(less, Without(shown, h))
  {
    if shown != [] {
      WithoutAscends(less, shown[1..], h);
      var rest := Without(shown[1..], h);
      forall i | 0 <= i < |rest| ensures less(shown[0], rest[i]) {
        assert rest[i] in shown[1..];
      }
    }
  }

  lemma {:induction false} WithoutAbsent<H(!new)>(shown: seq<Slot<H>>, h: H)
    requires forall x :: x in shown ==> x.hash != h
    ensures Without(shown, h) == shown
  {
    if shown != [] {
      assert shown[0] in shown;
      WithoutAbsent(shown[1..], h);
    }
  }

  lemma WithoutIsShown<H(!new), I>(hashLess: Order<H>, p: map<H, FileState<I>>, h: H)
    requires Total(hashLess)
    ensures Without(Shown(hashLess, p), h) == Shown(hashLess, p - {h})
  {
    SlotOrderIsTotal(hashLess);
    ShownIs(hashLess, p);
    ShownIs(hashLess, p - {h});
    WithoutAscends(SlotOrder(hashLess), Shown(hashLess, p), h);
    AscendingUnique(SlotOrder(hashLess), Without(Shown(hashLess, p), h), Shown(hashLess, p - {h}));
  }

  // ---- Where a placed entry ends up.

  /** Between two entries that share one position only the hash decides. */
  predicate Fits<H(==)>(hashLess: Order<H>, rest: seq<Slot<H>>, i: nat, h: H)
    requires i <= |rest|
  {
    0 < i < |rest| && rest[i - 1].position == rest[i].position ==>
      hashLess(rest[i - 1].hash, h) && hashLess(h, rest[i].hash)
  }

  /** The new slot is past its lower neighbour and before its upper one exactly
      if it fits. */
  lemma SlotBetween<H(!new)>(hashLess: Order<H>, rest: seq<Slot<H>>, anchor: Option<H>, h: H, actor: Actor)
    requires Total(hashLess) && Ascending(SlotOrder(hashLess), rest)
    requires forall x :: x in rest ==> x.position != []
    ensures var i, x := Place(rest, anchor), Slot(PositionIn(rest, anchor, actor), h);
            && x.position != []
            && (Fits(hashLess, rest, i, h) <==>
                  && (i > 0 ==> SlotLess(hashLess, rest[i - 1], x))
                  && (i < |rest| ==> SlotLess(hashLess, x, rest[i])))
  {
    var i := Place(rest, anchor);
    var low := if i > 0 then Some(rest[i - 1].position) else None;
    var high := if i < |rest| then Some(rest[i].position) else None;
    BetweenIsBetween(low, high, actor);
    if 0 < i < |rest| {
      assert SlotOrder(hashLess)(rest[i - 1], rest[i]);
      assert rest[i - 1] in rest && rest[i] in rest;
      GapIsStrict(low.value, high.value, actor);
    } else if i > 0 {
      assert rest[i - 1] in rest;
    }
  }

  lemma GapIsStrict(low: Id, high: Id, actor: Actor)
    requires low != [] && high != [] && (Less(low, high) || low == high)
    ensures var r := BetweenOf(Some(low), Some(high), actor);
            && r != []
            && if low == high then r == high && !Less(low, r) && !Less(r, high) else Less(low, r) && Less(r, high)
  {
    BetweenIsBetween(Some(low), Some(high), actor);
    OrderIsTotal();
  }

  /** Placing `h` after `anchor` shows every other entry in its old order with
      `h` at that place, exactly if `h` fits there. */
  lemma PlacedEntryShows<H(!new), I>(
    hashLess: Order<H>, p: map<H, FileState<I>>, anchor: Option<H>, h: H, info: I, actor: Actor)
    requires Total(hashLess) && Placed(p)
    ensures var rest := Shown(hashLess, p - {h});
            var i := Place(rest, anchor);
            var position := PositionAfter(hashLess, p, anchor, h, actor);
            && position != []
            && (Shown(hashLess, p[h := FileState(position, info)]) == rest[..i] + [Slot(position, h)] + rest[i..]
                <==> Fits(hashLess, rest, i, h))
  {
    WithoutIsShown(hashLess, p, h);
    ShownPlaced(hashLess, p - {h});
    PlacedIn(hashLess, p, Shown(hashLess, p - {h}), anchor, h, info, actor);
  }

  lemma PlacedIn<H(!new), I>(
    hashLess: Order<H>, p: map<H, FileState<I>>, rest: seq<Slot<H>>, anchor: Option<H>, h: H, info: I, actor: Actor)
    requires Total(hashLess) && rest == Shown(hashLess, p - {h})
    requires Ascending(SlotOrder(hashLess), rest) && forall x :: x in rest ==> x.position != []
    ensures var i, position := Place(rest, anchor), PositionIn(rest, anchor, actor);
            && position != []
            && (Shown(hashLess, p[h := FileState(position, info)]) == rest[..i] + [Slot(position, h)] + rest[i..]
                <==> Fits(hashLess, rest, i, h))
  {
    SlotBetween(hashLess, rest, anchor, h, actor);
    ShownAfterPut(hashLess, p, rest, Slot(PositionIn(rest, anchor, actor), h), Place(rest, anchor), info);
  }

  lemma ShownPlaced<H(!new), I>(hashLess: Order<H>, p: map<H, FileState<I>>)
    requires Total(hashLess) && Placed(p)
    ensures Ascending(SlotOrder(hashLess), Shown(hashLess, p))
    ensures forall x :: x in Shown(hashLess, p) ==> x.position != []
  {
    ShownIs(hashLess, p);
  }

  lemma ShownAfterPut<H(!new), I>(
    hashLess: Order<H>, p: map<H, FileState<I>>, rest: seq<Slot<H>>, x: Slot<H>, i: nat, info: I)
    requires Total(hashLess) && rest == Shown(hashLess, p - {x.hash}) && i <= |rest|
    ensures Shown(hashLess, p[x.hash := FileState(x.position, info)]) == rest[..i] + [x] + rest[i..] <==>
              (i > 0 ==> SlotLess(hashLess, rest[i - 1], x)) && (i < |rest| ==> SlotLess(hashLess, x, rest[i]))
  {
    SlotOrderIsTotal(hashLess);
    var shown := Shown(hashLess, p[x.hash := FileState(x.position, info)]);
    ShownIs(hashLess, p - {x.hash});
    ShownIs(hashLess, p[x.hash := FileState(x.position, info)]);
    forall y ensures y in shown <==> y in rest || y == x {
      assert y.hash != x.hash ==> (y in shown <==> y in rest);
    }
    SpliceSlots(hashLess, rest, x, i, shown);
  }

  lemma SpliceSlots<H(!new)>(hashLess: Order<H>, rest: seq<Slot<H>>, x: Slot<H>, i: nat, shown: seq<Slot<H>>)
    requires Total(SlotOrder(hashLess)) && i <= |rest|
    requires Ascending(SlotOrder(hashLess), rest) && Ascending(SlotOrder(hashLess), shown)
    requires forall y :: y in shown <==> y in rest || y == x
    ensures shown == rest[..i] + [x] + rest[i..] <==>
              (i > 0 ==> SlotLess(hashLess, rest[i - 1], x)) && (i < |rest| ==> SlotLess(hashLess, x, rest[i]))
  {
    SpliceIff(SlotOrder(hashLess), rest, x, i, shown);
  }

  /** Two entries that share a position leave no room between them: an entry with
      a later hash placed after the first is shown after both. */
  lemma TiedNeighboursMisplace<H(!new), I>(hashLess: Order<H>, q: Id, a: H, b: H, c: H, info: I, actor: Actor)
    requires Total(hashLess) && q != [] && hashLess(a, b) && hashLess(b, c)
    ensures var p := map[a := FileState(q, info), b := FileState(q, info)];
            var position := PositionAfter(hashLess, p, Some(a), c, actor);
            Shown(hashLess, p[c := FileState(position, info)]) == [Slot(q, a), Slot(q, b), Slot(q, c)]
  {
    var p := map[a := FileState(q, info), b := FileState(q, info)];
    Irreflexive(q);
    ShownAs(hashLess, p, [Slot(q, a), Slot(q, b)]);
    var rest := [Slot(q, a), Slot(q, b)];
    WithoutAbsent(rest, c);
    assert PositionAfter(hashLess, p, Some(a), c, actor) == q;
    ShownAs(hashLess, p[c := FileState(q, info)], [Slot(q, a), Slot(q, b), Slot(q, c)]);
  }

  lemma ShownAs<H(!new), I>(hashLess: Order<H>, p: map<H, FileState<I>>, r: seq<Slot<H>>)
    requires Total(hashLess) && Ascending(SlotOrder(hashLess), r)
    requires forall x :: x in r <==> x.hash in p && p[x.hash].position == x.position
    ensures Shown(hashLess, p) == r
  {
    SlotOrderIsTotal(hashLess);
    ShownIs(hashLess, p);
    AscendingUnique(SlotOrder(hashLess), Shown(hashLess, p), r);
  }

  /** Among entries with different positions, a new position is different again. */
  lemma PositionIsNew<H(!new)>(hashLess: Order<H>, rest: seq<Slot<H>>, anchor: Option<H>, actor: Actor, j: nat)
    requires Total(hashLess) && Ascending(SlotOrder(hashLess), rest) && j < |rest|
    requires forall x :: x in rest ==> x.position != []
    requires forall k, l :: 0 <= k < l < |rest| ==> rest[k].position != rest[l].position
    ensures rest[j].position != PositionIn(rest, anchor, actor)
  {
    NeighboursAreStrict(hashLess, rest, anchor, actor);
    StrictIsNew(hashLess, rest, Place(rest, anchor), PositionIn(rest, anchor, actor), j);
  }

  lemma StrictIsNew<H(!new)>(hashLess: Order<H>, rest: seq<Slot<H>>, i: nat, r: Id, j: nat)
    requires Ascending(SlotOrder(hashLess), rest) && j < |rest| && i <= |rest|
    requires j + 1 < i ==> rest[j].position != rest[i - 1].position
    requires i < j ==> rest[i].position != rest[j].position
    requires (i > 0 ==> Less(rest[i - 1].position, r)) && (i < |rest| ==> Less(r, rest[i].position))
    ensures rest[j].position != r
  {
    if j + 1 < i {
      PositionsAscend(hashLess, rest, j, i - 1);
      Apart(rest[j].position, rest[i - 1].position, r);
    } else if j + 1 == i {
      Apart(rest[j].position, rest[j].position, r);
    } else if j == i {
      Apart(r, r, rest[j].position);
    } else {
      PositionsAscend(hashLess, rest, i, j);
      Apart(r, rest[i].position, rest[j].position);
    }
  }

  lemma Apart(a: Id, b: Id, c: Id)
    requires (a == b || Less(a, b)) && Less(b, c)
    ensures a != c
  {
    if a != b {
      Transitive(a, b, c);
    }
    Irreflexive(a);
  }

  lemma PositionsAscend<H(!new)>(hashLess: Order<H>, rest: seq<Slot<H>>, j: nat, k: nat)
    requires Ascending(SlotOrder(hashLess), rest) && j < k < |rest| && rest[j].position != rest[k].position
    ensures Less(rest[j].position, rest[k].position)
  {
    assert SlotOrder(hashLess)(rest[j], rest[k]);
  }

  lemma NeighboursAreStrict<H(!new)>(hashLess: Order<H>, rest: seq<Slot<H>>, anchor: Option<H>, actor: Actor)
    requires Total(hashLess) && Ascending(SlotOrder(hashLess), rest)
    requires forall x :: x in rest ==> x.position != []
    requires forall k, l :: 0 <= k < l < |rest| ==> rest[k].position != rest[l].position
    ensures var i, r := Place(rest, anchor), PositionIn(rest, anchor, actor);
            (i > 0 ==> Less(rest[i - 1].position, r)) && (i < |rest| ==> Less(r, rest[i].position))
  {
    var i := Place(rest, anchor);
    var low := if i > 0 then Some(rest[i - 1].position) else None;
    var high := if i < |rest| then Some(rest[i].position) else None;
    BetweenIsBetween(low, high, actor);
    if 0 < i < |rest| {
      assert SlotOrder(hashLess)(rest[i - 1], rest[i]);
      assert rest[i - 1] in rest && rest[i] in rest;
      GapIsStrict(low.value, high.value, actor);
    } else if i > 0 {
      assert rest[i - 1] in rest;
    }
  }

  // ---- Writing an entry's cell.

  /** The op a replica makes for its next write. */
  function PutOp<H(==), I>(
    m: Cells<H, I>, actor: Actor, ts: nat, h: H, value: Option<FileState<I>>): Op<H, Option<FileState<I>>> {
    Op(actor, At(m.clock, actor) + 1, h, Lww(ts, value))
  }

  /** The new write is not older than what the cell holds. */
  predicate Takes<H(==), I(==)>(
    less: Order<Option<FileState<I>>>, m: Cells<H, I>, h: H, lww: Lww<Option<FileState<I>>>) {
    h in m.entries && m.entries[h].cell.Some? ==> !Before(less, lww, m.entries[h].cell.value)
  }

  lemma WriteResolves<H(!new), I(!new)>(
    less: Order<Option<FileState<I>>>, m: Cells<H, I>, actor: Actor, ts: nat, h: H, state: FileState<I>)
    requires Total(less)
    ensures Resolved(Apply(less, m, PutOp(m, actor, ts, h, Some(state))))
         == if Takes(less, m, h, Lww(ts, Some(state))) then Resolved(m)[h := state] else Resolved(m)
  {
    var m' := Apply(less, m, PutOp(m, actor, ts, h, Some(state)));
    forall g ensures g != h ==>
        (g in m'.entries <==> g in m.entries) && (g in m.entries ==> m'.entries[g] == m.entries[g]) {
    }
  }

  /** The op that places `h` after `anchor`. */
  function AddOp<H(!new, ==), I>(
    hashLess: Order<H>, m: Cells<H, I>, actor: Actor, ts: nat, anchor: Option<H>, h: H, info: I)
    : Op<H, Option<FileState<I>>>
    requires Total(hashLess)
  {
    PutOp(m, actor, ts, h, Some(FileState(PositionAfter(hashLess, Resolved(m), anchor, h, actor), info)))
  }

  /** No two entries share a position. */
  ghost predicate Spread<H(!new), I>(p: map<H, FileState<I>>) {
    forall g, h :: g in p && h in p && g != h ==> p[g].position != p[h].position
  }

  /** `p'` shows the other entries of `p` in their order, with `h` right after `anchor`. */
  ghost predicate Lands<H(!new), I>(
    hashLess: Order<H>, p: map<H, FileState<I>>, p': map<H, FileState<I>>, anchor: Option<H>, h: H)
    requires Total(hashLess)
  {
    var rest := Shown(hashLess, p - {h});
    var i := Place(rest, anchor);
    h in p' && Shown(hashLess, p') == rest[..i] + [Slot(p'[h].position, h)] + rest[i..]
  }

  ghost predicate HasRoom<H(!new), I>(hashLess: Order<H>, p: map<H, FileState<I>>, anchor: Option<H>, h: H)
    requires Total(hashLess)
  {
    var rest := Shown(hashLess, p - {h});
    Fits(hashLess, rest, Place(rest, anchor), h)
  }

  /** What placing `h` after `anchor` does to the entries: it lands there exactly if
      there is room between its neighbours, as there always is at the front and when
      no two entries share a position, and then again none do. */
  ghost predicate Puts<H(!new), I>(
    hashLess: Order<H>, p: map<H, FileState<I>>, p': map<H, FileState<I>>, anchor: Option<H>, h: H, info: I)
    requires Total(hashLess)
  {
    && p' - {h} == p - {h} && h in p' && p'[h].info == info && Placed(p')
    && (anchor.None? ==> Shown(hashLess, p') == [Slot(p'[h].position, h)] + Shown(hashLess, p - {h}))
    && (Lands(hashLess, p, p', anchor, h) <==> HasRoom(hashLess, p, anchor, h))
    && (Spread(p) ==> HasRoom(hashLess, p, anchor, h) && Spread(p'))
  }

  lemma PutsAfter<H(!new), I>(
    hashLess: Order<H>, p: map<H, FileState<I>>, anchor: Option<H>, h: H, info: I, actor: Actor)
    requires Total(hashLess) && Placed(p)
    ensures Puts(hashLess, p, p[h := FileState(PositionAfter(hashLess, p, anchor, h, actor), info)], anchor, h, info)
  {
    var position := PositionAfter(hashLess, p, anchor, h, actor);
    LandsIff(hashLess, p, anchor, h, info, actor);
    if anchor.None? {
      FrontShows(hashLess, p, h, info, actor);
    }
    StaysPlaced(p, h, FileState(position, info));
    if Spread(p) {
      SpreadHasRoom(hashLess, p, anchor, h);
      StaysSpread(hashLess, p, anchor, h, actor, FileState(position, info));
    }
  }

  /** Without an anchor the entry is shown first, whatever the positions. */
  lemma FrontShows<H(!new), I>(hashLess: Order<H>, p: map<H, FileState<I>>, h: H, info: I, actor: Actor)
    requires Total(hashLess) && Placed(p)
    ensures var position := PositionAfter(hashLess, p, None, h, actor);
            Shown(hashLess, p[h := FileState(position, info)]) == [Slot(position, h)] + Shown(hashLess, p - {h})
  {
    PlaceIs(Shown(hashLess, p - {h}), None);
    PlacedEntryShows(hashLess, p, None, h, info, actor);
  }

  lemma StaysPlaced<H(!new), I>(p: map<H, FileState<I>>, h: H, state: FileState<I>)
    requires Placed(p) && state.position != []
    ensures Placed(p[h := state]) && p[h := state] - {h} == p - {h}
  {
  }

  lemma LandsIff<H(!new), I>(
    hashLess: Order<H>, p: map<H, FileState<I>>, anchor: Option<H>, h: H, info: I, actor: Actor)
    requires Total(hashLess) && Placed(p)
    ensures var position := PositionAfter(hashLess, p, anchor, h, actor);
            && position != []
            && (Lands(hashLess, p, p[h := FileState(position, info)], anchor, h) <==> HasRoom(hashLess, p, anchor, h))
  {
    PlacedEntryShows(hashLess, p, anchor, h, info, actor);
  }

  lemma StaysSpread<H(!new), I>(
    hashLess: Order<H>, p: map<H, FileState<I>>, anchor: Option<H>, h: H, actor: Actor, state: FileState<I>)
    requires Total(hashLess) && Placed(p) && Spread(p) && state.position == PositionAfter(hashLess, p, anchor, h, actor)
    ensures Spread(p[h := state])
  {
    forall g | g in p && g != h ensures p[g].position != state.position {
      NewPosition(hashLess, p, anchor, h, actor, g);
    }
  }

  lemma SpreadRest<H(!new), I>(hashLess: Order<H>, p: map<H, FileState<I>>, h: H)
    requires Total(hashLess) && Spread(p)
    ensures var rest := Shown(hashLess, p - {h});
            forall k, l :: 0 <= k < l < |rest| ==> rest[k].position != rest[l].position
  {
    var rest := Shown(hashLess, p - {h});
    ShownOnce(hashLess, p - {h});
    ShownIs(hashLess, p - {h});
    forall k, l | 0 <= k < l < |rest| ensures rest[k].position != rest[l].position {
      assert rest[k] in rest && rest[l] in rest;
    }
  }

  lemma SpreadHasRoom<H(!new), I>(hashLess: Order<H>, p: map<H, FileState<I>>, anchor: Option<H>, h: H)
    requires Total(hashLess) && Spread(p)
    ensures HasRoom(hashLess, p, anchor, h)
  {
    SpreadRest(hashLess, p, h);
  }

  lemma NewPosition<H(!new), I>(
    hashLess: Order<H>, p: map<H, FileState<I>>, anchor: Option<H>, h: H, actor: Actor, g: H)
    requires Total(hashLess) && Spread(p) && Placed(p) && g in p && g != h
    ensures p[g].position != PositionAfter(hashLess, p, anchor, h, actor)
  {
    var rest := Shown(hashLess, p - {h});
    SpreadRest(hashLess, p, h);
    WithoutIsShown(hashLess, p, h);
    ShownPlaced(hashLess, p - {h});
    var j := ShownAt(hashLess, p - {h}, g);
    AtItsPosition(hashLess, p - {h}, j);
    PositionIsNew(hashLess, rest, anchor, actor, j);
  }

  lemma AtItsPosition<H(!new), I>(hashLess: Order<H>, p: map<H, FileState<I>>, j: nat)
    requires Total(hashLess) && j < |Shown(hashLess, p)|
    ensures var x := Shown(hashLess, p)[j]; x.hash in p && p[x.hash].position == x.position
  {
    ShownIs(hashLess, p);
    assert Shown(hashLess, p)[j] in Shown(hashLess, p);
  }

  /** On the cells: the write places the entry if it is not older than what the cell
      holds, and otherwise no entry changes. */
  lemma WritePlaces<H(!new), I(!new)>(
    hashLess: Order<H>, less: Order<Option<FileState<I>>>, m: Cells<H, I>, actor: Actor, ts: nat,
    anchor: Option<H>, h: H, info: I)
    requires Total(hashLess) && Total(less) && Placed(Resolved(m))
    ensures var op := AddOp(hashLess, m, actor, ts, anchor, h, info);
            Places(hashLess, less, m, Apply(less, m, op), op, anchor, info)
  {
    var position := PositionAfter(hashLess, Resolved(m), anchor, h, actor);
    WriteResolves(less, m, actor, ts, h, FileState(position, info));
    PutsAfter(hashLess, Resolved(m), anchor, h, info, actor);
  }

  ghost predicate Places<H(!new), I(!new)>(
    hashLess: Order<H>, less: Order<Option<FileState<I>>>, m: Cells<H, I>, m': Cells<H, I>,
    op: Op<H, Option<FileState<I>>>, anchor: Option<H>, info: I)
    requires Total(hashLess)
  {
    if Takes(less, m, op.key, op.lww) then Puts(hashLess, Resolved(m), Resolved(m'), anchor, op.key, info)
    else Resolved(m') == Resolved(m)
  }

  // ---- Rebalancing.

  /** Positions 0, 1, 2, ... */
  function Flat(k: nat, actor: Actor): Id {
    [Node(k as real, actor)]
  }

  /** Rewriting the first entries of the display order with flat positions. */
  function Rebalanced<H(!new, ==), I>(
    less: Order<Option<FileState<I>>>, m: Cells<H, I>, shown: seq<Slot<H>>, actor: Actor, ts: nat): Cells<H, I>
    requires forall x :: x in shown ==> x.hash in Resolved(m)
  {
    if shown == [] then m
    else
      var k := |shown| - 1;
      var before := Rebalanced(less, m, shown[..k], actor, ts);
      var h := shown[k].hash;
      Apply(less, before, PutOp(before, actor, ts, h, Some(FileState(Flat(k, actor), Resolved(m)[h].info))))
  }

  function RebalancedAll<H(!new, ==), I>(
    hashLess: Order<H>, less: Order<Option<FileState<I>>>, m: Cells<H, I>, actor: Actor, ts: nat): Cells<H, I>
    requires Total(hashLess)
  {
    ShownIs(hashLess, Resolved(m));
    Rebalanced(less, m, Shown(hashLess, Resolved(m)), actor, ts)
  }

  class PlaylistCells<H(!new, ==), I(!new, ==)> {
    const hashLess: Order<H>
    const less: Order<Option<FileState<I>>>
    var cells: Cells<H, I>

    constructor (hashLess: Order<H>, less: Order<Option<FileState<I>>>)
      ensures this.hashLess == hashLess && this.less == less && cells == Empty()
    {
      this.hashLess, this.less, cells := hashLess, less, Empty();
    }

    method Set(actor: Actor, ts: nat, h: H, value: Option<FileState<I>>) returns (op: Op<H, Option<FileState<I>>>)
      modifies this
      ensures op == PutOp(old(cells), actor, ts, h, value) && cells == Apply(less, old(cells), op)
      ensures op.actor == actor && op.counter == At(old(cells).clock, actor) + 1 == At(cells.clock, actor)
      ensures op.key == h && op.lww == Lww(ts, value)
    {
      op := PutOp(cells, actor, ts, h, value);
      cells := Apply(less, cells, op);
    }

    method AddAfter(actor: Actor, ts: nat, anchor: Option<H>, h: H, info: I) returns (op: Op<H, Option<FileState<I>>>)
      requires Total(hashLess) && Total(less)
      modifies this
      ensures op == AddOp(hashLess, old(cells), actor, ts, anchor, h, info) && cells == Apply(less, old(cells), op)
      ensures Placed(Resolved(old(cells))) ==> Places(hashLess, less, old(cells), cells, op, anchor, info)
    {
      if Placed(Resolved(cells)) {
        WritePlaces(hashLess, less, cells, actor, ts, anchor, h, info);
      }
      op := Set(actor, ts, h, Some(FileState(PositionAfter(hashLess, Resolved(cells), anchor, h, actor), info)));
    }

    /** The last entry shown is the anchor, so the entry lands at the end. */
    method Push(actor: Actor, ts: nat, h: H, info: I) returns (op: Op<H, Option<FileState<I>>>)
      requires Total(hashLess) && Total(less)
      modifies this
      ensures op == PushOp(hashLess, old(cells), actor, ts, h, info) && cells == Apply(less, old(cells), op)
      ensures Placed(Resolved(old(cells))) && Takes(less, old(cells), h, op.lww) ==>
                Shown(hashLess, Resolved(cells)) ==
                Shown(hashLess, Resolved(old(cells)) - {h}) + [Slot(op.lww.value.value.position, h)]
    {
      ghost var m := cells;
      op := AddAfter(actor, ts, LastHash(Shown(hashLess, Resolved(cells))), h, info);
      if Placed(Resolved(m)) {
        WritePushes(hashLess, less, m, actor, ts, h, info);
      }
    }

    /** Nothing happens if the entry is absent or anchored to itself. */
    method MoveAfter(actor: Actor, ts: nat, h: H, anchor: Option<H>) returns (op: Option<Op<H, Option<FileState<I>>>>)
      requires Total(hashLess) && Total(less)
      modifies this
      ensures op.None? <==> anchor == Some(h) || h !in Resolved(old(cells))
      ensures op.None? ==> cells == old(cells)
      ensures op.Some? ==>
                var info := Resolved(old(cells))[h].info;
                && op.value == AddOp(hashLess, old(cells), actor, ts, anchor, h, info)
                && cells == Apply(less, old(cells), op.value)
                && (Placed(Resolved(old(cells))) ==> Places(hashLess, less, old(cells), cells, op.value, anchor, info))
    {
      var p := Resolved(cells);
      if anchor == Some(h) || h !in p {
        return None;
      }
      if Placed(p) {
        WritePlaces(hashLess, less, cells, actor, ts, anchor, h, p[h].info);
      }
      var made := Set(actor, ts, h, Some(p[h].(position := PositionAfter(hashLess, p, anchor, h, actor))));
      op := Some(made);
    }

    method Rebalance(actor: Actor, ts: nat)
      requires Total(hashLess)
      modifies this
      ensures cells == RebalancedAll(hashLess, less, old(cells), actor, ts)
    {
      ghost var m := cells;
      var p := Resolved(cells);
      var shown := Shown(hashLess, p);
      ShownIs(hashLess, p);
      var prev: Option<Id> := None;
      for k := 0 to |shown|
        invariant cells == Rebalanced(less, m, shown[..k], actor, ts)
        invariant prev == if k == 0 then None else Some(Flat(k - 1, actor))
      {
        var position := Between(prev, None, actor);
        FlatFollows(k, actor);
        RebalancedNext(less, m, shown, k, actor, ts);
        prev := Some(position);
        var h := shown[k].hash;
        var _ := Set(actor, ts, h, Some(FileState(position, p[h].info)));
      }
      assert shown[..|shown|] == shown;
    }
  }

  lemma FlatFollows(k: nat, actor: Actor)
    ensures BetweenOf(if k == 0 then None else Some(Flat(k - 1, actor)), None, actor) == Flat(k, actor)
  {
  }

  lemma RebalancedNext<H(!new), I>(
    less: Order<Option<FileState<I>>>, m: Cells<H, I>, shown: seq<Slot<H>>, k: nat, actor: Actor, ts: nat)
    requires (forall x :: x in shown ==> x.hash in Resolved(m)) && k < |shown|
    ensures var before := Rebalanced(less, m, shown[..k], actor, ts);
            var h := shown[k].hash;
            Rebalanced(less, m, shown[..k + 1], actor, ts) ==
            Apply(less, before, PutOp(before, actor, ts, h, Some(FileState(Flat(k, actor), Resolved(m)[h].info))))
  {
    assert shown[..k + 1][..k] == shown[..k];
  }

  // ---- Pushing.

  function LastHash<H(==)>(shown: seq<Slot<H>>): Option<H> {
    if shown == [] then None else Some(shown[|shown| - 1].hash)
  }

  lemma PlaceOfTop<H(!new)>(less: Order<Slot<H>>, rest: seq<Slot<H>>, last: Slot<H>)
    requires Ascending(less, rest) && last in rest
    requires forall x :: x in rest ==> !less(last, x) && (x.hash == last.hash ==> x == last)
    ensures Place(rest, Some(last.hash)) == |rest|
  {
    var i := Place(rest, Some(last.hash));
    PlaceIs(rest, Some(last.hash));
    assert rest[i - 1] in rest && rest[i - 1] == last;
    TopIsLast(less, rest, i - 1);
  }

  /** Anchoring to the last entry shown is placing at the end, also when that
      entry is the one being placed. */
  lemma LastPlace<H(!new)>(less: Order<Slot<H>>, shown: seq<Slot<H>>, rest: seq<Slot<H>>, h: H)
    requires Total(less) && Ascending(less, shown) && Ascending(less, rest)
    requires forall x :: x in rest <==> x in shown && x.hash != h
    requires forall x :: x in rest && LastHash(shown) == Some(x.hash) ==> x == shown[|shown| - 1]
    ensures Place(rest, LastHash(shown)) == |rest|
  {
    assert rest == [] || rest[0] in rest;
    if shown != [] {
      var last := shown[|shown| - 1];
      assert last in shown;
      if last.hash != h {
        forall x | x in rest ensures !less(last, x) && (x.hash == last.hash ==> x == last) {
          LastIsTop(less, shown, x);
        }
        PlaceOfTop(less, rest, last);
      } else {
        PlaceIs(rest, Some(last.hash));
      }
    }
  }

  lemma EndPlace<H(!new), I>(hashLess: Order<H>, p: map<H, FileState<I>>, h: H)
    requires Total(hashLess)
    ensures var rest := Shown(hashLess, p - {h});
            var i := Place(rest, LastHash(Shown(hashLess, p)));
            i == |rest| && rest[..i] == rest && rest[i..] == []
  {
    var rest := Shown(hashLess, p - {h});
    EndIndex(hashLess, p, h);
  }

  lemma EndIndex<H(!new), I>(hashLess: Order<H>, p: map<H, FileState<I>>, h: H)
    requires Total(hashLess)
    ensures var rest := Shown(hashLess, p - {h}); Place(rest, LastHash(Shown(hashLess, p))) == |rest|
  {
    SlotOrderIsTotal(hashLess);
    RestMembers(hashLess, p, h);
    RestTop(hashLess, p, h);
    LastPlace(SlotOrder(hashLess), Shown(hashLess, p), Shown(hashLess, p - {h}), h);
  }

  lemma RestMembers<H(!new), I>(hashLess: Order<H>, p: map<H, FileState<I>>, h: H)
    requires Total(hashLess)
    ensures Ascending(SlotOrder(hashLess), Shown(hashLess, p))
    ensures Ascending(SlotOrder(hashLess), Shown(hashLess, p - {h}))
    ensures forall x :: x in Shown(hashLess, p - {h}) <==> x in Shown(hashLess, p) && x.hash != h
  {
    ShownIs(hashLess, p);
    ShownIs(hashLess, p - {h});
  }

  lemma RestTop<H(!new), I>(hashLess: Order<H>, p: map<H, FileState<I>>, h: H)
    requires Total(hashLess)
    ensures var shown := Shown(hashLess, p);
            forall x :: x in Shown(hashLess, p - {h}) && LastHash(shown) == Some(x.hash) ==> x == shown[|shown| - 1]
  {
    var shown := Shown(hashLess, p);
    ShownIs(hashLess, p);
    RestMembers(hashLess, p, h);
    assert shown != [] ==> shown[|shown| - 1] in shown;
  }

  function PushOp<H(!new, ==), I>(
    hashLess: Order<H>, m: Cells<H, I>, actor: Actor, ts: nat, h: H, info: I): Op<H, Option<FileState<I>>>
    requires Total(hashLess)
  {
    AddOp(hashLess, m, actor, ts, LastHash(Shown(hashLess, Resolved(m))), h, info)
  }

  /** A pushed entry is shown last, whichever entry was last before, itself included. */
  lemma PushShows<H(!new), I>(hashLess: Order<H>, p: map<H, FileState<I>>, h: H, info: I, actor: Actor)
    requires Total(hashLess) && Placed(p)
    ensures var position := PositionAfter(hashLess, p, LastHash(Shown(hashLess, p)), h, actor);
            Shown(hashLess, p[h := FileState(position, info)]) == Shown(hashLess, p - {h}) + [Slot(position, h)]
  {
    EndPlace(hashLess, p, h);
    PlacedEntryShows(hashLess, p, LastHash(Shown(hashLess, p)), h, info, actor);
  }

  lemma WritePushes<H(!new), I(!new)>(
    hashLess: Order<H>, less: Order<Option<FileState<I>>>, m: Cells<H, I>, actor: Actor, ts: nat, h: H, info: I)
    requires Total(hashLess) && Total(less) && Placed(Resolved(m))
    ensures var op := PushOp(hashLess, m, actor, ts, h, info);
            Takes(less, m, h, op.lww) ==>
              Shown(hashLess, Resolved(Apply(less, m, op))) ==
              Shown(hashLess, Resolved(m) - {h}) + [Slot(op.lww.value.value.position, h)]
  {
    var last := LastHash(Shown(hashLess, Resolved(m)));
    WriteResolves(less, m, actor, ts, h, FileState(PositionAfter(hashLess, Resolved(m), last, h, actor), info));
    PushShows(hashLess, Resolved(m), h, info, actor);
  }

  // ---- Rebalancing keeps the order.

  /** Every live cell is older than `ts`. */
  predicate Older<H(==), I(==)>(m: Cells<H, I>, ts: nat) {
    forall h :: h in Resolved(m) ==> m.entries[h].cell.value.timestamp < ts
  }

  /** The first `n` entries have flat positions and nothing else changed. */
  ghost predicate Renumbered<H(!new), I>(
    p: map<H, FileState<I>>, p': map<H, FileState<I>>, shown: seq<Slot<H>>, n: nat, actor: Actor)
    requires n <= |shown|
  {
    && p'.Keys == p.Keys
    && (forall j :: 0 <= j < n ==>
       shown[j].hash in p && p'[shown[j].hash] == FileState(Flat(j, actor), p[shown[j].hash].info))
  }

  /** The cells of the entries from `n` on are as in `m`. */
  ghost predicate Untouched<H(!new), I>(m: Cells<H, I>, m': Cells<H, I>, shown: seq<Slot<H>>, n: nat) {
    forall j :: n <= j < |shown| ==> EntryAt(m', shown[j].hash) == EntryAt(m, shown[j].hash)
  }

  lemma RenumberedNext<H(!new), I>(
    p: map<H, FileState<I>>, p': map<H, FileState<I>>, shown: seq<Slot<H>>, k: nat, actor: Actor)
    requires k < |shown| && Renumbered(p, p', shown, k, actor) && Distinct(shown) && shown[k].hash in p
    ensures Renumbered(p, p'[shown[k].hash := FileState(Flat(k, actor), p[shown[k].hash].info)], shown, k + 1, actor)
  {
  }

  lemma UntouchedNext<H(!new), I(!new)>(less: Order<Option<FileState<I>>>, m: Cells<H, I>, m': Cells<H, I>,
                                        shown: seq<Slot<H>>, k: nat, op: Op<H, Option<FileState<I>>>)
    requires k < |shown| && Untouched(m, m', shown, k) && Distinct(shown) && op.key == shown[k].hash
    ensures Untouched(m, Apply(less, m', op), shown, k + 1)
  {
  }

  /** One more write of the rebalance wins its cell. */
  lemma NextTakes<H(!new), I(!new)>(less: Order<Option<FileState<I>>>, m: Cells<H, I>, m': Cells<H, I>,
                                    shown: seq<Slot<H>>, k: nat, lww: Lww<Option<FileState<I>>>)
    requires k < |shown| && Untouched(m, m', shown, k) && Older(m, lww.timestamp) && shown[k].hash in Resolved(m)
    ensures Takes(less, m', shown[k].hash, lww)
  {
    assert EntryAt(m', shown[k].hash) == EntryAt(m, shown[k].hash);
  }

  lemma {:induction false} RebalanceRenumbers<H(!new), I(!new)>(
    less: Order<Option<FileState<I>>>, m: Cells<H, I>, shown: seq<Slot<H>>, n: nat, actor: Actor, ts: nat)
    requires Total(less) && Older(m, ts) && n <= |shown|
    requires forall x :: x in shown ==> x.hash in Resolved(m)
    requires Distinct(shown)
    ensures var m' := Rebalanced(less, m, shown[..n], actor, ts);
            Renumbered(Resolved(m), Resolved(m'), shown, n, actor) && Untouched(m, m', shown, n)
  {
    if n == 0 {
      assert shown[..0] == [];
    } else {
      RebalanceRenumbers(less, m, shown, n - 1, actor, ts);
      RebalancedNext(less, m, shown, n - 1, actor, ts);
      assert shown[n - 1] in shown;
      RenumberNext(less, m, Rebalanced(less, m, shown[..n - 1], actor, ts), shown, n - 1, actor, ts);
    }
  }

  lemma RenumberNext<H(!new), I(!new)>(less: Order<Option<FileState<I>>>, m: Cells<H, I>, m': Cells<H, I>,
                                       shown: seq<Slot<H>>, k: nat, actor: Actor, ts: nat)
    requires Total(less) && Older(m, ts) && k < |shown| && Distinct(shown) && shown[k].hash in Resolved(m)
    requires Renumbered(Resolved(m), Resolved(m'), shown, k, actor) && Untouched(m, m', shown, k)
    ensures var h := shown[k].hash;
            var op := PutOp(m', actor, ts, h, Some(FileState(Flat(k, actor), Resolved(m)[h].info)));
            && Renumbered(Resolved(m), Resolved(Apply(less, m', op)), shown, k + 1, actor)
            && Untouched(m, Apply(less, m', op), shown, k + 1)
  {
    var h := shown[k].hash;
    var state := FileState(Flat(k, actor), Resolved(m)[h].info);
    NextTakes(less, m, m', shown, k, Lww(ts, Some(state)));
    WriteResolves(less, m', actor, ts, h, state);
    RenumberedNext(Resolved(m), Resolved(m'), shown, k, actor);
    UntouchedNext(less, m, m', shown, k, PutOp(m', actor, ts, h, Some(state)));
  }

  ghost predicate Distinct<H>(shown: seq<Slot<H>>) {
    forall j, k :: 0 <= j < k < |shown| ==> shown[j].hash != shown[k].hash
  }

  lemma ShownOnce<H(!new), I>(hashLess: Order<H>, p: map<H, FileState<I>>)
    requires Total(hashLess)
    ensures Distinct(Shown(hashLess, p))
  {
    var shown := Shown(hashLess, p);
    SlotOrderIsTotal(hashLess);
    ShownIs(hashLess, p);
    forall j, k | 0 <= j < k < |shown| ensures shown[j].hash != shown[k].hash {
      assert shown[j] in shown && shown[k] in shown;
      assert SlotOrder(hashLess)(shown[j], shown[k]);
    }
  }

  /** Rebalancing with a timestamp newer than every live entry's shows the same
      entries in the same order, at positions 0, 1, 2, ... */
  lemma RebalanceKeepsOrder<H(!new), I(!new)>(
    hashLess: Order<H>, less: Order<Option<FileState<I>>>, m: Cells<H, I>, actor: Actor, ts: nat)
    requires Total(hashLess) && Total(less) && Older(m, ts)
    ensures var shown := Shown(hashLess, Resolved(m));
            Shown(hashLess, Resolved(RebalancedAll(hashLess, less, m, actor, ts))) == Flattened(shown, actor)
  {
    ShownOnce(hashLess, Resolved(m));
    RebalancedShows(hashLess, less, m, Shown(hashLess, Resolved(m)), actor, ts);
  }

  lemma RebalancedShows<H(!new), I(!new)>(
    hashLess: Order<H>, less: Order<Option<FileState<I>>>, m: Cells<H, I>, shown: seq<Slot<H>>, actor: Actor, ts: nat)
    requires Total(hashLess) && Total(less) && Older(m, ts) && shown == Shown(hashLess, Resolved(m)) && Distinct(shown)
    ensures Shown(hashLess, Resolved(RebalancedAll(hashLess, less, m, actor, ts))) == Flattened(shown, actor)
  {
    ShownIs(hashLess, Resolved(m));
    RebalanceRenumbers(less, m, shown, |shown|, actor, ts);
    assert shown[..|shown|] == shown;
    RenumberedShows(hashLess, m, RebalancedAll(hashLess, less, m, actor, ts), shown, actor);
  }

  /** The same entries in the same order, at positions 0, 1, 2, ... */
  function Flattened<H>(shown: seq<Slot<H>>, actor: Actor): seq<Slot<H>> {
    seq(|shown|, (j: nat) requires j < |shown| => Slot(Flat(j, actor), shown[j].hash))
  }

  lemma FlattenedAscends<H(!new)>(hashLess: Order<H>, shown: seq<Slot<H>>, actor: Actor)
    ensures Ascending(SlotOrder(hashLess), Flattened(shown, actor))
  {
  }

  lemma ShownAt<H(!new), I>(hashLess: Order<H>, p: map<H, FileState<I>>, h: H) returns (j: nat)
    requires Total(hashLess) && h in p
    ensures j < |Shown(hashLess, p)| && Shown(hashLess, p)[j].hash == h
  {
    ShownIs(hashLess, p);
    assert Slot(p[h].position, h) in Shown(hashLess, p);
    j :| 0 <= j < |Shown(hashLess, p)| && Shown(hashLess, p)[j] == Slot(p[h].position, h);
  }

  lemma FlattenedHolds<H(!new), I(!new)>(
    hashLess: Order<H>, m: Cells<H, I>, m': Cells<H, I>, shown: seq<Slot<H>>, actor: Actor, x: Slot<H>)
    requires Total(hashLess) && shown == Shown(hashLess, Resolved(m))
    requires Renumbered(Resolved(m), Resolved(m'), shown, |shown|, actor)
    ensures x in Flattened(shown, actor) <==> x.hash in Resolved(m') && Resolved(m')[x.hash].position == x.position
  {
    var r, p := Flattened(shown, actor), Resolved(m);
    if x in r {
      var j: nat :| j < |r| && r[j] == x;
    }
    if x.hash in p {
      var j := ShownAt(hashLess, p, x.hash);
      assert r[j] == Slot(Flat(j, actor), x.hash);
    }
  }

  lemma RenumberedShows<H(!new), I(!new)>(
    hashLess: Order<H>, m: Cells<H, I>, m': Cells<H, I>, shown: seq<Slot<H>>, actor: Actor)
    requires Total(hashLess) && shown == Shown(hashLess, Resolved(m))
    requires Renumbered(Resolved(m), Resolved(m'), shown, |shown|, actor)
    ensures Shown(hashLess, Resolved(m')) == Flattened(shown, actor)
  {
    SlotOrderIsTotal(hashLess);
    FlattenedAscends(hashLess, shown, actor);
    ShownIs(hashLess, Resolved(m'));
    forall x ensures x in Flattened(shown, actor) <==> x in Shown(hashLess, Resolved(m')) {
      FlattenedHolds(hashLess, m, m', shown, actor, x);
    }
    AscendingUnique(SlotOrder(hashLess), Shown(hashLess, Resolved(m')), Flattened(shown, actor));
  }

  // ---- Compaction: pushing the shown entries into an empty playlist.

  /** The first `n` shown entries at flat positions, with their contents. */
  ghost predicate Pushed<H(!new), I>(
    p: map<H, FileState<I>>, shown: seq<Slot<H>>, infos: map<H, I>, n: nat, actor: Actor)
    requires n <= |shown| && forall x :: x in shown ==> x.hash in infos
  {
    && (forall h :: h in p ==> exists j: nat :: j < n && shown[j].hash == h)
    && (forall j: nat :: j < n ==>
       shown[j].hash in p && p[shown[j].hash] == FileState(Flat(j, actor), infos[shown[j].hash]))
  }

  lemma PushedShows<H(!new), I>(
    hashLess: Order<H>, p: map<H, FileState<I>>, shown: seq<Slot<H>>, infos: map<H, I>, n: nat, actor: Actor)
    requires Total(hashLess) && n <= |shown| && (forall x :: x in shown ==> x.hash in infos)
    requires Pushed(p, shown, infos, n, actor)
    ensures Shown(hashLess, p) == Flattened(shown[..n], actor)
  {
    var r := Flattened(shown[..n], actor);
    SlotOrderIsTotal(hashLess);
    ShownIs(hashLess, p);
    FlattenedAscends(hashLess, shown[..n], actor);
    forall x ensures x in r <==> x in Shown(hashLess, p) {
      PushedHolds(p, shown, infos, n, actor, x);
    }
    AscendingUnique(SlotOrder(hashLess), Shown(hashLess, p), r);
  }

  lemma PushedHolds<H(!new), I>(
    p: map<H, FileState<I>>, shown: seq<Slot<H>>, infos: map<H, I>, n: nat, actor: Actor, x: Slot<H>)
    requires n <= |shown| && (forall y :: y in shown ==> y.hash in infos) && Pushed(p, shown, infos, n, actor)
    ensures x in Flattened(shown[..n], actor) <==> x.hash in p && p[x.hash].position == x.position
  {
    var r := Flattened(shown[..n], actor);
    if x in r {
      var j: nat :| j < n && r[j] == x;
    }
    if x.hash in p {
      var j: nat :| j < n && shown[j].hash == x.hash;
      assert r[j] == Slot(Flat(j, actor), x.hash);
    }
  }

  /** A push lands one past the last position. */
  lemma PushPosition<H(!new), I>(
    hashLess: Order<H>, p: map<H, FileState<I>>, shown: seq<Slot<H>>, infos: map<H, I>, n: nat, actor: Actor)
    requires Total(hashLess) && n < |shown| && Distinct(shown) && (forall x :: x in shown ==> x.hash in infos)
    requires Pushed(p, shown, infos, n, actor)
    ensures shown[n].hash !in p
    ensures PositionAfter(hashLess, p, LastHash(Shown(hashLess, p)), shown[n].hash, actor) == Flat(n, actor)
  {
    var h := shown[n].hash;
    NotPushedYet(p, shown, infos, n, actor);
    assert p - {h} == p;
    WithoutIsShown(hashLess, p, h);
    EndIndex(hashLess, p, h);
    PushedShows(hashLess, p, shown, infos, n, actor);
    FlatEnd(shown[..n], actor);
  }

  lemma NotPushedYet<H(!new), I>(p: map<H, FileState<I>>, shown: seq<Slot<H>>, infos: map<H, I>, n: nat, actor: Actor)
    requires n < |shown| && Distinct(shown) && (forall x :: x in shown ==> x.hash in infos)
    requires Pushed(p, shown, infos, n, actor)
    ensures shown[n].hash !in p
  {
  }

  lemma FlatEnd<H(!new)>(shown: seq<Slot<H>>, actor: Actor)
    requires var rest := Flattened(shown, actor); Place(rest, LastHash(rest)) == |rest|
    ensures var rest := Flattened(shown, actor); PositionIn(rest, LastHash(rest), actor) == Flat(|shown|, actor)
  {
    FlatFollows(|shown|, actor);
  }

  lemma PushNext<H(!new), I>(p: map<H, FileState<I>>, shown: seq<Slot<H>>, infos: map<H, I>, n: nat, actor: Actor)
    requires n < |shown| && Distinct(shown) && (forall x :: x in shown ==> x.hash in infos)
    requires Pushed(p, shown, infos, n, actor)
    requires shown[n].hash in infos
    ensures Pushed(p[shown[n].hash := FileState(Flat(n, actor), infos[shown[n].hash])], shown, infos, n + 1, actor)
  {
    var p' := p[shown[n].hash := FileState(Flat(n, actor), infos[shown[n].hash])];
    forall h | h in p' ensures exists j: nat :: j < n + 1 && shown[j].hash == h {
      if h != shown[n].hash {
        var j: nat :| j < n && shown[j].hash == h;
      }
    }
  }

  /** Pushing a display order entry by entry into an empty playlist shows the
      same entries in the same order, at positions 0, 1, 2, ..., each stamped in
      its turn. */
  method RebuildPlaylist<H(!new, ==), I(!new, ==)>(
    hashLess: Order<H>, less: Order<Option<FileState<I>>>, shown: seq<Slot<H>>, infos: map<H, I>,
    actor: Actor, stamps: Stamps, lo: nat) returns (playlist: PlaylistCells<H, I>, hi: nat)
    requires Total(hashLess) && Total(less) && Distinct(shown) && forall x :: x in shown ==> x.hash in infos
    ensures hi == lo + |shown| && WrittenBy(playlist.cells, actor, stamps, lo, hi) && LiveOnly(playlist.cells)
    ensures Shown(hashLess, Resolved(playlist.cells)) == Flattened(shown, actor)
    ensures forall x :: x in shown ==>
            x.hash in Resolved(playlist.cells) && Resolved(playlist.cells)[x.hash].info == infos[x.hash]
  {
    playlist := new PlaylistCells(hashLess, less);
    hi := lo;
    for n := 0 to |shown|
      invariant playlist.hashLess == hashLess && playlist.less == less
      invariant hi == lo + n && WrittenBy(playlist.cells, actor, stamps, lo, hi)
      invariant Pushed(Resolved(playlist.cells), shown, infos, n, actor) && LiveOnly(playlist.cells)
    {
      assert shown[n] in shown;
      PushOne(hashLess, less, playlist.cells, shown, infos, n, actor, stamps, lo, hi);
      var _ := playlist.Push(actor, stamps(hi), shown[n].hash, infos[shown[n].hash]);
      hi := hi + 1;
    }
    PushedAll(hashLess, Resolved(playlist.cells), shown, infos, actor);
  }

  lemma PushedAll<H(!new), I>(
    hashLess: Order<H>, p: map<H, FileState<I>>, shown: seq<Slot<H>>, infos: map<H, I>, actor: Actor)
    requires Total(hashLess) && (forall x :: x in shown ==> x.hash in infos) && Pushed(p, shown, infos, |shown|, actor)
    ensures Shown(hashLess, p) == Flattened(shown, actor)
    ensures forall x :: x in shown ==> x.hash in p && p[x.hash].info == infos[x.hash]
  {
    PushedShows(hashLess, p, shown, infos, |shown|, actor);
    assert shown[..|shown|] == shown;
  }

  lemma PushOne<H(!new), I(!new)>(
    hashLess: Order<H>, less: Order<Option<FileState<I>>>, m: Cells<H, I>, shown: seq<Slot<H>>, infos: map<H, I>,
    n: nat, actor: Actor, stamps: Stamps, lo: nat, hi: nat)
    requires Total(hashLess) && Total(less) && Distinct(shown) && (forall x :: x in shown ==> x.hash in infos)
    requires n < |shown| && shown[n].hash in infos && lo <= hi && WrittenBy(m, actor, stamps, lo, hi)
    requires Pushed(Resolved(m), shown, infos, n, actor) && LiveOnly(m)
    ensures var h := shown[n].hash;
            var m' := Apply(less, m, PushOp(hashLess, m, actor, stamps(hi), h, infos[h]));
            && WrittenBy(m', actor, stamps, lo, hi + 1)
            && Pushed(Resolved(m'), shown, infos, n + 1, actor) && LiveOnly(m')
  {
    PushOpIs(hashLess, m, shown, infos, n, actor, stamps(hi));
    PutOne(less, m, shown, infos, n, actor, stamps, lo, hi);
  }

  lemma PushOpIs<H(!new), I>(
    hashLess: Order<H>, m: Cells<H, I>, shown: seq<Slot<H>>, infos: map<H, I>, n: nat, actor: Actor, ts: nat)
    requires Total(hashLess) && n < |shown| && Distinct(shown) && (forall x :: x in shown ==> x.hash in infos)
    requires shown[n].hash in infos && Pushed(Resolved(m), shown, infos, n, actor)
    ensures var h := shown[n].hash;
            PushOp(hashLess, m, actor, ts, h, infos[h]) ==
                PutOp(m, actor, ts, h, Some(FileState(Flat(n, actor), infos[h])))
  {
    PushPosition(hashLess, Resolved(m), shown, infos, n, actor);
  }

  lemma PutOne<H(!new), I(!new)>(
    less: Order<Option<FileState<I>>>, m: Cells<H, I>, shown: seq<Slot<H>>, infos: map<H, I>, n: nat,
    actor: Actor, stamps: Stamps, lo: nat, hi: nat)
    requires Total(less) && Distinct(shown) && (forall x :: x in shown ==> x.hash in infos)
    requires n < |shown| && shown[n].hash in infos && lo <= hi && WrittenBy(m, actor, stamps, lo, hi)
    requires Pushed(Resolved(m), shown, infos, n, actor) && LiveOnly(m)
    ensures var h := shown[n].hash;
            var m' := Apply(less, m, PutOp(m, actor, stamps(hi), h, Some(FileState(Flat(n, actor), infos[h]))));
            && WrittenBy(m', actor, stamps, lo, hi + 1)
            && Pushed(Resolved(m'), shown, infos, n + 1, actor) && LiveOnly(m')
  {
    var h := shown[n].hash;
    var state := FileState(Flat(n, actor), infos[h]);
    NotPushedYet(Resolved(m), shown, infos, n, actor);
    PutNew(less, m, actor, stamps, lo, hi, h, state);
    PushNext(Resolved(m), shown, infos, n, actor);
  }

  lemma PutNew<H(!new), I(!new)>(
    less: Order<Option<FileState<I>>>, m: Cells<H, I>, actor: Actor, stamps: Stamps, lo: nat, hi: nat,
    h: H, state: FileState<I>)
    requires Total(less) && lo <= hi && WrittenBy(m, actor, stamps, lo, hi) && LiveOnly(m) && h !in Resolved(m)
    ensures var m' := Apply(less, m, PutOp(m, actor, stamps(hi), h, Some(state)));
            WrittenBy(m', actor, stamps, lo, hi + 1) && LiveOnly(m') && Resolved(m') == Resolved(m)[h := state]
  {
    WriteResolves(less, m, actor, stamps(hi), h, state);
    LiveNext(less, m, actor, stamps(hi), h, state);
    WrittenNext(less, m, actor, stamps, lo, hi, h, Some(state));
  }

  /** No tombstones. */
  predicate LiveOnly<H(==), I(==)>(m: Cells<H, I>) {
    m.entries.Keys == Resolved(m).Keys
  }

  lemma LiveNext<H(!new), I(!new)>(
    less: Order<Option<FileState<I>>>, m: Cells<H, I>, actor: Actor, ts: nat, h: H, state: FileState<I>)
    requires LiveOnly(m) && h !in Resolved(m)
    ensures LiveOnly(Apply(less, m, PutOp(m, actor, ts, h, Some(state))))
  {
    var m' := Apply(less, m, PutOp(m, actor, ts, h, Some(state)));
    forall g ensures g in m'.entries <==> g in Resolved(m') {
    }
  }
}
