/** Upgrading a stored relations map from an older layout.  Replicas migrate on
    their own and are then merged, so the dots the rebuild spends must agree. */
module Migration {
  import opened Wrappers
  import opened Lww
  import opened LwwMap
  import opened Sorted

  /** The actor that dots a rebuilt entry: a reserved band of the 128-bit actor
      space, one actor per 32-bit series id. */
  function MigrationActor(series: int): Actor {
    0xFFFF_FFFF_FFFF_FFFF * 0x1_0000_0000_0000_0000 + series
  }

  /** One actor per key. */
  ghost predicate Injective<K(!new)>(actorOf: K -> Actor) {
    forall k, k' :: actorOf(k) == actorOf(k') ==> k == k'
  }

  lemma SeriesActorsAreInjective()
    ensures Injective(MigrationActor)
  {
  }

  /** The value order before and after the upgrade agree: the upgrade only
      appends a field that is the same for every row. */
  ghost predicate Monotone<O(!new), N>(lessOld: Order<O>, lessNew: Order<N>, upgrade: O -> N) {
    forall a, b :: lessOld(a, b) <==> lessNew(upgrade(a), upgrade(b))
  }

  datatype Plan<!K, !O, !N> = Plan(actorOf: K -> Actor, upgrade: O -> N) {
    function Cell(cell: Cell<O>): Cell<N> {
      if cell.None? then None else Some(Lww(cell.value.timestamp, upgrade(cell.value.value)))
    }

    /** The dot of a key's rebuilt entry. */
    function Dot(k: K): Clock {
      map[actorOf(k) := 1]
    }
  }

  /** The keys that hold a value. */
  function Written<K(==), O>(m: Map<K, O>): set<K> {
    set k | k in m.entries && m.entries[k].cell.Some?
  }

  function Actors<K, O, N>(p: Plan<K, O, N>, keys: set<K>): set<Actor> {
    set k | k in keys :: p.actorOf(k)
  }

  /** What the rebuild produces. */
  function Upgraded<K(==), O, N>(p: Plan<K, O, N>, stored: Map<K, O>): Map<K, N> {
    Map(map a | a in Actors(p, Written(stored)) :: 1,
        map k | k in Written(stored) :: Entry(p.Dot(k), p.Cell(stored.entries[k].cell)))
  }

  /** `map_put` under the key's migration actor. */
  function RebuildOne<K(==), O, N>(p: Plan<K, O, N>, less: Order<N>, rebuilt: Map<K, N>, k: K, lww: Lww<N>): Map<K, N> {
    Apply(less, rebuilt, Op(p.actorOf(k), At(rebuilt.clock, p.actorOf(k)) + 1, k, lww))
  }

  /** The rebuild: one put per stored entry, each under its key's own actor, each
      with the timestamp it had. */
  method UpgradeRelationsMap<K(!new, ==), O, N>(order: Order<K>, less: Order<N>, p: Plan<K, O, N>, stored: Map<K, O>)
    returns (rebuilt: Map<K, N>)
    requires Total(order) && Injective(p.actorOf)
    ensures rebuilt == Upgraded(p, stored)
  {
    rebuilt := Empty();
    var keys := InOrder(order, stored.entries.Keys);
    for i := 0 to |keys|
      invariant rebuilt == Upgraded(p, Part(stored, keys[..i]))
    {
      var series := keys[i];
      RebuildStep(less, p, stored, keys, i);
      var cell := stored.entries[series].cell;
      if cell.Some? {
        rebuilt := RebuildOne(p, less, rebuilt, series, Lww(cell.value.timestamp, p.upgrade(cell.value.value)));
      }
    }
    WholePart(stored, keys);
  }

  lemma WholePart<K, O>(stored: Map<K, O>, keys: seq<K>)
    requires forall k :: k in keys <==> k in stored.entries
    ensures Part(stored, keys[..|keys|]) == stored
  {
    assert keys[..|keys|] == keys;
    assert Part(stored, keys).entries == stored.entries;
  }

  /** One turn of the loop. */
  lemma RebuildStep<K(!new), O, N>(less: Order<N>, p: Plan<K, O, N>, stored: Map<K, O>, keys: seq<K>, i: nat)
    requires Injective(p.actorOf) && i < |keys| && keys[i] in stored.entries && keys[i] !in keys[..i]
    ensures var k, before := keys[i], Upgraded(p, Part(stored, keys[..i]));
            var cell := stored.entries[k].cell;
            Upgraded(p, Part(stored, keys[..i + 1])) ==
            if cell.None? then before
            else RebuildOne(p, less, before, k, Lww(cell.value.timestamp, p.upgrade(cell.value.value)))
  {
    var k := keys[i];
    assert keys[..i + 1] == keys[..i] + [k];
    PartGrows(stored, keys[..i], k);
    if stored.entries[k].cell.Some? {
      RebuildPut(less, p, Part(stored, keys[..i]), k, stored.entries[k]);
    } else {
      RebuildSkip(p, Part(stored, keys[..i]), k, stored.entries[k]);
    }
  }

  /** The stored map cut to some of its keys. */
  ghost function Part<K, O>(stored: Map<K, O>, keys: seq<K>): Map<K, O> {
    Map(stored.clock, map k | k in stored.entries && k in keys :: stored.entries[k])
  }

  lemma PartGrows<K, O>(stored: Map<K, O>, keys: seq<K>, k: K)
    requires k in stored.entries && k !in keys
    ensures k !in Part(stored, keys).entries
    ensures Part(stored, keys + [k]) == Map(stored.clock, Part(stored, keys).entries[k := stored.entries[k]])
  {
    assert Part(stored, keys + [k]).entries == Part(stored, keys).entries[k := stored.entries[k]];
  }

  lemma RebuildPut<K(!new), O, N>(less: Order<N>, p: Plan<K, O, N>, before: Map<K, O>, k: K, e: Entry<O>)
    requires Injective(p.actorOf) && k !in before.entries && e.cell.Some?
    ensures RebuildOne(p, less, Upgraded(p, before), k, Lww(e.cell.value.timestamp, p.upgrade(e.cell.value.value)))
            == Upgraded(p, Map(before.clock, before.entries[k := e]))
  {
    var after := Map(before.clock, before.entries[k := e]);
    LoneActor(p, before, k);
    assert Written(after) == Written(before) + {k};
    ClockGrows(p, Written(before), k);
    EntriesGrow(p, before, after, k, e);
  }

  lemma ClockGrows<K, O, N>(p: Plan<K, O, N>, keys: set<K>, k: K)
    ensures (map a | a in Actors(p, keys + {k}) :: 1) == (map a | a in Actors(p, keys) :: 1)[p.actorOf(k) := 1]
  {
    assert Actors(p, keys + {k}) == Actors(p, keys) + {p.actorOf(k)};
  }

  lemma EntriesGrow<K, O, N>(p: Plan<K, O, N>, before: Map<K, O>, after: Map<K, O>, k: K, e: Entry<O>)
    requires after.entries == before.entries[k := e] && Written(after) == Written(before) + {k} && k !in before.entries
    ensures Upgraded(p, after).entries == Upgraded(p, before).entries[k := Entry(p.Dot(k), p.Cell(e.cell))]
  {
  }

  lemma RebuildSkip<K, O, N>(p: Plan<K, O, N>, before: Map<K, O>, k: K, e: Entry<O>)
    requires k !in before.entries && e.cell.None?
    ensures Upgraded(p, Map(before.clock, before.entries[k := e])) == Upgraded(p, before)
  {
    assert Written(Map(before.clock, before.entries[k := e])) == Written(before);
  }

  lemma LoneActor<K(!new), O, N>(p: Plan<K, O, N>, m: Map<K, O>, k: K)
    requires Injective(p.actorOf) && k !in m.entries
    ensures At(Upgraded(p, m).clock, p.actorOf(k)) == 0
  {
    forall k' | k' in Written(m) ensures p.actorOf(k') != p.actorOf(k) {
    }
  }

  lemma ActorTicked<K, O, N>(p: Plan<K, O, N>, m: Map<K, O>, k: K)
    requires k in m.entries && m.entries[k].cell.Some?
    ensures At(Upgraded(p, m).clock, p.actorOf(k)) == 1
  {
    assert k in Written(m);
  }

  /** Merging cells and upgrading them commute. */
  lemma UpgradeJoins<K, O(!new), N>(lessOld: Order<O>, lessNew: Order<N>, p: Plan<K, O, N>, c: Cell<O>, d: Cell<O>)
    requires Monotone(lessOld, lessNew, p.upgrade)
    ensures p.Cell(Join(lessOld, c, d)) == Join(lessNew, p.Cell(c), p.Cell(d))
  {
  }

  /** Migrating two replicas apart and merging them gives the very map that
      merging first and migrating once gives: no key is lost, and every key has
      the same winner at the same timestamp. */
  lemma MigrationCommutesWithMerge<K(!new), O(!new), N(!new)>(
    lessOld: Order<O>, lessNew: Order<N>, p: Plan<K, O, N>, x: Map<K, O>, y: Map<K, O>, log: Log<K, O>)
    requires Total(lessOld) && Monotone(lessOld, lessNew, p.upgrade) && Injective(p.actorOf)
    requires Stands(lessOld, x, log) && Stands(lessOld, y, log)
    ensures Merge(lessNew, Upgraded(p, x), Upgraded(p, y)) == Upgraded(p, Merge(lessOld, x, y))
  {
    MergeCells(lessOld, x, y, log);
    JoinedUpgrade(lessOld, lessNew, p, x, y, Merge(lessOld, x, y));
  }

  /** `u` is what the rebuild makes of a filled map. */
  ghost predicate Rebuilds<K(!new), O, N>(p: Plan<K, O, N>, m: Map<K, O>, u: Map<K, N>) {
    && u.entries.Keys == m.entries.Keys
    && (forall k :: k in m.entries ==> u.entries[k] == Entry(p.Dot(k), p.Cell(m.entries[k].cell)))
    && (forall k :: At(u.clock, p.actorOf(k)) == if k in m.entries then 1 else 0)
  }

  lemma UpgradeRebuilds<K(!new), O, N>(p: Plan<K, O, N>, m: Map<K, O>)
    requires Injective(p.actorOf) && Filled(m)
    ensures Written(m) == m.entries.Keys && Rebuilds(p, m, Upgraded(p, m))
  {
    forall k ensures At(Upgraded(p, m).clock, p.actorOf(k)) == if k in m.entries then 1 else 0 {
      if k in m.entries {
        ActorTicked(p, m, k);
      } else {
        LoneActor(p, m, k);
      }
    }
  }

  lemma JoinedUpgrade<K(!new), O(!new), N>(
    lessOld: Order<O>, lessNew: Order<N>, p: Plan<K, O, N>, x: Map<K, O>, y: Map<K, O>, xy: Map<K, O>)
    requires Monotone(lessOld, lessNew, p.upgrade) && Injective(p.actorOf)
    requires Filled(x) && Filled(y) && JoinsCells(lessOld, x, y, xy)
    ensures Merge(lessNew, Upgraded(p, x), Upgraded(p, y)) == Upgraded(p, xy)
  {
    assert Filled(xy);
    UpgradeRebuilds(p, x);
    UpgradeRebuilds(p, y);
    UpgradeRebuilds(p, xy);
    UpgradedClocks(p, x, y, xy);
    JoinedRebuild(lessOld, lessNew, p, x, y, xy, Upgraded(p, x), Upgraded(p, y), Upgraded(p, xy));
  }

  lemma JoinedRebuild<K(!new), O(!new), N>(
    lessOld: Order<O>, lessNew: Order<N>, p: Plan<K, O, N>, x: Map<K, O>, y: Map<K, O>, xy: Map<K, O>,
    ux: Map<K, N>, uy: Map<K, N>, uxy: Map<K, N>)
    requires Monotone(lessOld, lessNew, p.upgrade) && JoinsCells(lessOld, x, y, xy) && Filled(x) && Filled(y)
    requires Rebuilds(p, x, ux) && Rebuilds(p, y, uy) && Rebuilds(p, xy, uxy)
    requires uxy.clock == Joined(ux.clock, uy.clock)
    ensures Merge(lessNew, ux, uy) == uxy
  {
    forall k | k in uxy.entries
      ensures Survives(ux, uy, k) && uxy.entries[k] == MergedEntry(lessNew, ux, uy, k)
    {
      MigratedKey(lessOld, lessNew, p, x, y, ux, uy, k);
      assert xy.entries[k].cell == Join(lessOld, CellAt(x, k), CellAt(y, k));
    }
    MergeIs(lessNew, ux, uy, uxy);
  }

  lemma UpgradedClocks<K, O, N>(p: Plan<K, O, N>, x: Map<K, O>, y: Map<K, O>, xy: Map<K, O>)
    requires Written(xy) == Written(x) + Written(y)
    ensures Upgraded(p, xy).clock == Joined(Upgraded(p, x).clock, Upgraded(p, y).clock)
  {
    AllOnes(Actors(p, Written(x)), Actors(p, Written(y)));
    assert Actors(p, Written(xy)) == Actors(p, Written(x)) + Actors(p, Written(y));
  }

  lemma AllOnes(s: set<Actor>, t: set<Actor>)
    ensures (map a | a in s + t :: 1) == Joined(map a | a in s :: 1, map a | a in t :: 1)
  {
  }

  lemma MigratedKey<K(!new), O(!new), N>(
    lessOld: Order<O>, lessNew: Order<N>, p: Plan<K, O, N>, x: Map<K, O>, y: Map<K, O>,
    ux: Map<K, N>, uy: Map<K, N>, k: K)
    requires Monotone(lessOld, lessNew, p.upgrade) && Rebuilds(p, x, ux) && Rebuilds(p, y, uy)
    requires Filled(x) && Filled(y) && k in x.entries.Keys + y.entries.Keys
    ensures Survives(ux, uy, k)
    ensures MergedEntry(lessNew, ux, uy, k) == Entry(p.Dot(k), p.Cell(Join(lessOld, CellAt(x, k), CellAt(y, k))))
  {
    if k in x.entries && k in y.entries {
      UpgradeJoins(lessOld, lessNew, p, x.entries[k].cell, y.entries[k].cell);
      OneDotKept(p.actorOf(k), ux.clock, uy.clock);
      assert p.actorOf(k) in p.Dot(k);
    } else if k in x.entries {
      LoneDotKept(p, y, uy, k);
    } else {
      LoneDotKept(p, x, ux, k);
    }
  }

  lemma LoneDotKept<K(!new), O, N>(p: Plan<K, O, N>, m: Map<K, O>, u: Map<K, N>, k: K)
    requires Rebuilds(p, m, u) && k !in m.entries
    ensures Forget(p.Dot(k), u.clock) == p.Dot(k) && !Covers(u.clock, p.Dot(k))
  {
    assert p.actorOf(k) in p.Dot(k);
    ForgetNothing(p.Dot(k), u.clock);
  }

  lemma OneDotKept(a: Actor, c: Clock, d: Clock)
    requires At(c, a) == 1 && At(d, a) == 1
    ensures KeptClock(map[a := 1], c, map[a := 1], d) == map[a := 1]
  {
    var one: Clock := map[a := 1];
    assert Common(one, one) == one && Forget(one, c) == map[] && Forget(one, d) == map[];
    assert Joined(one, map[]) == one;
  }

  /** Why one actor per key: a rebuild under one shared actor, counting from 1,
      spends the same dot on different keys, and the merge of two such replicas
      keeps neither entry. */
  lemma SharedActorDestroys<K, V>(less: Order<V>, a: Actor, k: K, k': K, x: Lww<V>, y: Lww<V>)
    requires k != k'
    ensures var left: Map<K, V> := Apply(less, Empty(), Op(a, 1, k, x));
            var right: Map<K, V> := Apply(less, Empty(), Op(a, 1, k', y));
            View(left) == map[k := x.value] && View(right) == map[k' := y.value] &&
                View(Merge(less, left, right)) == map[]
  {
    var left: Map<K, V> := Apply(less, Empty(), Op(a, 1, k, x));
    var right: Map<K, V> := Apply(less, Empty(), Op(a, 1, k', y));
    assert left == Map(map[a := 1], map[k := Entry(map[a := 1], Some(x))]);
    assert right == Map(map[a := 1], map[k' := Entry(map[a := 1], Some(y))]);
    assert !Survives(left, right, k) && !Survives(left, right, k');
    assert Merge(less, left, right).entries == map[];
  }
}
