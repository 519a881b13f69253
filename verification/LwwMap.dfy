/** The keyed collection of cells: `crdts::Map` as this program uses it, with
    puts only.  The deferred-removal table of the library stays empty then and
    is left out. */
module LwwMap {
  import opened Lww
  import opened Sorted
  import opened Wrappers

  type Actor = int
  type Clock = map<Actor, nat>

  function At(c: Clock, a: Actor): nat {
    if a in c then c[a] else 0
  }

  /** The library's `c >= d`. */
  predicate Covers(c: Clock, d: Clock) {
    forall a :: a in d ==> At(c, a) >= d[a]
  }

  function Tick(c: Clock, a: Actor, n: nat): Clock {
    if At(c, a) < n then c[a := n] else c
  }

  function Joined(c: Clock, d: Clock): Clock {
    map a | a in c.Keys + d.Keys :: Max(At(c, a), At(d, a))
  }

  /** Forgets every actor whose count `d` has reached. */
  function Forget(c: Clock, d: Clock): Clock {
    map a | a in c && !(a in d && d[a] >= c[a]) :: c[a]
  }

  function Common(c: Clock, d: Clock): Clock {
    map a | a in c && At(d, a) == c[a] :: c[a]
  }

  datatype Entry<+V> = Entry(clock: Clock, cell: Cell<V>)
  datatype Map<K(==), +V> = Map(clock: Clock, entries: map<K, Entry<V>>)
  datatype Op<+K, +V> = Op(actor: Actor, counter: nat, key: K, lww: Lww<V>)

  function Empty<K(==), V>(): Map<K, V> {
    Map(map[], map[])
  }

  function EntryAt<K(==), V>(m: Map<K, V>, k: K): Entry<V> {
    if k in m.entries then m.entries[k] else Entry(map[], None)
  }

  function Apply<K(==), V>(less: Order<V>, m: Map<K, V>, op: Op<K, V>): Map<K, V> {
    if At(m.clock, op.actor) >= op.counter then m
    else
      var e := EntryAt(m, op.key);
      Map(Tick(m.clock, op.actor, op.counter),
          m.entries[op.key := Entry(Tick(e.clock, op.actor, op.counter), Put(less, e.cell, op.lww))])
  }

  /** The clock an entry present on both sides keeps. */
  function KeptClock(ours: Clock, ourMap: Clock, theirs: Clock, theirMap: Clock): Clock {
    Joined(Joined(Common(theirs, ours), Forget(theirs, ourMap)), Forget(ours, theirMap))
  }

  /** Whether a key survives a merge: an entry on one side only survives unless
      the other side's clock covers it, one on both sides unless nothing of its
      clock is left. */
  predicate Survives<K(==), V>(m: Map<K, V>, other: Map<K, V>, k: K)
    requires k in m.entries || k in other.entries
  {
    if k !in other.entries then !Covers(other.clock, m.entries[k].clock)
    else if k !in m.entries then !Covers(m.clock, other.entries[k].clock)
    else exists a :: a in KeptClock(m.entries[k].clock, m.clock, other.entries[k].clock, other.clock)
  }

  function MergedEntry<K(==), V>(less: Order<V>, m: Map<K, V>, other: Map<K, V>, k: K): Entry<V>
    requires k in m.entries || k in other.entries
  {
    if k !in other.entries then Entry(Forget(m.entries[k].clock, other.clock), m.entries[k].cell)
    else if k !in m.entries then Entry(Forget(other.entries[k].clock, m.clock), other.entries[k].cell)
    else Entry(KeptClock(m.entries[k].clock, m.clock, other.entries[k].clock, other.clock),
               Join(less, m.entries[k].cell, other.entries[k].cell))
  }

  function Merge<K(==), V>(less: Order<V>, m: Map<K, V>, other: Map<K, V>): Map<K, V> {
    Map(Joined(m.clock, other.clock),
        map k | k in m.entries.Keys + other.entries.Keys && Survives(m, other, k) :: MergedEntry(less, m, other, k))
  }

  /** The resolved value of every key. */
  function View<K(==), V>(m: Map<K, V>): map<K, V> {
    map k | k in m.entries && m.entries[k].cell.Some? :: m.entries[k].cell.value.value
  }

  // ---- Writing a map with stamps drawn one after another.

  type Stamps = nat -> nat

  ghost predicate Increasing(stamps: Stamps) {
    forall i: nat, j: nat :: i < j ==> stamps(i) < stamps(j)
  }

  ghost predicate Drawn(ts: nat, stamps: Stamps, lo: nat, hi: nat) {
    exists i: nat :: lo <= i < hi && stamps(i) == ts
  }

  /** `actor` alone wrote the map, and every cell carries a stamp from `lo` up to `hi`. */
  ghost predicate WrittenBy<K, V>(m: Map<K, V>, actor: Actor, stamps: Stamps, lo: nat, hi: nat) {
    && m.clock.Keys <= {actor}
    && (forall k :: k in m.entries ==>
                      m.entries[k].cell.Some? && Drawn(m.entries[k].cell.value.timestamp, stamps, lo, hi))
  }

  lemma WrittenNext<K, V>(less: Order<V>, m: Map<K, V>, actor: Actor, stamps: Stamps, lo: nat, hi: nat, k: K, v: V)
    requires WrittenBy(m, actor, stamps, lo, hi) && lo <= hi
    ensures WrittenBy(Apply(less, m, Op(actor, At(m.clock, actor) + 1, k, Lww(stamps(hi), v))), actor, stamps, lo,
            hi + 1)
  {
    var m' := Apply(less, m, Op(actor, At(m.clock, actor) + 1, k, Lww(stamps(hi), v)));
    forall x | x in m'.entries
      ensures m'.entries[x].cell.Some? && Drawn(m'.entries[x].cell.value.timestamp, stamps, lo, hi + 1)
    {
      if x in m.entries {
        DrawnWiden(m.entries[x].cell.value.timestamp, stamps, lo, hi, lo, hi + 1);
      }
    }
  }

  lemma DrawnWiden(ts: nat, stamps: Stamps, lo: nat, hi: nat, lo': nat, hi': nat)
    requires Drawn(ts, stamps, lo, hi) && lo' <= lo && hi <= hi'
    ensures Drawn(ts, stamps, lo', hi')
  {
    var i: nat :| lo <= i < hi && stamps(i) == ts;
  }

  lemma WrittenWiden<K, V>(m: Map<K, V>, actor: Actor, stamps: Stamps, lo: nat, hi: nat, lo': nat, hi': nat)
    requires WrittenBy(m, actor, stamps, lo, hi) && lo' <= lo && hi <= hi'
    ensures WrittenBy(m, actor, stamps, lo', hi')
  {
    forall k | k in m.entries ensures Drawn(m.entries[k].cell.value.timestamp, stamps, lo', hi') {
      DrawnWiden(m.entries[k].cell.value.timestamp, stamps, lo, hi, lo', hi');
    }
  }

  // ---- What a map stands for: the first ops of every origin.

  datatype Write<+K, +V> = Write(key: K, lww: Lww<V>)
  type Log<!K, +V> = map<Actor, seq<Write<K, V>>>

  function Ops<K, V>(log: Log<K, V>, a: Actor): seq<Write<K, V>> {
    if a in log then log[a] else []
  }

  /** The sequence number of the last write to `k`, or 0. */
  function LastDot<K(==), V>(ops: seq<Write<K, V>>, k: K): (n: nat)
    ensures n <= |ops|
    ensures n > 0 ==> ops[n - 1].key == k
    ensures forall i :: n <= i < |ops| ==> ops[i].key != k
  {
    if ops == [] then 0
    else if ops[|ops| - 1].key == k then |ops|
    else LastDot(ops[..|ops| - 1], k)
  }

  /** Write `i` of `a` is among those a clock stands for. */
  predicate Seen<K, V>(log: Log<K, V>, c: Clock, a: Actor, i: int) {
    0 <= i < At(c, a) && i < |Ops(log, a)|
  }

  ghost predicate Within<K, V>(c: Clock, log: Log<K, V>) {
    forall a :: a in c ==> 0 < c[a] <= |Ops(log, a)|
  }

  function Dot<K(==), V>(log: Log<K, V>, c: Clock, a: Actor, k: K): nat
    requires At(c, a) <= |Ops(log, a)|
  {
    LastDot(Ops(log, a)[..At(c, a)], k)
  }

  /** `w` is a seen write to `k`, and no seen write to `k` beats it. */
  ghost predicate Winner<K, V>(less: Order<V>, log: Log<K, V>, c: Clock, k: K, w: Lww<V>) {
    && (exists a, i :: Seen(log, c, a, i) && Ops(log, a)[i] == Write(k, w))
    && (forall a, i :: Seen(log, c, a, i) && Ops(log, a)[i].key == k ==> !Before(less, w, Ops(log, a)[i].lww))
  }

  /** `clock` holds the last dot on `k` of every origin that wrote it. */
  ghost predicate ClockStands<K, V>(log: Log<K, V>, c: Clock, k: K, clock: Clock)
    requires Within(c, log)
  {
    && (forall a :: At(clock, a) == Dot(log, c, a, k))
    && Positive(clock)
    && (exists a :: a in clock)
  }

  ghost predicate Positive(c: Clock) {
    forall a :: a in c ==> c[a] > 0
  }

  ghost predicate EntryStands<K, V>(less: Order<V>, log: Log<K, V>, c: Clock, k: K, e: Entry<V>)
    requires Within(c, log)
  {
    ClockStands(log, c, k, e.clock) && e.cell.Some? && Winner(less, log, c, k, e.cell.value)
  }

  /** The map is exactly what the first `clock[a]` ops of every origin `a` make:
      the same keys, the last dot of every origin on every key, and the winning
      write of every key. */
  ghost predicate Stands<K(!new), V>(less: Order<V>, m: Map<K, V>, log: Log<K, V>) {
    && Within(m.clock, log)
    && (forall k :: k in m.entries ==> EntryStands(less, log, m.clock, k, m.entries[k]))
    && (forall k, a :: Dot(log, m.clock, a, k) > 0 ==> k in m.entries)
  }

  // ---- One origin's prefix.

  /** Between two prefixes a key's last dot either stays or lies past the shorter one. */
  lemma {:induction false} DotBetween<K, V>(ops: seq<Write<K, V>>, n: nat, n': nat, k: K)
    requires n <= n' <= |ops|
    ensures var d, d' := LastDot(ops[..n], k), LastDot(ops[..n'], k); d' == d || d' > n
    ensures LastDot(ops[..n], k) <= LastDot(ops[..n'], k)
  {
    if n < n' {
      DotBetween(ops, n, n' - 1, k);
      assert ops[..n'][..n' - 1] == ops[..n' - 1];
    }
  }

  // ---- Applying the next op of an origin.

  lemma DotAfterNext<K, V>(log: Log<K, V>, c: Clock, a: Actor, b: Actor, k: K)
    requires Within(c, log) && At(c, a) < |Ops(log, a)|
    ensures var n := At(c, a) + 1;
            && Within(c[a := n], log)
            && Dot(log, c[a := n], b, k) == if b == a && Ops(log, a)[n - 1].key == k then n else Dot(log, c, b, k)
  {
    var n := At(c, a) + 1;
    var ops := Ops(log, a)[..n];
    assert ops[..n - 1] == Ops(log, a)[..n - 1];
    forall x | x in c[a := n] ensures 0 < c[a := n][x] <= |Ops(log, x)| {
    }
  }

  /** The cell of a key that may not have been written yet. */
  ghost predicate WinnerSoFar<K, V>(less: Order<V>, log: Log<K, V>, c: Clock, k: K, cell: Cell<V>) {
    match cell
    case None => forall b, i :: Seen(log, c, b, i) ==> Ops(log, b)[i].key != k
    case Some(w) => Winner(less, log, c, k, w)
  }

  lemma WinnerAfterNext<K, V(!new)>(less: Order<V>, log: Log<K, V>, c: Clock, a: Actor, k: K, cell: Cell<V>)
    requires Total(less) && Within(c, log) && At(c, a) < |Ops(log, a)|
    requires Ops(log, a)[At(c, a)].key == k
    requires WinnerSoFar(less, log, c, k, cell)
    ensures var op := Ops(log, a)[At(c, a)];
            Winner(less, log, c[a := At(c, a) + 1], k, Put(less, cell, op.lww).value)
  {
    var n := At(c, a);
    var c', op := c[a := n + 1], Ops(log, a)[n];
    var w := Put(less, cell, op.lww).value;
    assert Seen(log, c', a, n) && op == Write(k, op.lww);
    if w != op.lww {
      var b, i :| Seen(log, c, b, i) && Ops(log, b)[i] == Write(k, w);
      assert Seen(log, c', b, i);
    }
    forall b, i | Seen(log, c', b, i) && Ops(log, b)[i].key == k ensures !Before(less, w, Ops(log, b)[i].lww) {
      if !(b == a && i == n) {
        assert Seen(log, c, b, i);
      }
    }
  }

  lemma WinnerUnmoved<K, V>(less: Order<V>, log: Log<K, V>, c: Clock, a: Actor, k: K, w: Lww<V>)
    requires Within(c, log) && At(c, a) < |Ops(log, a)|
    requires Ops(log, a)[At(c, a)].key != k && Winner(less, log, c, k, w)
    ensures Winner(less, log, c[a := At(c, a) + 1], k, w)
  {
    var c' := c[a := At(c, a) + 1];
    var b, i :| Seen(log, c, b, i) && Ops(log, b)[i] == Write(k, w);
    assert Seen(log, c', b, i);
    forall b, i | Seen(log, c', b, i) && Ops(log, b)[i].key == k ensures !Before(less, w, Ops(log, b)[i].lww) {
      assert Seen(log, c, b, i);
    }
  }

  /** Nothing seen on a key that has no entry. */
  lemma UnseenKey<K(!new), V>(less: Order<V>, m: Map<K, V>, log: Log<K, V>, k: K)
    requires Stands(less, m, log) && k !in m.entries
    ensures forall b, i :: Seen(log, m.clock, b, i) ==> Ops(log, b)[i].key != k
  {
    forall b, i | Seen(log, m.clock, b, i) ensures Ops(log, b)[i].key != k {
      assert Dot(log, m.clock, b, k) == 0;
      assert Ops(log, b)[..At(m.clock, b)][i] == Ops(log, b)[i];
    }
  }

  /** The op an origin issued with a given sequence number. */
  function OpOf<K, V>(log: Log<K, V>, a: Actor, n: nat): Op<K, V>
    requires 0 < n <= |Ops(log, a)|
  {
    Op(a, n, Ops(log, a)[n - 1].key, Ops(log, a)[n - 1].lww)
  }

  /** Applying the next op of an origin moves the map to the next prefix. */
  lemma ApplyNext<K(!new), V(!new)>(less: Order<V>, m: Map<K, V>, log: Log<K, V>, a: Actor)
    requires Total(less) && Stands(less, m, log) && At(m.clock, a) < |Ops(log, a)|
    ensures var op := OpOf(log, a, At(m.clock, a) + 1);
            Stands(less, Apply(less, m, op), log) && Apply(less, m, op).clock == m.clock[a := At(m.clock, a) + 1]
  {
    var n := At(m.clock, a) + 1;
    var op := OpOf(log, a, n);
    var m' := Apply(less, m, op);
    assert m'.clock == m.clock[a := n];
    forall k, b ensures Within(m'.clock, log)
      ensures Dot(log, m'.clock, b, k) == if b == a && op.key == k then n else Dot(log, m.clock, b, k)
    {
      DotAfterNext(log, m.clock, a, b, k);
    }
    forall k | k in m'.entries ensures EntryStands(less, log, m'.clock, k, m'.entries[k]) {
      if k == op.key {
        ApplyNextEntry(less, m, log, a);
      } else {
        WinnerUnmoved(less, log, m.clock, a, k, m.entries[k].cell.value);
      }
    }
  }

  lemma ApplyNextEntry<K(!new), V(!new)>(less: Order<V>, m: Map<K, V>, log: Log<K, V>, a: Actor)
    requires Total(less) && Stands(less, m, log) && At(m.clock, a) < |Ops(log, a)|
    ensures var op := OpOf(log, a, At(m.clock, a) + 1);
            var m' := Apply(less, m, op);
            Within(m'.clock, log) && op.key in m'.entries &&
            EntryStands(less, log, m'.clock, op.key, m'.entries[op.key])
  {
    var op := OpOf(log, a, At(m.clock, a) + 1);
    var e := EntryAt(m, op.key);
    EntryBefore(less, m, log, op.key);
    WinnerAfterNext(less, log, m.clock, a, op.key, e.cell);
    ClockAfterNext(log, m.clock, a, e.clock);
  }

  /** An entry, there or not, before its next op. */
  lemma EntryBefore<K(!new), V>(less: Order<V>, m: Map<K, V>, log: Log<K, V>, k: K)
    requires Stands(less, m, log)
    ensures var e := EntryAt(m, k);
            && Positive(e.clock) && (forall b :: At(e.clock, b) == Dot(log, m.clock, b, k))
            && WinnerSoFar(less, log, m.clock, k, e.cell)
  {
    if k !in m.entries {
      UnseenKey(less, m, log, k);
      assert forall b :: Dot(log, m.clock, b, k) == 0;
    }
  }

  lemma ClockAfterNext<K(!new), V>(log: Log<K, V>, c: Clock, a: Actor, clock: Clock)
    requires Within(c, log) && At(c, a) < |Ops(log, a)| && Positive(clock)
    requires forall b :: At(clock, b) == Dot(log, c, b, Ops(log, a)[At(c, a)].key)
    ensures var n := At(c, a) + 1;
            Within(c[a := n], log) && ClockStands(log, c[a := n], Ops(log, a)[n - 1].key, Tick(clock, a, n))
  {
    var n := At(c, a) + 1;
    var k, clock' := Ops(log, a)[n - 1].key, Tick(clock, a, n);
    DotAfterNext(log, c, a, a, k);
    forall b ensures At(clock', b) == Dot(log, c[a := n], b, k) {
      DotAfterNext(log, c, a, b, k);
    }
    assert a in clock';
  }

  // ---- Skipping ops.

  /** Every op of `a` after the clock and before op `n` wrote op `n`'s key and
      loses to what that key then holds. */
  ghost predicate Harmless<K(!new), V>(less: Order<V>, m: Map<K, V>, log: Log<K, V>, a: Actor, n: nat)
    requires 0 < n <= |Ops(log, a)|
  {
    var op := OpOf(log, a, n);
    var w := Put(less, EntryAt(m, op.key).cell, op.lww).value;
    forall i :: At(m.clock, a) <= i < n - 1 ==>
                  Ops(log, a)[i].key == op.key && !Before(less, w, Ops(log, a)[i].lww)
  }

  /** Taking a harmless op first and then the later one changes nothing. */
  lemma SkipOne<K(!new), V(!new)>(less: Order<V>, m: Map<K, V>, first: Op<K, V>, then': Op<K, V>)
    requires Total(less) && first.actor == then'.actor && first.key == then'.key
    requires At(m.clock, first.actor) < first.counter < then'.counter
    requires At(EntryAt(m, first.key).clock, first.actor) < first.counter
    requires !Before(less, Put(less, EntryAt(m, first.key).cell, then'.lww).value, first.lww)
    ensures Apply(less, Apply(less, m, first), then') == Apply(less, m, then')
    ensures Put(less, EntryAt(Apply(less, m, first), then'.key).cell, then'.lww)
            == Put(less, EntryAt(m, first.key).cell, then'.lww)
  {
    var a, k, e := first.actor, first.key, EntryAt(m, first.key);
    var l, r := Apply(less, Apply(less, m, first), then'), Apply(less, m, then');
    assert m.clock[a := first.counter][a := then'.counter] == m.clock[a := then'.counter];
    assert e.clock[a := first.counter][a := then'.counter] == e.clock[a := then'.counter];
    assert l.clock == r.clock && l.entries[k] == r.entries[k];
    assert l.entries == r.entries;
  }

  lemma {:induction false} SkipHarmless<K(!new), V(!new)>(
    less: Order<V>, m: Map<K, V>, log: Log<K, V>, a: Actor, n: nat)
    requires Total(less) && Stands(less, m, log)
    requires At(m.clock, a) < n <= |Ops(log, a)| && Harmless(less, m, log, a, n)
    ensures Stands(less, Apply(less, m, OpOf(log, a, n)), log)
    decreases n - At(m.clock, a)
  {
    ApplyNext(less, m, log, a);
    var at := At(m.clock, a);
    if at + 1 < n {
      var first := OpOf(log, a, at + 1);
      EntryBefore(less, m, log, first.key);
      SkipOne(less, m, first, OpOf(log, a, n));
      SkipHarmless(less, Apply(less, m, first), log, a, n);
    }
  }

  /** Exactly when an op may be applied: in sequence, or past ops that could not
      have mattered.  A replica that masks any other op is no longer the map of
      what its clock claims. */
  lemma AppliesSoundlyIff<K(!new), V(!new)>(less: Order<V>, m: Map<K, V>, log: Log<K, V>, a: Actor, n: nat)
    requires Total(less) && Stands(less, m, log) && 0 < n <= |Ops(log, a)|
    ensures Stands(less, Apply(less, m, OpOf(log, a, n)), log)
            <==> n <= At(m.clock, a) + 1 || Harmless(less, m, log, a, n)
  {
    var op := OpOf(log, a, n);
    var m' := Apply(less, m, op);
    if n > At(m.clock, a) && Harmless(less, m, log, a, n) {
      SkipHarmless(less, m, log, a, n);
    } else if n == At(m.clock, a) + 1 {
      ApplyNext(less, m, log, a);
    } else if n > At(m.clock, a) && Stands(less, m', log) {
      assert m'.clock == m.clock[a := n];
      forall i | At(m.clock, a) <= i < n - 1
        ensures Ops(log, a)[i].key == op.key
        ensures !Before(less, Put(less, EntryAt(m, op.key).cell, op.lww).value, Ops(log, a)[i].lww)
      {
        MaskedWrite(less, m, log, a, n, i);
      }
    }
  }

  /** A skipped write is to the op's key and loses. */
  lemma MaskedWrite<K(!new), V(!new)>(less: Order<V>, m: Map<K, V>, log: Log<K, V>, a: Actor, n: nat, i: int)
    requires Total(less) && Stands(less, m, log) && At(m.clock, a) <= i < n - 1 < |Ops(log, a)|
    requires Stands(less, Apply(less, m, OpOf(log, a, n)), log)
    ensures Ops(log, a)[i].key == OpOf(log, a, n).key
    ensures !Before(less, Put(less, EntryAt(m, OpOf(log, a, n).key).cell, OpOf(log, a, n).lww).value,
            Ops(log, a)[i].lww)
  {
    var op := OpOf(log, a, n);
    var m', k := Apply(less, m, op), Ops(log, a)[i].key;
    assert At(m'.clock, a) == n && Seen(log, m'.clock, a, i);
    assert Ops(log, a)[..n][i] == Ops(log, a)[i];
    assert Dot(log, m'.clock, a, k) > i;
    assert At(m'.entries[k].clock, a) > i;
    EntryBefore(less, m, log, k);
    assert k != op.key ==> EntryAt(m', k) == EntryAt(m, k);
  }

  /** What goes wrong otherwise: masking one write to another key lets the next
      merge destroy it on a replica that had it. */
  lemma MaskedWriteIsLost<K(!new), V>(less: Order<V>, k: K, k': K, x: Lww<V>, y: Lww<V>, a: Actor)
    requires k != k'
    ensures var whole := Apply(less, Apply(less, Empty<K, V>(), Op(a, 1, k, x)), Op(a, 2, k', y));
            var gap := Apply(less, Empty<K, V>(), Op(a, 2, k', y));
            && View(whole) == map[k := x.value, k' := y.value]
            && View(Merge(less, whole, gap)) == map[k' := y.value] == View(Merge(less, gap, whole))
  {
    TwoPuts(less, k, k', x, y, a);
    var whole := Map(map[a := 2], map[k := Entry(map[a := 1], Some(x)), k' := Entry(map[a := 2], Some(y))]);
    var gap := Map(map[a := 2], map[k' := Entry(map[a := 2], Some(y))]);
    MergeAroundGap(less, whole, gap, k, k', a);
    MergeAroundGap(less, gap, whole, k, k', a);
  }

  lemma TwoPuts<K(!new), V>(less: Order<V>, k: K, k': K, x: Lww<V>, y: Lww<V>, a: Actor)
    requires k != k'
    ensures Apply(less, Apply(less, Empty<K, V>(), Op(a, 1, k, x)), Op(a, 2, k', y))
            == Map(map[a := 2], map[k := Entry(map[a := 1], Some(x)), k' := Entry(map[a := 2], Some(y))])
    ensures Apply(less, Empty<K, V>(), Op(a, 2, k', y)) == Map(map[a := 2], map[k' := Entry(map[a := 2], Some(y))])
  {
    var one := Apply(less, Empty<K, V>(), Op(a, 1, k, x));
    assert one == Map(map[a := 1], map[k := Entry(map[a := 1], Some(x))]);
    assert one.clock[a := 2] == map[a := 2];
  }

  lemma MergeAroundGap<K(!new), V>(less: Order<V>, x: Map<K, V>, y: Map<K, V>, k: K, k': K, a: Actor)
    requires k != k' && x.clock == y.clock == map[a := 2]
    requires x.entries.Keys + y.entries.Keys == {k, k'} && k' in x.entries && k' in y.entries
    requires x.entries[k'] == y.entries[k'] && x.entries[k'].clock == map[a := 2] && x.entries[k'].cell.Some?
    requires k in x.entries <==> k !in y.entries
    requires k in x.entries ==> x.entries[k].clock == map[a := 1]
    requires k in y.entries ==> y.entries[k].clock == map[a := 1]
    ensures View(Merge(less, x, y)) == map[k' := x.entries[k'].cell.value.value]
  {
    var c := x.clock;
    assert At(KeptClock(c, c, c, c), a) == 2;
    assert a in KeptClock(c, c, c, c) && Survives(x, y, k');
    assert Covers(c, map[a := 1]) && !Survives(x, y, k);
    assert Merge(less, x, y).entries.Keys == {k'};
  }

  // ---- Merging.

  lemma JoinedWithin<K, V>(c: Clock, d: Clock, log: Log<K, V>)
    requires Within(c, log) && Within(d, log)
    ensures Within(Joined(c, d), log)
    ensures forall a :: At(Joined(c, d), a) == Max(At(c, a), At(d, a))
  {
  }

  /** The last dot in the union of two prefixes. */
  lemma JoinedDot<K, V>(c: Clock, d: Clock, log: Log<K, V>, a: Actor, k: K)
    requires Within(c, log) && Within(d, log)
    ensures Within(Joined(c, d), log)
    ensures Dot(log, Joined(c, d), a, k) == Max(Dot(log, c, a, k), Dot(log, d, a, k))
    ensures Dot(log, c, a, k) == Dot(log, d, a, k) || Dot(log, c, a, k) > At(d, a) || Dot(log, d, a, k) > At(c, a)
    ensures Dot(log, c, a, k) <= At(c, a) && Dot(log, d, a, k) <= At(d, a)
  {
    JoinedWithin(c, d, log);
    if At(c, a) <= At(d, a) {
      DotBetween(Ops(log, a), At(c, a), At(d, a), k);
    } else {
      DotBetween(Ops(log, a), At(d, a), At(c, a), k);
    }
  }

  /** One count of a kept clock. */
  lemma KeptAt(ours: Clock, c: Clock, theirs: Clock, d: Clock, a: Actor)
    requires Positive(ours) && Positive(theirs)
    ensures var x, y, kept := At(ours, a), At(theirs, a), KeptClock(ours, c, theirs, d);
            && (x == y ==> At(kept, a) == x)
            && (x > At(d, a) && y <= x ==> At(kept, a) == x)
            && (y > At(c, a) && x <= y ==> At(kept, a) == y)
  {
  }

  lemma KeptPositive(ours: Clock, c: Clock, theirs: Clock, d: Clock)
    requires Positive(ours) && Positive(theirs)
    ensures Positive(KeptClock(ours, c, theirs, d))
  {
  }

  /** A clock that lies past another loses nothing to it. */
  lemma ForgetNothing(c: Clock, d: Clock)
    requires (exists a :: a in c) && forall a :: a in c ==> At(d, a) < c[a]
    ensures Forget(c, d) == c && !Covers(d, c)
  {
    forall a | a in c ensures a in Forget(c, d) {
      assert At(d, a) < c[a];
    }
    var a :| a in c;
    assert At(d, a) < c[a];
  }

  /** An entry's kept clock is its clock in the union. */
  lemma KeptDots<K, V>(log: Log<K, V>, c: Clock, d: Clock, k: K, ours: Clock, theirs: Clock)
    requires Within(c, log) && Within(d, log)
    requires ClockStands(log, c, k, ours) && ClockStands(log, d, k, theirs)
    ensures Within(Joined(c, d), log) && ClockStands(log, Joined(c, d), k, KeptClock(ours, c, theirs, d))
  {
    var kept := KeptClock(ours, c, theirs, d);
    JoinedWithin(c, d, log);
    forall a ensures At(kept, a) == Dot(log, Joined(c, d), a, k) && At(kept, a) >= At(ours, a) {
      JoinedDot(c, d, log, a, k);
      KeptAt(ours, c, theirs, d, a);
    }
    KeptPositive(ours, c, theirs, d);
    var a :| a in ours;
    assert At(kept, a) > 0;
  }

  /** An entry the other side has never seen keeps its whole clock. */
  lemma LoneDots<K, V>(log: Log<K, V>, c: Clock, d: Clock, k: K, ours: Clock)
    requires Within(c, log) && Within(d, log) && ClockStands(log, c, k, ours)
    requires forall a :: Dot(log, d, a, k) == 0
    ensures !Covers(d, ours) && Forget(ours, d) == ours
    ensures Within(Joined(c, d), log) && ClockStands(log, Joined(c, d), k, ours)
  {
    JoinedWithin(c, d, log);
    forall a ensures At(ours, a) == Dot(log, Joined(c, d), a, k) && (a in ours ==> At(d, a) < ours[a]) {
      JoinedDot(c, d, log, a, k);
    }
    ForgetNothing(ours, d);
  }

  lemma WinnerJoins<K, V(!new)>(less: Order<V>, log: Log<K, V>, c: Clock, d: Clock, k: K, x: Lww<V>, y: Lww<V>)
    requires Total(less) && Within(c, log) && Within(d, log)
    requires Winner(less, log, c, k, x) && Winner(less, log, d, k, y)
    ensures Winner(less, log, Joined(c, d), k, Put(less, Some(x), y).value)
  {
    JoinedWithin(c, d, log);
    var w := Put(less, Some(x), y).value;
    if w == y {
      var a, i :| Seen(log, d, a, i) && Ops(log, a)[i] == Write(k, y);
      assert Seen(log, Joined(c, d), a, i);
    } else {
      var a, i :| Seen(log, c, a, i) && Ops(log, a)[i] == Write(k, x);
      assert Seen(log, Joined(c, d), a, i);
    }
    forall a, i | Seen(log, Joined(c, d), a, i) && Ops(log, a)[i].key == k
      ensures !Before(less, w, Ops(log, a)[i].lww)
    {
      assert Seen(log, c, a, i) || Seen(log, d, a, i);
    }
  }

  lemma WinnerAlone<K, V>(less: Order<V>, log: Log<K, V>, c: Clock, d: Clock, k: K, w: Lww<V>)
    requires Within(c, log) && Within(d, log) && Winner(less, log, c, k, w)
    requires forall b, i :: Seen(log, d, b, i) ==> Ops(log, b)[i].key != k
    ensures Winner(less, log, Joined(c, d), k, w)
  {
    JoinedWithin(c, d, log);
    var a, i :| Seen(log, c, a, i) && Ops(log, a)[i] == Write(k, w);
    assert Seen(log, Joined(c, d), a, i);
    forall a, i | Seen(log, Joined(c, d), a, i) && Ops(log, a)[i].key == k
      ensures !Before(less, w, Ops(log, a)[i].lww)
    {
      assert Seen(log, c, a, i) || Seen(log, d, a, i);
    }
  }

  lemma JoinedSymmetric(c: Clock, d: Clock)
    ensures Joined(c, d) == Joined(d, c)
  {
  }

  lemma JoinedAssociative(c: Clock, d: Clock, e: Clock)
    ensures Joined(Joined(c, d), e) == Joined(c, Joined(d, e))
  {
    var cd, de := Joined(c, d), Joined(d, e);
    assert Joined(cd, e).Keys == Joined(c, de).Keys;
    forall a ensures At(Joined(cd, e), a) == At(Joined(c, de), a) {
      JoinedAt(c, d, a);
      JoinedAt(d, e, a);
      JoinedAt(cd, e, a);
      JoinedAt(c, de, a);
    }
    SameCounts(Joined(cd, e), Joined(c, de));
  }

  lemma JoinedAt(c: Clock, d: Clock, a: Actor)
    ensures a in Joined(c, d) <==> a in c || a in d
    ensures At(Joined(c, d), a) == Max(At(c, a), At(d, a))
  {
  }

  lemma SameCounts(c: Clock, d: Clock)
    requires c.Keys == d.Keys && forall a :: At(c, a) == At(d, a)
    ensures c == d
  {
    forall a | a in c ensures c[a] == d[a] {
      assert At(c, a) == At(d, a);
    }
  }

  /** A key of either side survives, with the entry of the union. */
  lemma MergeKey<K(!new), V(!new)>(less: Order<V>, m: Map<K, V>, other: Map<K, V>, log: Log<K, V>, k: K)
    requires Total(less) && Stands(less, m, log) && Stands(less, other, log)
    requires k in m.entries || k in other.entries
    ensures Survives(m, other, k) && Within(Joined(m.clock, other.clock), log)
    ensures EntryStands(less, log, Joined(m.clock, other.clock), k, MergedEntry(less, m, other, k))
  {
    JoinedWithin(m.clock, other.clock, log);
    if k !in other.entries {
      UnseenKey(less, other, log, k);
      LoneDots(log, m.clock, other.clock, k, m.entries[k].clock);
      WinnerAlone(less, log, m.clock, other.clock, k, m.entries[k].cell.value);
    } else if k !in m.entries {
      JoinedSymmetric(m.clock, other.clock);
      UnseenKey(less, m, log, k);
      LoneDots(log, other.clock, m.clock, k, other.entries[k].clock);
      WinnerAlone(less, log, other.clock, m.clock, k, other.entries[k].cell.value);
    } else {
      KeptDots(log, m.clock, other.clock, k, m.entries[k].clock, other.entries[k].clock);
      WinnerJoins(less, log, m.clock, other.clock, k, m.entries[k].cell.value, other.entries[k].cell.value);
    }
  }

  lemma MergeKeys<K(!new), V(!new)>(less: Order<V>, m: Map<K, V>, other: Map<K, V>, log: Log<K, V>)
    requires Total(less) && Stands(less, m, log) && Stands(less, other, log)
    ensures Merge(less, m, other).entries.Keys == m.entries.Keys + other.entries.Keys
  {
    forall k | k in m.entries.Keys + other.entries.Keys ensures Survives(m, other, k) {
      MergeKey(less, m, other, log, k);
    }
  }

  /** Merging two replicas gives exactly the map of both prefixes together: no
      entry is dropped, although the library has branches that drop entries. */
  lemma MergeStands<K(!new), V(!new)>(less: Order<V>, m: Map<K, V>, other: Map<K, V>, log: Log<K, V>)
    requires Total(less) && Stands(less, m, log) && Stands(less, other, log)
    ensures Stands(less, Merge(less, m, other), log)
    ensures Merge(less, m, other).clock == Joined(m.clock, other.clock)
    ensures Merge(less, m, other).entries.Keys == m.entries.Keys + other.entries.Keys
  {
    var r := Merge(less, m, other);
    JoinedWithin(m.clock, other.clock, log);
    MergeKeys(less, m, other, log);
    forall k | k in r.entries ensures EntryStands(less, log, r.clock, k, r.entries[k]) {
      assert k in m.entries.Keys + other.entries.Keys;
      MergeKey(less, m, other, log, k);
    }
    forall k, a | Dot(log, r.clock, a, k) > 0 ensures k in r.entries {
      JoinedDot(m.clock, other.clock, log, a, k);
      assert Dot(log, m.clock, a, k) > 0 || Dot(log, other.clock, a, k) > 0;
    }
  }

  function CellAt<K(==), V>(m: Map<K, V>, k: K): Cell<V> {
    EntryAt(m, k).cell
  }

  /** No entry without a value. */
  ghost predicate Filled<K, V>(m: Map<K, V>) {
    forall k :: k in m.entries ==> m.entries[k].cell.Some?
  }

  /** `xy` has every key of `x` and `y`, with their cells joined. */
  ghost predicate JoinsCells<K, V>(less: Order<V>, x: Map<K, V>, y: Map<K, V>, xy: Map<K, V>) {
    && xy.entries.Keys == x.entries.Keys + y.entries.Keys
    && forall k :: k in xy.entries ==> xy.entries[k].cell == Join(less, CellAt(x, k), CellAt(y, k))
  }

  /** What a merge does to the values of two replicas of one log. */
  lemma MergeCells<K(!new), V(!new)>(less: Order<V>, x: Map<K, V>, y: Map<K, V>, log: Log<K, V>)
    requires Total(less) && Stands(less, x, log) && Stands(less, y, log)
    ensures Filled(x) && Filled(y) && JoinsCells(less, x, y, Merge(less, x, y))
  {
    MergeKeys(less, x, y, log);
    assert Filled(x) && Filled(y);
    MergedCells(less, x, y);
  }

  lemma MergedCells<K, V>(less: Order<V>, x: Map<K, V>, y: Map<K, V>)
    requires Filled(x) && Filled(y)
    ensures forall k :: k in Merge(less, x, y).entries ==>
                          Merge(less, x, y).entries[k].cell == Join(less, CellAt(x, k), CellAt(y, k))
  {
  }

  /** How to recognise a merge. */
  lemma MergeIs<K, V>(less: Order<V>, x: Map<K, V>, y: Map<K, V>, xy: Map<K, V>)
    requires xy.clock == Joined(x.clock, y.clock) && xy.entries.Keys == x.entries.Keys + y.entries.Keys
    requires forall k :: k in xy.entries ==> Survives(x, y, k) && xy.entries[k] == MergedEntry(less, x, y, k)
    ensures Merge(less, x, y) == xy
  {
    assert Merge(less, x, y).entries.Keys == xy.entries.Keys;
    assert Merge(less, x, y).entries == xy.entries;
  }

  // ---- Convergence.

  lemma WinnerUnique<K, V(!new)>(less: Order<V>, log: Log<K, V>, c: Clock, k: K, x: Lww<V>, y: Lww<V>)
    requires Total(less) && Winner(less, log, c, k, x) && Winner(less, log, c, k, y)
    ensures x == y
  {
    var a, i :| Seen(log, c, a, i) && Ops(log, a)[i] == Write(k, x);
    var b, j :| Seen(log, c, b, j) && Ops(log, b)[j] == Write(k, y);
    assert !Before(less, x, y) && !Before(less, y, x);
  }

  lemma EntryUnique<K, V(!new)>(less: Order<V>, log: Log<K, V>, c: Clock, k: K, e: Entry<V>, f: Entry<V>)
    requires Total(less) && Within(c, log)
    requires EntryStands(less, log, c, k, e) && EntryStands(less, log, c, k, f)
    ensures e == f
  {
    WinnerUnique(less, log, c, k, e.cell.value, f.cell.value);
    forall a ensures a in e.clock <==> a in f.clock {
      assert At(e.clock, a) == At(f.clock, a);
    }
    forall a | a in e.clock ensures e.clock[a] == f.clock[a] {
      assert At(e.clock, a) == At(f.clock, a);
    }
    assert e.clock == f.clock;
  }

  /** Strong convergence: two replicas that have taken the same ops, by whatever
      mixture of applying and merging, are equal, clocks and all. */
  lemma SameClockSameMap<K(!new), V(!new)>(less: Order<V>, m: Map<K, V>, m': Map<K, V>, log: Log<K, V>)
    requires Total(less) && Stands(less, m, log) && Stands(less, m', log) && m.clock == m'.clock
    ensures m == m'
  {
    forall k ensures k in m.entries <==> k in m'.entries {
      if k in m.entries {
        var a :| a in m.entries[k].clock;
        assert Dot(log, m'.clock, a, k) > 0;
      }
      if k in m'.entries {
        var a :| a in m'.entries[k].clock;
        assert Dot(log, m.clock, a, k) > 0;
      }
    }
    forall k | k in m.entries ensures m.entries[k] == m'.entries[k] {
      EntryUnique(less, log, m.clock, k, m.entries[k], m'.entries[k]);
    }
    assert m.entries == m'.entries;
  }

  /** Merge is commutative, associative and idempotent on replicas of one log,
      and merging again what was merged before changes nothing. */
  lemma MergeCommutes<K(!new), V(!new)>(less: Order<V>, x: Map<K, V>, y: Map<K, V>, log: Log<K, V>)
    requires Total(less) && Stands(less, x, log) && Stands(less, y, log)
    ensures Merge(less, x, y) == Merge(less, y, x)
  {
    MergeStands(less, x, y, log);
    MergeStands(less, y, x, log);
    JoinedSymmetric(x.clock, y.clock);
    SameClockSameMap(less, Merge(less, x, y), Merge(less, y, x), log);
  }

  lemma MergeAssociates<K(!new), V(!new)>(less: Order<V>, x: Map<K, V>, y: Map<K, V>, z: Map<K, V>, log: Log<K, V>)
    requires Total(less) && Stands(less, x, log) && Stands(less, y, log) && Stands(less, z, log)
    ensures Merge(less, Merge(less, x, y), z) == Merge(less, x, Merge(less, y, z))
  {
    MergeStands(less, x, y, log);
    MergeStands(less, y, z, log);
    MergeStands(less, Merge(less, x, y), z, log);
    MergeStands(less, x, Merge(less, y, z), log);
    JoinedAssociative(x.clock, y.clock, z.clock);
    SameClockSameMap(less, Merge(less, Merge(less, x, y), z), Merge(less, x, Merge(less, y, z)), log);
  }

  lemma MergeRepeats<K(!new), V(!new)>(less: Order<V>, x: Map<K, V>, y: Map<K, V>, log: Log<K, V>)
    requires Total(less) && Stands(less, x, log) && Stands(less, y, log)
    ensures Merge(less, Merge(less, x, y), y) == Merge(less, x, y)
  {
    MergeStands(less, x, y, log);
    JoinedTwice(x.clock, y.clock);
    MergeAgain(less, Merge(less, x, y), y, log);
  }

  lemma JoinedTwice(c: Clock, d: Clock)
    ensures Joined(Joined(c, d), d) == Joined(c, d)
  {
  }

  /** Merging a replica whose clock is already covered changes nothing. */
  lemma MergeAgain<K(!new), V(!new)>(less: Order<V>, m: Map<K, V>, y: Map<K, V>, log: Log<K, V>)
    requires Total(less) && Stands(less, m, log) && Stands(less, y, log) && Joined(m.clock, y.clock) == m.clock
    ensures Merge(less, m, y) == m
  {
    MergeStands(less, m, y, log);
    SameClockSameMap(less, Merge(less, m, y), m, log);
  }

  // ---- New ops.

  ghost predicate Extends<K, V>(log: Log<K, V>, log': Log<K, V>) {
    forall a :: Ops(log, a) <= Ops(log', a)
  }

  /** What was said of a replica stays true as origins issue more ops. */
  lemma StandsAsLogGrows<K(!new), V>(less: Order<V>, m: Map<K, V>, log: Log<K, V>, log': Log<K, V>)
    requires Stands(less, m, log) && Extends(log, log')
    ensures Stands(less, m, log')
  {
    forall a, k ensures Dot(log', m.clock, a, k) == Dot(log, m.clock, a, k) {
      assert Ops(log', a)[..At(m.clock, a)] == Ops(log, a)[..At(m.clock, a)];
    }
    forall k | k in m.entries ensures EntryStands(less, log', m.clock, k, m.entries[k]) {
      var w := m.entries[k].cell.value;
      var a, i :| Seen(log, m.clock, a, i) && Ops(log, a)[i] == Write(k, w);
      assert Seen(log', m.clock, a, i) && Ops(log', a)[i] == Write(k, w);
      forall a, i | Seen(log', m.clock, a, i) && Ops(log', a)[i].key == k
        ensures !Before(less, w, Ops(log', a)[i].lww)
      {
        assert Seen(log, m.clock, a, i) && Ops(log', a)[i] == Ops(log, a)[i];
      }
    }
  }

  /** An origin's own write: it takes its next dot and logs the op. */
  lemma PutStands<K(!new), V(!new)>(less: Order<V>, m: Map<K, V>, log: Log<K, V>, a: Actor, k: K, lww: Lww<V>)
    requires Total(less) && Stands(less, m, log) && At(m.clock, a) == |Ops(log, a)|
    ensures var log' := log[a := Ops(log, a) + [Write(k, lww)]];
            && Extends(log, log')
            && Stands(less, Apply(less, m, Op(a, At(m.clock, a) + 1, k, lww)), log')
  {
    var log' := log[a := Ops(log, a) + [Write(k, lww)]];
    assert Extends(log, log');
    StandsAsLogGrows(less, m, log, log');
    ApplyNext(less, m, log', a);
  }

  lemma EmptyStands<K(!new), V>(less: Order<V>, log: Log<K, V>)
    ensures Stands(less, Empty<K, V>(), log)
  {
  }
}
