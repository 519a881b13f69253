/** Every op travels twice, once on a reliable in-order stream and once as a
    datagram that may be lost, repeated or overtake others, to any number of
    receivers, which also merge each other's whole states.  Only playback
    positions may have no reliable copy. */
module Delivery {
  import opened CrdtState
  import opened Lww
  import opened LwwMap
  import opened Sorted
  import opened Wrappers

  /** The ops each origin has issued, in order. */
  type Streams<!K, !V, !C> = map<Actor, seq<CrdtOp<K, V, C>>>

  function StreamOf<K, V, C>(ss: Streams<K, V, C>, a: Actor): seq<CrdtOp<K, V, C>> {
    if a in ss then ss[a] else []
  }

  predicate On<K, V, C>(op: CrdtOp<K, V, C>, f: MapField) {
    op.MapOp? && op.map' == f
  }

  /** An origin's writes to one collection. */
  function Writes<K, V, C>(ops: seq<CrdtOp<K, V, C>>, f: MapField): seq<Write<K, V>> {
    if ops == [] then []
    else
      var last := ops[|ops| - 1];
      Writes(ops[..|ops| - 1], f) + (if On(last, f) then [Write(last.op.key, last.op.lww)] else [])
  }

  /** Every collection op carries its origin and its place among the origin's
      ops on that collection. */
  ghost predicate Numbered<K, V, C>(ss: Streams<K, V, C>) {
    forall a, i :: Issued(ss, a, i) && StreamOf(ss, a)[i].MapOp? ==>
                     var o := StreamOf(ss, a)[i];
                     o.op.actor == a && o.op.counter == |Writes(StreamOf(ss, a)[..i], o.map')| + 1
  }

  predicate Issued<K, V, C>(ss: Streams<K, V, C>, a: Actor, i: int) {
    0 <= i < |StreamOf(ss, a)|
  }

  /** A playback position, whose reliable copy may never be sent. */
  predicate Lossy<K, V, C>(op: CrdtOp<K, V, C>) {
    On(op, PlaybackPosition)
  }

  /** Writes to one key with rising stamps. */
  predicate Rising<K(==), V>(writes: seq<Write<K, V>>) {
    forall i, j :: 0 <= i < j < |writes| ==>
                     writes[i].key == writes[j].key && writes[i].lww.timestamp < writes[j].lww.timestamp
  }

  /** An origin reports positions for one user, each newer than the last. */
  ghost predicate Ticking<K, V, C>(ss: Streams<K, V, C>) {
    forall a :: a in ss ==> Rising(Writes(ss[a], PlaybackPosition))
  }

  function LogOf<K, V, C>(ss: Streams<K, V, C>, f: MapField): Log<K, V> {
    map a | a in ss :: Writes(ss[a], f)
  }

  lemma OpsOfLog<K, V, C>(ss: Streams<K, V, C>, f: MapField, a: Actor)
    ensures Ops(LogOf(ss, f), a) == Writes(StreamOf(ss, a), f)
  {
  }

  lemma {:induction false} WritesPrefix<K, V, C>(ops: seq<CrdtOp<K, V, C>>, i: nat, f: MapField)
    requires i <= |ops|
    ensures Writes(ops[..i], f) <= Writes(ops, f)
    decreases |ops| - i
  {
    if i == |ops| {
      assert ops[..i] == ops;
    } else {
      WritesPrefix(ops, i + 1, f);
      assert ops[..i + 1][..i] == ops[..i];
    }
  }

  /** An op's place in its collection's log. */
  lemma WritesAt<K, V, C>(ops: seq<CrdtOp<K, V, C>>, i: nat, f: MapField)
    requires i < |ops| && On(ops[i], f)
    ensures var n := |Writes(ops[..i], f)|;
            n < |Writes(ops, f)| && Writes(ops, f)[n] == Write(ops[i].op.key, ops[i].op.lww)
            && |Writes(ops[..i + 1], f)| == n + 1
  {
    assert ops[..i + 1][..i] == ops[..i];
    WritesPrefix(ops, i + 1, f);
  }

  /** Later ops of one origin on one collection have larger numbers. */
  lemma NumbersAscend<K, V, C>(ops: seq<CrdtOp<K, V, C>>, i: nat, j: nat, f: MapField)
    requires i < j <= |ops| && On(ops[i], f)
    ensures |Writes(ops[..i], f)| < |Writes(ops[..j], f)|
  {
    WritesAt(ops, i, f);
    WritesPrefix(ops[..j], i + 1, f);
    assert ops[..j][..i + 1] == ops[..i + 1];
  }

  // ---- Receivers.

  datatype Receiver<K(==), V(==), C(==)> = Receiver(
    state: State<K, V, C>,
    delivered: Clock,                 // per origin: reliable copies received
    fanned: map<(Actor, int), nat>,   // per op: copies that were sent on
    brought: set<(Actor, int)>)       // collection ops that merges were first to bring

  function Times(fanned: map<(Actor, int), nat>, a: Actor, i: int): nat {
    if (a, i) in fanned then fanned[(a, i)] else 0
  }

  function NewReceiver<K(==), V(==), C(==)>(): Receiver<K, V, C> {
    Receiver(State(map[], map[], map[], {}), map[], map[], {})
  }

  /** One copy of op `i` of `a` arrives. */
  function Deliver<K(==), V(==), C(==)>(
    less: Order<V>, ss: Streams<K, V, C>, r: Receiver<K, V, C>, a: Actor, i: int, viaDatagram: bool): Receiver<K, V, C>
    requires Issued(ss, a, i)
  {
    var op := StreamOf(ss, a)[i];
    var taken := Taken(less, r.state, op, viaDatagram);
    Receiver(if taken then Applied(less, r.state, op) else r.state,
             if viaDatagram then r.delivered else r.delivered[a := i + 1],
             if taken then r.fanned[(a, i) := Times(r.fanned, a, i) + 1] else r.fanned,
             r.brought)
  }

  /** The collection ops that are new to `s` and not to `s'`. */
  function Gained<K(==), V(==), C(==)>(
    less: Order<V>, ss: Streams<K, V, C>, s: State<K, V, C>, s': State<K, V, C>): set<(Actor, int)>
  {
    set a, i | a in ss && 0 <= i < |ss[a]| && ss[a][i].MapOp? && Fresh(less, s, ss[a][i]) && !Fresh(less, s', ss[a][i])
      :: (a, i)
  }

  /** Another receiver's whole state is merged in.  After a reconnect the reliable
      streams go on from where either of the two had got to. */
  function Takes<K(==), V(==), C(==)>(
    less: Order<V>, ss: Streams<K, V, C>, r: Receiver<K, V, C>, other: Receiver<K, V, C>, resumes: bool)
    : Receiver<K, V, C>
  {
    var s' := Merged(less, r.state, other.state);
    Receiver(s', if resumes then Joined(r.delivered, other.delivered) else r.delivered, r.fanned,
             r.brought + Gained(less, ss, r.state, s'))
  }

  datatype Net<!K(==), !V(==), !C(==)> = Net(streams: Streams<K, V, C>, receivers: seq<Receiver<K, V, C>>)

  datatype Event<+K, +V, +C> =
    | IssueMap(origin: Actor, map': MapField, key: K, lww: Lww<V>)
    | IssueFree(origin: Actor, op: CrdtOp<K, V, C>)
    | ArriveReliable(receiver: nat, origin: Actor)
    | ArriveDatagram(receiver: nat, origin: Actor, index: int)
    | PassOver(receiver: nat, origin: Actor)
    | MergeFrom(receiver: nat, other: nat, resumes: bool)

  /** The net after an event; an event that cannot happen changes nothing. */
  function Next<K(==), V(==), C(==)>(less: Order<V>, net: Net<K, V, C>, e: Event<K, V, C>): Net<K, V, C> {
    var ss, rs := net.streams, net.receivers;
    match e
    case IssueMap(a, f, k, lww) =>
      var op := MapOp(f, Op(a, |Writes(StreamOf(ss, a), f)| + 1, k, lww));
      if f == PlaybackPosition && !Rising(Writes(StreamOf(ss, a), f) + [Write(k, lww)]) then net
      else net.(streams := ss[a := StreamOf(ss, a) + [op]])
    case IssueFree(a, op) =>
      if op.MapOp? then net else net.(streams := ss[a := StreamOf(ss, a) + [op]])
    case ArriveReliable(x, a) =>
      if x >= |rs| || !Issued(ss, a, At(rs[x].delivered, a)) then net
      else net.(receivers := rs[x := Deliver(less, ss, rs[x], a, At(rs[x].delivered, a), false)])
    case ArriveDatagram(x, a, i) =>
      if x >= |rs| || !Issued(ss, a, i) then net
      else net.(receivers := rs[x := Deliver(less, ss, rs[x], a, i, true)])
    case PassOver(x, a) =>
      if x >= |rs| || !Issued(ss, a, At(rs[x].delivered, a)) || !Lossy(StreamOf(ss, a)[At(rs[x].delivered, a)]) then net
      else net.(receivers := rs[x := rs[x].(delivered := rs[x].delivered[a := At(rs[x].delivered, a) + 1])])
    case MergeFrom(x, y, resumes) =>
      if x >= |rs| || y >= |rs| then net
      else net.(receivers := rs[x := Takes(less, ss, rs[x], rs[y], resumes)])
  }

  function Run<K(==), V(==), C(==)>(less: Order<V>, net: Net<K, V, C>, events: seq<Event<K, V, C>>): Net<K, V, C>
    decreases |events|
  {
    if events == [] then net else Run(less, Next(less, net, events[0]), events[1..])
  }

  // ---- The invariant of one receiver.

  /** Every collection is exactly a prefix of every origin's ops. */
  ghost predicate Gapless<K(!new), V, C>(less: Order<V>, ss: Streams<K, V, C>, s: State<K, V, C>) {
    forall f :: Stands(less, s.MapAt(f), LogOf(ss, f))
  }

  /** The issued ops that would change nothing any more. */
  ghost function Absorbed<K, V, C>(less: Order<V>, ss: Streams<K, V, C>, s: State<K, V, C>): iset<(Actor, int)> {
    iset a, i | Issued(ss, a, i) && !Fresh(less, s, StreamOf(ss, a)[i]) :: (a, i)
  }

  ghost predicate Settled<K, V, C>(ss: Streams<K, V, C>, absorbed: iset<(Actor, int)>, a: Actor, i: int) {
    (a, i) in absorbed || (Issued(ss, a, i) && Lossy(StreamOf(ss, a)[i]))
  }

  /** The reliable copies received so far are all in the state, and so is all they
      passed but for positions. */
  ghost predicate UpToDate<K, V, C>(ss: Streams<K, V, C>, delivered: Clock, absorbed: iset<(Actor, int)>) {
    && (forall a :: At(delivered, a) <= |StreamOf(ss, a)|)
    && (forall a, i :: 0 <= i < At(delivered, a) ==> Settled(ss, absorbed, a, i))
  }

  /** Everything in a register, set or the chat was issued by someone. */
  ghost predicate Sourced<K, V, C>(ss: Streams<K, V, C>, s: State<K, V, C>) {
    && (forall f :: s.RegAt(f).Some? ==> exists a, i :: Holds(ss, a, i, RegOp(f, s.RegAt(f).value)))
    && (forall f, x :: x in s.SetAt(f) ==> exists a, i :: Holds(ss, a, i, SetOp(f, x)))
    && (forall c :: c in s.chat ==> exists a, i :: Holds(ss, a, i, ChatOp(c)))
  }

  predicate Holds<K(==), V(==), C(==)>(ss: Streams<K, V, C>, a: Actor, i: int, op: CrdtOp<K, V, C>) {
    Issued(ss, a, i) && StreamOf(ss, a)[i] == op
  }

  ghost predicate SentOrBrought<K, V, C>(
    ss: Streams<K, V, C>, fanned: map<(Actor, int), nat>, brought: set<(Actor, int)>, absorbed: iset<(Actor, int)>,
    a: Actor, i: int)
  {
    && Times(fanned, a, i) <= 1
    && (Times(fanned, a, i) == 1 || (a, i) in brought ==> (a, i) in absorbed)
    && !(Times(fanned, a, i) == 1 && (a, i) in brought)
    && (Issued(ss, a, i) && StreamOf(ss, a)[i].MapOp? && !Lossy(StreamOf(ss, a)[i]) && (a, i) in absorbed ==>
          Times(fanned, a, i) == 1 || (a, i) in brought)
  }

  /** Only absorbed ops were sent on, each once, and every collection op in the
      state was sent on or else brought by a merge, positions aside. */
  ghost predicate SentOnce<K, V, C>(
    ss: Streams<K, V, C>, fanned: map<(Actor, int), nat>, brought: set<(Actor, int)>, absorbed: iset<(Actor, int)>) {
    forall a, i :: SentOrBrought(ss, fanned, brought, absorbed, a, i)
  }

  ghost predicate Sound<K(!new), V, C>(less: Order<V>, ss: Streams<K, V, C>, r: Receiver<K, V, C>) {
    && Gapless(less, ss, r.state) && Sourced(ss, r.state)
    && UpToDate(ss, r.delivered, Absorbed(less, ss, r.state))
    && SentOnce(ss, r.fanned, r.brought, Absorbed(less, ss, r.state))
  }

  // ---- One copy arrives.

  /** All of an origin's writes before op `i` are in, once its earlier ops are. */
  lemma {:induction false} EarlierAreIn<K(!new), V, C>(
    less: Order<V>, ss: Streams<K, V, C>, s: State<K, V, C>, a: Actor, i: int, f: MapField)
    requires Numbered(ss) && 0 <= i <= |StreamOf(ss, a)| && f != PlaybackPosition
    requires forall j :: 0 <= j < i ==> Settled(ss, Absorbed(less, ss, s), a, j)
    ensures |Writes(StreamOf(ss, a)[..i], f)| <= At(s.MapAt(f).clock, a)
    decreases i
  {
    if i > 0 {
      EarlierAreIn(less, ss, s, a, i - 1, f);
      assert StreamOf(ss, a)[..i][..i - 1] == StreamOf(ss, a)[..i - 1];
      assert Issued(ss, a, i - 1) && Settled(ss, Absorbed(less, ss, s), a, i - 1);
    }
  }

  lemma NextOp<K, V, C>(ss: Streams<K, V, C>, a: Actor, i: int)
    requires Numbered(ss) && Issued(ss, a, i) && StreamOf(ss, a)[i].MapOp?
    ensures var op := StreamOf(ss, a)[i];
            0 < op.op.counter <= |Ops(LogOf(ss, op.map'), a)| && OpOf(LogOf(ss, op.map'), a, op.op.counter) == op.op
  {
    OpsOfLog(ss, StreamOf(ss, a)[i].map', a);
    WritesAt(StreamOf(ss, a), i, StreamOf(ss, a)[i].map');
  }

  lemma TakingOn<K, V, C>(less: Order<V>, s: State<K, V, C>, op: CrdtOp<K, V, C>, f: MapField)
    ensures Applied(less, s, op).MapAt(f) == if On(op, f) then Apply(less, s.MapAt(f), op.op) else s.MapAt(f)
  {
  }

  /** An op that may follow what the state holds: the next of its origin, or a newer
      position. */
  predicate Follows<K(==), V(==), C(==)>(s: State<K, V, C>, op: CrdtOp<K, V, C>) {
    Orderly(s, op) || (Lossy(op) && At(s.MapAt(op.map').clock, op.op.actor) < op.op.counter)
  }

  /** Positions passed over could not have mattered once a later one is in. */
  lemma PositionsHarmless<K(!new), V(!new)>(less: Order<V>, m: Map<K, V>, log: Log<K, V>, a: Actor, n: nat)
    requires 0 < n <= |Ops(log, a)| && Rising(Ops(log, a))
    ensures Harmless(less, m, log, a, n)
  {
    var writes := Ops(log, a);
    forall i | At(m.clock, a) <= i < n - 1
      ensures writes[i].key == writes[n - 1].key && writes[i].lww.timestamp < writes[n - 1].lww.timestamp
    {
    }
  }

  lemma TakingKeepsField<K(!new), V(!new), C>(
    less: Order<V>, ss: Streams<K, V, C>, m: Map<K, V>, a: Actor, i: int, f: MapField)
    requires Total(less) && Numbered(ss) && Stands(less, m, LogOf(ss, f)) && Issued(ss, a, i)
    requires On(StreamOf(ss, a)[i], f)
    requires var n := StreamOf(ss, a)[i].op.counter;
             At(m.clock, a) + 1 == n || (At(m.clock, a) < n && f == PlaybackPosition && Ticking(ss))
    ensures Stands(less, Apply(less, m, StreamOf(ss, a)[i].op), LogOf(ss, f))
  {
    NextOp(ss, a, i);
    var n := StreamOf(ss, a)[i].op.counter;
    if At(m.clock, a) + 1 == n {
      ApplyNext(less, m, LogOf(ss, f), a);
    } else {
      PositionsHarmless(less, m, LogOf(ss, f), a, n);
      SkipHarmless(less, m, LogOf(ss, f), a, n);
    }
  }

  lemma TakingKeepsGapless<K(!new), V(!new), C>(
    less: Order<V>, ss: Streams<K, V, C>, s: State<K, V, C>, a: Actor, i: int, f: MapField)
    requires Total(less) && Numbered(ss) && Ticking(ss) && Stands(less, s.MapAt(f), LogOf(ss, f)) && Issued(ss, a, i)
    requires Follows(s, StreamOf(ss, a)[i])
    ensures Stands(less, Applied(less, s, StreamOf(ss, a)[i]).MapAt(f), LogOf(ss, f))
  {
    TakingOn(less, s, StreamOf(ss, a)[i], f);
    if On(StreamOf(ss, a)[i], f) {
      TakingKeepsField(less, ss, s.MapAt(f), a, i, f);
    }
  }

  /** What was absorbed stays absorbed. */
  lemma TakingAbsorbs<K, V(!new), C>(less: Order<V>, s: State<K, V, C>, op: CrdtOp<K, V, C>, p: CrdtOp<K, V, C>)
    requires Total(less) && !Fresh(less, s, p)
    ensures !Fresh(less, Applied(less, s, op), p)
  {
  }

  lemma TakingAbsorbsItself<K, V(!new), C>(less: Order<V>, s: State<K, V, C>, op: CrdtOp<K, V, C>)
    requires Total(less)
    ensures !Fresh(less, Applied(less, s, op), op)
  {
  }

  /** A taken collection op makes no other op stale, positions aside. */
  lemma TakingStalesOne<K, V, C>(
    less: Order<V>, ss: Streams<K, V, C>, s: State<K, V, C>, a: Actor, i: int, b: Actor, j: int)
    requires Numbered(ss) && Issued(ss, a, i) && Issued(ss, b, j) && (a, i) != (b, j)
    requires StreamOf(ss, a)[i].MapOp? && StreamOf(ss, b)[j].MapOp? && !Lossy(StreamOf(ss, b)[j])
    requires Follows(s, StreamOf(ss, a)[i])
    requires Fresh(less, s, StreamOf(ss, b)[j])
    ensures Fresh(less, Applied(less, s, StreamOf(ss, a)[i]), StreamOf(ss, b)[j])
  {
    var op, p := StreamOf(ss, a)[i], StreamOf(ss, b)[j];
    if a == b && op.map' == p.map' {
      if i < j {
        NumbersAscend(StreamOf(ss, a), i, j, op.map');
      } else {
        NumbersAscend(StreamOf(ss, a), j, i, op.map');
      }
    }
  }

  lemma TakingKeepsSourced<K, V, C>(less: Order<V>, ss: Streams<K, V, C>, s: State<K, V, C>, a: Actor, i: int)
    requires Sourced(ss, s) && Issued(ss, a, i)
    ensures Sourced(ss, Applied(less, s, StreamOf(ss, a)[i]))
  {
    var op := StreamOf(ss, a)[i];
    var s' := Applied(less, s, op);
    assert Holds(ss, a, i, op);
    forall f | s'.RegAt(f).Some? ensures exists b, j :: Holds(ss, b, j, RegOp(f, s'.RegAt(f).value)) {
      assert s'.RegAt(f) == s.RegAt(f) || RegOp(f, s'.RegAt(f).value) == op;
    }
    forall f, x | x in s'.SetAt(f) ensures exists b, j :: Holds(ss, b, j, SetOp(f, x)) {
      assert x in s.SetAt(f) || SetOp(f, x) == op;
    }
    forall c | c in s'.chat ensures exists b, j :: Holds(ss, b, j, ChatOp(c)) {
      assert c in s.chat || ChatOp(c) == op;
    }
  }

  /** Taking an op absorbs it, and no other collection op but positions. */
  ghost predicate Adds<K, V, C>(
    ss: Streams<K, V, C>, was: iset<(Actor, int)>, now: iset<(Actor, int)>, a: Actor, i: int) {
    && was <= now && (a, i) in now
    && (forall b, j :: (b, j) in now && Issued(ss, b, j) && StreamOf(ss, b)[j].MapOp? && !Lossy(StreamOf(ss, b)[j]) ==>
                         (b, j) in was || (b, j) == (a, i))
  }

  lemma TakingAdds<K, V(!new), C>(less: Order<V>, ss: Streams<K, V, C>, s: State<K, V, C>, a: Actor, i: int)
    requires Total(less) && Numbered(ss) && Issued(ss, a, i) && Follows(s, StreamOf(ss, a)[i])
    ensures var s' := Applied(less, s, StreamOf(ss, a)[i]);
            Adds(ss, Absorbed(less, ss, s), Absorbed(less, ss, s'), a, i)
  {
    var op := StreamOf(ss, a)[i];
    var s' := Applied(less, s, op);
    TakingAbsorbsItself(less, s, op);
    forall b, j | Issued(ss, b, j) && !Fresh(less, s, StreamOf(ss, b)[j])
      ensures !Fresh(less, s', StreamOf(ss, b)[j])
    {
      TakingAbsorbs(less, s, op, StreamOf(ss, b)[j]);
    }
    forall b, j | && Issued(ss, b, j) && StreamOf(ss, b)[j].MapOp? && !Lossy(StreamOf(ss, b)[j])
                  && (b, j) != (a, i) && Fresh(less, s, StreamOf(ss, b)[j])
      ensures Fresh(less, s', StreamOf(ss, b)[j])
    {
      if op.MapOp? {
        TakingStalesOne(less, ss, s, a, i, b, j);
      }
    }
  }

  /** Counting one copy sent on. */
  lemma TakenOnce<K, V, C>(ss: Streams<K, V, C>, fanned: map<(Actor, int), nat>, brought: set<(Actor, int)>,
                           was: iset<(Actor, int)>, now: iset<(Actor, int)>, a: Actor, i: int)
    requires SentOnce(ss, fanned, brought, was) && (a, i) !in was && Adds(ss, was, now, a, i)
    ensures SentOnce(ss, fanned[(a, i) := Times(fanned, a, i) + 1], brought, now)
  {
    var fanned' := fanned[(a, i) := Times(fanned, a, i) + 1];
    assert SentOrBrought(ss, fanned, brought, was, a, i);
    forall b, j ensures SentOrBrought(ss, fanned', brought, now, b, j) {
      assert SentOrBrought(ss, fanned, brought, was, b, j);
      assert Times(fanned', b, j) == if (b, j) == (a, i) then 1 else Times(fanned, b, j);
    }
  }

  lemma StaysUpToDate<K, V, C>(ss: Streams<K, V, C>, delivered: Clock, delivered': Clock,
                               was: iset<(Actor, int)>, now: iset<(Actor, int)>, a: Actor, i: int)
    requires UpToDate(ss, delivered, was) && was <= now && Issued(ss, a, i)
    requires Settled(ss, now, a, i)
    requires delivered' == delivered || (i == At(delivered, a) && delivered' == delivered[a := i + 1])
    ensures UpToDate(ss, delivered', now)
  {
    forall b, j | 0 <= j < At(delivered', b) ensures Settled(ss, now, b, j) {
      if (b, j) != (a, i) {
        assert Settled(ss, was, b, j);
      }
    }
  }

  lemma TakenIsNext<K(!new), V(!new), C>(
    less: Order<V>, ss: Streams<K, V, C>, s: State<K, V, C>, delivered: Clock, a: Actor, i: int, viaDatagram: bool)
    requires Numbered(ss) && UpToDate(ss, delivered, Absorbed(less, ss, s)) && Issued(ss, a, i)
    requires !viaDatagram ==> i == At(delivered, a)
    requires Taken(less, s, StreamOf(ss, a)[i], viaDatagram)
    ensures Follows(s, StreamOf(ss, a)[i]) && (a, i) !in Absorbed(less, ss, s)
  {
    if !viaDatagram && StreamOf(ss, a)[i].MapOp? && !Lossy(StreamOf(ss, a)[i]) {
      EarlierAreIn(less, ss, s, a, i, StreamOf(ss, a)[i].map');
    }
  }

  lemma GaplessNext<K(!new), V(!new), C>(less: Order<V>, ss: Streams<K, V, C>, s: State<K, V, C>, a: Actor, i: int)
    requires Total(less) && Numbered(ss) && Ticking(ss) && Gapless(less, ss, s) && Issued(ss, a, i)
    requires Follows(s, StreamOf(ss, a)[i])
    ensures Gapless(less, ss, Applied(less, s, StreamOf(ss, a)[i]))
  {
    forall f ensures Stands(less, Applied(less, s, StreamOf(ss, a)[i]).MapAt(f), LogOf(ss, f)) {
      TakingKeepsGapless(less, ss, s, a, i, f);
    }
  }

  /** `r'` is the receiver after taking op `i` of `a`. */
  lemma TakenKeeps<K(!new), V(!new), C>(
    less: Order<V>, ss: Streams<K, V, C>, r: Receiver<K, V, C>, r': Receiver<K, V, C>, a: Actor, i: int,
    was: iset<(Actor, int)>, now: iset<(Actor, int)>)
    requires Issued(ss, a, i) && Gapless(less, ss, r'.state) && Sourced(ss, r'.state)
    requires now == Absorbed(less, ss, r'.state) && Adds(ss, was, now, a, i) && (a, i) !in was
    requires UpToDate(ss, r.delivered, was) && SentOnce(ss, r.fanned, r.brought, was)
    requires r'.delivered == r.delivered || (i == At(r.delivered, a) && r'.delivered == r.delivered[a := i + 1])
    requires r'.fanned == r.fanned[(a, i) := Times(r.fanned, a, i) + 1] && r'.brought == r.brought
    ensures Sound(less, ss, r')
  {
    TakenOnce(ss, r.fanned, r.brought, was, now, a, i);
    StaysUpToDate(ss, r.delivered, r'.delivered, was, now, a, i);
  }

  lemma TakenStates<K(!new), V(!new), C>(
    less: Order<V>, ss: Streams<K, V, C>, s: State<K, V, C>, s': State<K, V, C>, a: Actor, i: int)
    requires Total(less) && Numbered(ss) && Ticking(ss) && Gapless(less, ss, s) && Sourced(ss, s) && Issued(ss, a, i)
    requires Follows(s, StreamOf(ss, a)[i]) && s' == Applied(less, s, StreamOf(ss, a)[i])
    ensures Gapless(less, ss, s') && Sourced(ss, s') && Adds(ss, Absorbed(less, ss, s), Absorbed(less, ss, s'), a, i)
  {
    GaplessNext(less, ss, s, a, i);
    TakingKeepsSourced(less, ss, s, a, i);
    TakingAdds(less, ss, s, a, i);
  }

  lemma DeliverTaken<K(!new), V(!new), C>(
    less: Order<V>, ss: Streams<K, V, C>, r: Receiver<K, V, C>, r': Receiver<K, V, C>, a: Actor, i: int)
    requires Total(less) && Numbered(ss) && Ticking(ss) && Sound(less, ss, r) && Issued(ss, a, i)
    requires Follows(r.state, StreamOf(ss, a)[i]) && (a, i) !in Absorbed(less, ss, r.state)
    requires r'.state == Applied(less, r.state, StreamOf(ss, a)[i])
    requires r'.delivered == r.delivered || (i == At(r.delivered, a) && r'.delivered == r.delivered[a := i + 1])
    requires r'.fanned == r.fanned[(a, i) := Times(r.fanned, a, i) + 1] && r'.brought == r.brought
    ensures Sound(less, ss, r')
  {
    TakenStates(less, ss, r.state, r'.state, a, i);
    TakenKeeps(less, ss, r, r', a, i, Absorbed(less, ss, r.state), Absorbed(less, ss, r'.state));
  }

  /** Any copy, on either lane: the reliable one must be the origin's next. */
  lemma DeliverKeeps<K(!new), V(!new), C>(
    less: Order<V>, ss: Streams<K, V, C>, r: Receiver<K, V, C>, a: Actor, i: int, viaDatagram: bool)
    requires Total(less) && Numbered(ss) && Ticking(ss) && Sound(less, ss, r) && Issued(ss, a, i)
    requires !viaDatagram ==> i == At(r.delivered, a)
    ensures Sound(less, ss, Deliver(less, ss, r, a, i, viaDatagram))
  {
    if Taken(less, r.state, StreamOf(ss, a)[i], viaDatagram) {
      TakenIsNext(less, ss, r.state, r.delivered, a, i, viaDatagram);
      DeliverTaken(less, ss, r, Deliver(less, ss, r, a, i, viaDatagram), a, i);
    } else if !viaDatagram {
      PassedKeeps(less, ss, r, a, i);
    }
  }

  /** A reliable copy that was not new, or a position that has none. */
  lemma PassedKeeps<K(!new), V(!new), C>(less: Order<V>, ss: Streams<K, V, C>, r: Receiver<K, V, C>, a: Actor, i: int)
    requires Sound(less, ss, r) && Issued(ss, a, i) && i == At(r.delivered, a)
    requires !Fresh(less, r.state, StreamOf(ss, a)[i]) || Lossy(StreamOf(ss, a)[i])
    ensures Sound(less, ss, r.(delivered := r.delivered[a := i + 1]))
  {
    var absorbed := Absorbed(less, ss, r.state);
    assert Settled(ss, absorbed, a, i);
    StaysUpToDate(ss, r.delivered, r.delivered[a := i + 1], absorbed, absorbed, a, i);
  }

  // ---- An origin issues an op.

  /** `ss'` is `ss` with one more op of `a`. */
  ghost predicate Issues<K, V, C>(ss: Streams<K, V, C>, ss': Streams<K, V, C>, a: Actor, op: CrdtOp<K, V, C>) {
    && ss' == ss[a := StreamOf(ss, a) + [op]]
    && (op.MapOp? ==> op.op.actor == a && op.op.counter == |Writes(StreamOf(ss, a), op.map')| + 1)
    && (Lossy(op) ==> Rising(Writes(StreamOf(ss, a), PlaybackPosition) + [Write(op.op.key, op.op.lww)]))
  }

  lemma IssueKeepsTicking<K, V, C>(ss: Streams<K, V, C>, ss': Streams<K, V, C>, a: Actor, op: CrdtOp<K, V, C>)
    requires Ticking(ss) && Issues(ss, ss', a, op)
    ensures Ticking(ss')
  {
    var stream := StreamOf(ss, a);
    assert (stream + [op])[..|stream|] == stream;
    assert Rising(Writes(stream, PlaybackPosition));
  }

  lemma IssueKeepsNumbers<K, V, C>(ss: Streams<K, V, C>, ss': Streams<K, V, C>, a: Actor, op: CrdtOp<K, V, C>)
    requires Numbered(ss) && Issues(ss, ss', a, op)
    ensures Numbered(ss')
  {
    forall b, i | Issued(ss', b, i) && StreamOf(ss', b)[i].MapOp?
      ensures var o := StreamOf(ss', b)[i];
              o.op.actor == b && o.op.counter == |Writes(StreamOf(ss', b)[..i], o.map')| + 1
    {
      assert i <= |StreamOf(ss, b)| && StreamOf(ss', b)[..i] == StreamOf(ss, b)[..i];
      if i == |StreamOf(ss, b)| {
        assert StreamOf(ss, b)[..i] == StreamOf(ss, b);
      } else {
        assert Issued(ss, b, i);
      }
    }
  }

  lemma IssueExtends<K, V, C>(ss: Streams<K, V, C>, ss': Streams<K, V, C>, a: Actor, op: CrdtOp<K, V, C>, f: MapField)
    requires Issues(ss, ss', a, op)
    ensures Extends(LogOf(ss, f), LogOf(ss', f))
  {
    forall b ensures Ops(LogOf(ss, f), b) <= Ops(LogOf(ss', f), b) {
      OpsOfLog(ss, f, b);
      OpsOfLog(ss', f, b);
      WritesPrefix(StreamOf(ss', b), |StreamOf(ss, b)|, f);
      assert StreamOf(ss', b)[..|StreamOf(ss, b)|] == StreamOf(ss, b);
    }
  }

  /** A new collection op is new to everyone; the old ops are as they were. */
  lemma IssueAbsorbs<K(!new), V, C>(
    less: Order<V>, ss: Streams<K, V, C>, ss': Streams<K, V, C>, s: State<K, V, C>, a: Actor, op: CrdtOp<K, V, C>)
    requires Issues(ss, ss', a, op)
    requires op.MapOp? ==> At(s.MapAt(op.map').clock, a) <= |Writes(StreamOf(ss, a), op.map')|
    ensures var was, now, n := Absorbed(less, ss, s), Absorbed(less, ss', s), |StreamOf(ss, a)|;
            && (forall b, i :: (b, i) != (a, n) ==> ((b, i) in was <==> (b, i) in now))
            && (a, n) !in was && (op.MapOp? ==> (a, n) !in now)
  {
    assert StreamOf(ss', a)[|StreamOf(ss, a)|] == op;
    forall b, i | (b, i) != (a, |StreamOf(ss, a)|) ensures Issued(ss, b, i) == Issued(ss', b, i)
      ensures Issued(ss, b, i) ==> StreamOf(ss, b)[i] == StreamOf(ss', b)[i]
    {
    }
  }

  lemma IssueKeepsSent<K, V, C>(
    ss: Streams<K, V, C>, ss': Streams<K, V, C>, a: Actor, op: CrdtOp<K, V, C>,
    fanned: map<(Actor, int), nat>, brought: set<(Actor, int)>, was: iset<(Actor, int)>, now: iset<(Actor, int)>)
    requires Issues(ss, ss', a, op) && SentOnce(ss, fanned, brought, was)
    requires var n := |StreamOf(ss, a)|;
             && (forall b, i :: (b, i) != (a, n) ==> ((b, i) in was <==> (b, i) in now))
             && (a, n) !in was && (op.MapOp? ==> (a, n) !in now)
    ensures SentOnce(ss', fanned, brought, now)
  {
    forall b, i ensures SentOrBrought(ss', fanned, brought, now, b, i) {
      assert SentOrBrought(ss, fanned, brought, was, b, i);
      if (b, i) != (a, |StreamOf(ss, a)|) {
        assert Issued(ss', b, i) ==> Issued(ss, b, i) && StreamOf(ss', b)[i] == StreamOf(ss, b)[i];
      } else {
        assert StreamOf(ss', b)[i] == op;
      }
    }
  }

  lemma IssueKeepsSourced<K, V, C>(
    ss: Streams<K, V, C>, ss': Streams<K, V, C>, s: State<K, V, C>, a: Actor, op: CrdtOp<K, V, C>)
    requires Sourced(ss, s) && Issues(ss, ss', a, op)
    ensures Sourced(ss', s)
  {
    forall b, i, p | Holds(ss, b, i, p) ensures Holds(ss', b, i, p) {
    }
  }

  lemma ClockWithin<K(!new), V, C>(less: Order<V>, ss: Streams<K, V, C>, s: State<K, V, C>, a: Actor, f: MapField)
    requires Stands(less, s.MapAt(f), LogOf(ss, f))
    ensures At(s.MapAt(f).clock, a) <= |Writes(StreamOf(ss, a), f)|
  {
    OpsOfLog(ss, f, a);
  }

  lemma IssueKeeps<K(!new), V(!new), C>(
    less: Order<V>, ss: Streams<K, V, C>, ss': Streams<K, V, C>, r: Receiver<K, V, C>, a: Actor, op: CrdtOp<K, V, C>)
    requires Sound(less, ss, r) && Issues(ss, ss', a, op)
    ensures Sound(less, ss', r)
  {
    if op.MapOp? {
      ClockWithin(less, ss, r.state, a, op.map');
    }
    IssueAbsorbs(less, ss, ss', r.state, a, op);
    IssueKeepsSent(ss, ss', a, op, r.fanned, r.brought, Absorbed(less, ss, r.state), Absorbed(less, ss', r.state));
    IssueKeepsSourced(ss, ss', r.state, a, op);
    forall f ensures Stands(less, r.state.MapAt(f), LogOf(ss', f)) {
      IssueExtends(ss, ss', a, op, f);
      StandsAsLogGrows(less, r.state.MapAt(f), LogOf(ss, f), LogOf(ss', f));
    }
    IssueKeepsUpToDate(ss, ss', a, op, r.delivered, Absorbed(less, ss, r.state), Absorbed(less, ss', r.state));
  }

  lemma IssueKeepsUpToDate<K, V, C>(
    ss: Streams<K, V, C>, ss': Streams<K, V, C>, a: Actor, op: CrdtOp<K, V, C>, delivered: Clock,
    was: iset<(Actor, int)>, now: iset<(Actor, int)>)
    requires Issues(ss, ss', a, op) && UpToDate(ss, delivered, was)
    requires forall b, i :: (b, i) != (a, |StreamOf(ss, a)|) ==> ((b, i) in was <==> (b, i) in now)
    ensures UpToDate(ss', delivered, now)
  {
    forall b ensures At(delivered, b) <= |StreamOf(ss', b)| {
      assert At(delivered, b) <= |StreamOf(ss, b)|;
    }
    forall b, i | 0 <= i < At(delivered, b) ensures Settled(ss', now, b, i) {
      assert At(delivered, b) <= |StreamOf(ss, b)|;
      assert Settled(ss, was, b, i);
      assert StreamOf(ss', b)[i] == StreamOf(ss, b)[i];
    }
  }

  // ---- A receiver merges another's state.

  lemma MergedOn<K, V, C>(less: Order<V>, s: State<K, V, C>, t: State<K, V, C>, f: MapField)
    ensures Merged(less, s, t).MapAt(f) == Merge(less, s.MapAt(f), t.MapAt(f))
  {
    if f !in s.maps.Keys + t.maps.Keys {
      assert Merge(less, Empty<K, V>(), Empty()) == Empty();
    }
  }

  lemma MergeAbsorbs<K, V(!new), C>(less: Order<V>, s: State<K, V, C>, t: State<K, V, C>, op: CrdtOp<K, V, C>)
    requires Total(less) && (!Fresh(less, s, op) || !Fresh(less, t, op))
    ensures !Fresh(less, Merged(less, s, t), op)
  {
    if op.MapOp? {
      MergedOn(less, s, t, op.map');
    }
  }

  lemma MergedParts<K, V, C>(less: Order<V>, s: State<K, V, C>, t: State<K, V, C>)
    ensures var s' := Merged(less, s, t);
            && (forall f :: s'.RegAt(f) == s.RegAt(f) || s'.RegAt(f) == t.RegAt(f))
            && (forall f :: s'.SetAt(f) == s.SetAt(f) + t.SetAt(f)) && s'.chat == s.chat + t.chat
  {
  }

  lemma UnionSourced<K, V, C>(ss: Streams<K, V, C>, s: State<K, V, C>, t: State<K, V, C>, s': State<K, V, C>)
    requires Sourced(ss, s) && Sourced(ss, t)
    requires forall f :: s'.RegAt(f) == s.RegAt(f) || s'.RegAt(f) == t.RegAt(f)
    requires (forall f :: s'.SetAt(f) == s.SetAt(f) + t.SetAt(f)) && s'.chat == s.chat + t.chat
    ensures Sourced(ss, s')
  {
  }

  lemma MergeKeepsSourced<K, V, C>(less: Order<V>, ss: Streams<K, V, C>, s: State<K, V, C>, t: State<K, V, C>)
    requires Sourced(ss, s) && Sourced(ss, t)
    ensures Sourced(ss, Merged(less, s, t))
  {
    MergedParts(less, s, t);
    UnionSourced(ss, s, t, Merged(less, s, t));
  }

  lemma MergeKeeps<K(!new), V(!new), C>(
    less: Order<V>, ss: Streams<K, V, C>, r: Receiver<K, V, C>, other: Receiver<K, V, C>, resumes: bool)
    requires Total(less) && Sound(less, ss, r) && Sound(less, ss, other)
    ensures Sound(less, ss, Takes(less, ss, r, other, resumes))
  {
    var s' := Merged(less, r.state, other.state);
    forall f ensures Stands(less, s'.MapAt(f), LogOf(ss, f)) {
      MergedOn(less, r.state, other.state, f);
      MergeStands(less, r.state.MapAt(f), other.state.MapAt(f), LogOf(ss, f));
    }
    MergeKeepsSourced(less, ss, r.state, other.state);
    MergeGrows(less, ss, r.state, other.state);
    MergeKeepsSent(less, ss, r, s');
    ResumeIsUpToDate(ss, r.delivered, other.delivered, Absorbed(less, ss, r.state), Absorbed(less, ss, other.state),
                     Absorbed(less, ss, s'));
  }

  /** Whatever either side had absorbed. */
  lemma MergeGrows<K, V(!new), C>(less: Order<V>, ss: Streams<K, V, C>, s: State<K, V, C>, t: State<K, V, C>)
    requires Total(less)
    ensures Absorbed(less, ss, s) + Absorbed(less, ss, t) <= Absorbed(less, ss, Merged(less, s, t))
  {
    forall a, i | Issued(ss, a, i) && (!Fresh(less, s, StreamOf(ss, a)[i]) || !Fresh(less, t, StreamOf(ss, a)[i]))
      ensures !Fresh(less, Merged(less, s, t), StreamOf(ss, a)[i])
    {
      MergeAbsorbs(less, s, t, StreamOf(ss, a)[i]);
    }
  }

  /** A collection op that a merge absorbs counts as brought unless it was in before. */
  lemma MergeKeepsSent<K, V, C>(less: Order<V>, ss: Streams<K, V, C>, r: Receiver<K, V, C>, s': State<K, V, C>)
    requires SentOnce(ss, r.fanned, r.brought, Absorbed(less, ss, r.state))
    requires Absorbed(less, ss, r.state) <= Absorbed(less, ss, s')
    ensures SentOnce(ss, r.fanned, r.brought + Gained(less, ss, r.state, s'), Absorbed(less, ss, s'))
  {
    var was, now := Absorbed(less, ss, r.state), Absorbed(less, ss, s');
    forall a, i ensures SentOrBrought(ss, r.fanned, r.brought + Gained(less, ss, r.state, s'), now, a, i) {
      assert SentOrBrought(ss, r.fanned, r.brought, was, a, i);
      assert (a, i) in Gained(less, ss, r.state, s') <==>
             (a, i) in now && (a, i) !in was && Issued(ss, a, i) && StreamOf(ss, a)[i].MapOp?;
    }
  }

  lemma ResumeIsUpToDate<K, V, C>(ss: Streams<K, V, C>, mine: Clock, theirs: Clock,
                                  was: iset<(Actor, int)>, had: iset<(Actor, int)>, now: iset<(Actor, int)>)
    requires UpToDate(ss, mine, was) && UpToDate(ss, theirs, had) && was + had <= now
    ensures UpToDate(ss, mine, now) && UpToDate(ss, Joined(mine, theirs), now)
  {
    forall a ensures At(Joined(mine, theirs), a) == Max(At(mine, a), At(theirs, a)) {
    }
    forall a, i | Settled(ss, was, a, i) || Settled(ss, had, a, i) ensures Settled(ss, now, a, i) {
    }
    forall a, i | 0 <= i < At(Joined(mine, theirs), a) ensures Settled(ss, now, a, i) {
      assert i < At(mine, a) || i < At(theirs, a);
    }
  }

  // ---- Every run.

  ghost predicate Inv<K(!new), V, C>(less: Order<V>, net: Net<K, V, C>) {
    && Numbered(net.streams) && Ticking(net.streams)
    && forall x :: 0 <= x < |net.receivers| ==> Sound(less, net.streams, net.receivers[x])
  }

  lemma IssueStep<K(!new), V(!new), C>(
    less: Order<V>, net: Net<K, V, C>, ss': Streams<K, V, C>, a: Actor, op: CrdtOp<K, V, C>)
    requires Inv(less, net) && Issues(net.streams, ss', a, op)
    ensures Inv(less, net.(streams := ss'))
  {
    IssueKeepsNumbers(net.streams, ss', a, op);
    IssueKeepsTicking(net.streams, ss', a, op);
    forall x | 0 <= x < |net.receivers| ensures Sound(less, ss', net.receivers[x]) {
      IssueKeeps(less, net.streams, ss', net.receivers[x], a, op);
    }
  }

  lemma ReceiverStep<K(!new), V, C>(less: Order<V>, net: Net<K, V, C>, x: nat, r: Receiver<K, V, C>)
    requires Inv(less, net) && x < |net.receivers| && Sound(less, net.streams, r)
    ensures Inv(less, net.(receivers := net.receivers[x := r]))
  {
  }

  lemma DeliveryStep<K(!new), V(!new), C>(
    less: Order<V>, net: Net<K, V, C>, x: nat, a: Actor, i: int, viaDatagram: bool)
    requires Total(less) && Inv(less, net) && x < |net.receivers| && Issued(net.streams, a, i)
    requires !viaDatagram ==> i == At(net.receivers[x].delivered, a)
    ensures Inv(less,
            net.(receivers := net.receivers[x := Deliver(less, net.streams, net.receivers[x], a, i, viaDatagram)]))
  {
    DeliverKeeps(less, net.streams, net.receivers[x], a, i, viaDatagram);
    ReceiverStep(less, net, x, Deliver(less, net.streams, net.receivers[x], a, i, viaDatagram));
  }

  lemma PassOverStep<K(!new), V(!new), C>(less: Order<V>, net: Net<K, V, C>, x: nat, a: Actor, r: Receiver<K, V, C>)
    requires Inv(less, net) && x < |net.receivers| && r == net.receivers[x]
    requires var i := At(r.delivered, a); Issued(net.streams, a, i) && Lossy(StreamOf(net.streams, a)[i])
    ensures Inv(less, net.(receivers := net.receivers[x := r.(delivered := r.delivered[a := At(r.delivered, a) + 1])]))
  {
    PassedKeeps(less, net.streams, r, a, At(r.delivered, a));
    ReceiverStep(less, net, x, r.(delivered := r.delivered[a := At(r.delivered, a) + 1]));
  }

  lemma MergeStep<K(!new), V(!new), C>(
    less: Order<V>, net: Net<K, V, C>, x: nat, y: nat, r: Receiver<K, V, C>, other: Receiver<K, V, C>, resumes: bool)
    requires Total(less) && Inv(less, net) && x < |net.receivers| && y < |net.receivers|
    requires r == net.receivers[x] && other == net.receivers[y]
    ensures Inv(less, net.(receivers := net.receivers[x := Takes(less, net.streams, r, other, resumes)]))
  {
    assert Sound(less, net.streams, r);
    assert Sound(less, net.streams, other);
    MergeKeeps(less, net.streams, r, other, resumes);
    ReceiverStep(less, net, x, Takes(less, net.streams, r, other, resumes));
  }

  predicate MayIssue<K(==), V, C>(ss: Streams<K, V, C>, e: Event<K, V, C>) {
    e.IssueMap? && e.map' == PlaybackPosition ==>
      Rising(Writes(StreamOf(ss, e.origin), PlaybackPosition) + [Write(e.key, e.lww)])
  }

  lemma IssueEvent<K(!new), V(!new), C>(less: Order<V>, net: Net<K, V, C>, e: Event<K, V, C>)
    requires Inv(less, net) && (e.IssueMap? || e.IssueFree?)
    ensures Inv(less, Next(less, net, e))
  {
    if (e.IssueFree? && e.op.MapOp?) || !MayIssue(net.streams, e) {
      assert Next(less, net, e) == net;
    } else {
      var ss', op := IssueNext(less, net, e);
      IssueStep(less, net, ss', e.origin, op);
    }
  }

  lemma IssueNext<K, V, C>(less: Order<V>, net: Net<K, V, C>, e: Event<K, V, C>)
    returns (ss': Streams<K, V, C>, op: CrdtOp<K, V, C>)
    requires (e.IssueMap? || (e.IssueFree? && !e.op.MapOp?)) && MayIssue(net.streams, e)
    ensures Issues(net.streams, ss', e.origin, op) && Next(less, net, e) == net.(streams := ss')
  {
    var stream := StreamOf(net.streams, e.origin);
    op := if e.IssueMap? then MapOp(e.map', Op(e.origin, |Writes(stream, e.map')| + 1, e.key, e.lww)) else e.op;
    ss' := net.streams[e.origin := stream + [op]];
  }

  lemma ArrivalEvent<K(!new), V(!new), C>(less: Order<V>, net: Net<K, V, C>, e: Event<K, V, C>)
    requires Total(less) && Inv(less, net) && (e.ArriveReliable? || e.ArriveDatagram? || e.PassOver?)
    ensures Inv(less, Next(less, net, e))
  {
    var rs := net.receivers;
    match e
    case ArriveReliable(x, a) =>
      if x < |rs| && Issued(net.streams, a, At(rs[x].delivered, a)) {
        DeliveryStep(less, net, x, a, At(rs[x].delivered, a), false);
      }
    case ArriveDatagram(x, a, i) =>
      if x < |rs| && Issued(net.streams, a, i) {
        DeliveryStep(less, net, x, a, i, true);
      }
    case PassOver(x, a) =>
      if x < |rs| && Issued(net.streams, a, At(rs[x].delivered, a)) &&
          Lossy(StreamOf(net.streams, a)[At(rs[x].delivered, a)]) {
        PassOverStep(less, net, x, a, rs[x]);
      }
  }

  lemma MergeEvent<K(!new), V(!new), C>(less: Order<V>, net: Net<K, V, C>, e: Event<K, V, C>)
    requires Total(less) && Inv(less, net) && e.MergeFrom?
    ensures Inv(less, Next(less, net, e))
  {
    var rs := net.receivers;
    if e.receiver < |rs| && e.other < |rs| {
      MergeStep(less, net, e.receiver, e.other, rs[e.receiver], rs[e.other], e.resumes);
    }
  }

  lemma StepKeeps<K(!new), V(!new), C>(less: Order<V>, net: Net<K, V, C>, e: Event<K, V, C>)
    requires Total(less) && Inv(less, net)
    ensures Inv(less, Next(less, net, e))
  {
    if e.MergeFrom? {
      MergeEvent(less, net, e);
    } else if e.IssueMap? || e.IssueFree? {
      IssueEvent(less, net, e);
    } else {
      ArrivalEvent(less, net, e);
    }
  }

  lemma {:induction false} RunKeeps<K(!new), V(!new), C>(less: Order<V>, net: Net<K, V, C>, events: seq<Event<K, V, C>>)
    requires Total(less) && Inv(less, net)
    ensures Inv(less, Run(less, net, events))
    decreases |events|
  {
    if events != [] {
      StepKeeps(less, net, events[0]);
      RunKeeps(less, Next(less, net, events[0]), events[1..]);
    }
  }

  function Start<K(==), V(==), C(==)>(receivers: nat): Net<K, V, C> {
    Net(map[], seq(receivers, _ => NewReceiver()))
  }

  lemma RunFromStart<K(!new), V(!new), C>(less: Order<V>, receivers: nat, events: seq<Event<K, V, C>>)
    requires Total(less)
    ensures Inv(less, Run(less, Start(receivers), events))
  {
    NewIsSound<K, V, C>(less);
    RunKeeps(less, Start(receivers), events);
  }

  lemma NewIsSound<K(!new), V, C>(less: Order<V>)
    ensures Sound(less, map[], NewReceiver<K, V, C>())
  {
    forall f ensures Stands(less, NewReceiver<K, V, C>().state.MapAt(f), LogOf<K, V, C>(map[], f)) {
      EmptyStands<K, V>(less, LogOf<K, V, C>(map[], f));
    }
  }

  // ---- What every run promises.

  /** However copies are lost, repeated, reordered, passed over or merged in, no
      receiver sends one op on twice, and every collection is always what a prefix of
      every origin's ops makes. */
  lemma SentOnAtMostOnce<K(!new), V(!new), C>(
    less: Order<V>, receivers: nat, events: seq<Event<K, V, C>>, x: nat, a: Actor, i: int)
    requires Total(less)
    ensures var net := Run(less, Start(receivers), events);
            x < |net.receivers| ==>
              Times(net.receivers[x].fanned, a, i) <= 1 && Gapless(less, net.streams, net.receivers[x].state)
  {
    RunFromStart(less, receivers, events);
    var net := Run(less, Start(receivers), events);
    if x < |net.receivers| {
      assert Sound(less, net.streams, net.receivers[x]);
      assert SentOrBrought(net.streams, net.receivers[x].fanned, net.receivers[x].brought,
                           Absorbed(less, net.streams, net.receivers[x].state), a, i);
    }
  }

  /** A collection op that a receiver's state has was sent on exactly once, over
      whichever lane came first, or else a merge was the first to bring it, never
      both; and the state has every op whose reliable copy arrived or was skipped by
      a reconnect.  Positions are the one exception to both. */
  lemma SentOnExactlyOnce<K(!new), V(!new), C>(
    less: Order<V>, receivers: nat, events: seq<Event<K, V, C>>, x: nat, a: Actor, i: int)
    requires Total(less)
    ensures var net := Run(less, Start(receivers), events);
            x < |net.receivers| && Issued(net.streams, a, i) && !Lossy(StreamOf(net.streams, a)[i]) ==>
              var r, op := net.receivers[x], StreamOf(net.streams, a)[i];
              && (i < At(r.delivered, a) ==> !Fresh(less, r.state, op))
              && (op.MapOp? ==> (!Fresh(less, r.state, op) <==> (Times(r.fanned, a, i) == 1) != ((a, i) in r.brought)))
  {
    RunFromStart(less, receivers, events);
    var net := Run(less, Start(receivers), events);
    if x < |net.receivers| && Issued(net.streams, a, i) && !Lossy(StreamOf(net.streams, a)[i]) {
      var absorbed := Absorbed(less, net.streams, net.receivers[x].state);
      assert Sound(less, net.streams, net.receivers[x]);
      assert SentOrBrought(net.streams, net.receivers[x].fanned, net.receivers[x].brought, absorbed, a, i);
      assert i < At(net.receivers[x].delivered, a) ==> Settled(net.streams, absorbed, a, i);
    }
  }

  /** Every reliable copy of every origin's ops has arrived, and with them every
      origin's last position. */
  ghost predicate CaughtUp<K, V, C>(ss: Streams<K, V, C>, r: Receiver<K, V, C>) {
    forall a :: && At(r.delivered, a) == |StreamOf(ss, a)|
                && At(r.state.MapAt(PlaybackPosition).clock, a) == |Writes(StreamOf(ss, a), PlaybackPosition)|
  }

  lemma CaughtUpClock<K(!new), V, C>(less: Order<V>, ss: Streams<K, V, C>, r: Receiver<K, V, C>, f: MapField, a: Actor)
    requires Numbered(ss) && Sound(less, ss, r) && CaughtUp(ss, r)
    ensures At(r.state.MapAt(f).clock, a) == |Writes(StreamOf(ss, a), f)|
  {
    if f != PlaybackPosition {
      EarlierAreIn(less, ss, r.state, a, |StreamOf(ss, a)|, f);
      assert StreamOf(ss, a)[..|StreamOf(ss, a)|] == StreamOf(ss, a);
      ClockWithin(less, ss, r.state, a, f);
    }
  }

  lemma SameWithin<K, V>(c: Clock, d: Clock, log: Log<K, V>)
    requires Within(c, log) && Within(d, log) && forall a :: At(c, a) == At(d, a)
    ensures c == d
  {
    forall a ensures a in c <==> a in d {
      assert At(c, a) == At(d, a);
    }
    SameCounts(c, d);
  }

  lemma CaughtUpMaps<K(!new), V(!new), C>(
    less: Order<V>, ss: Streams<K, V, C>, r: Receiver<K, V, C>, r': Receiver<K, V, C>, f: MapField)
    requires Total(less) && Numbered(ss) && Sound(less, ss, r) && Sound(less, ss, r')
    requires CaughtUp(ss, r) && CaughtUp(ss, r')
    ensures r.state.MapAt(f) == r'.state.MapAt(f)
  {
    var m, m' := r.state.MapAt(f), r'.state.MapAt(f);
    assert Stands(less, m, LogOf(ss, f)) && Stands(less, m', LogOf(ss, f));
    forall a ensures At(m.clock, a) == At(m'.clock, a) {
      CaughtUpClock(less, ss, r, f, a);
      CaughtUpClock(less, ss, r', f, a);
    }
    SameWithin(m.clock, m'.clock, LogOf(ss, f));
    SameClockSameMap(less, m, m', LogOf(ss, f));
  }

  lemma CaughtUpAbsorbs<K(!new), V, C>(
    less: Order<V>, ss: Streams<K, V, C>, r: Receiver<K, V, C>, a: Actor, i: int, op: CrdtOp<K, V, C>)
    requires Sound(less, ss, r) && CaughtUp(ss, r) && Holds(ss, a, i, op) && !op.MapOp?
    ensures !Fresh(less, r.state, op)
  {
    assert i < At(r.delivered, a);
    assert Settled(ss, Absorbed(less, ss, r.state), a, i);
  }

  /** What one receiver holds of the order-free kinds, a caught-up one holds too. */
  lemma CaughtUpHolds<K(!new), V(!new), C>(
    less: Order<V>, ss: Streams<K, V, C>, s: State<K, V, C>, r: Receiver<K, V, C>)
    requires Sourced(ss, s) && Sound(less, ss, r) && CaughtUp(ss, r)
    ensures forall f :: s.RegAt(f).Some? ==>
            r.state.RegAt(f).Some? && !Before(less, r.state.RegAt(f).value, s.RegAt(f).value)
    ensures forall f, x :: x in s.SetAt(f) ==> x in r.state.SetAt(f)
    ensures forall c :: c in s.chat ==> c in r.state.chat
  {
    forall f | s.RegAt(f).Some?
      ensures r.state.RegAt(f).Some? && !Before(less, r.state.RegAt(f).value, s.RegAt(f).value)
    {
      var a, i :| Holds(ss, a, i, RegOp(f, s.RegAt(f).value));
      CaughtUpAbsorbs(less, ss, r, a, i, RegOp(f, s.RegAt(f).value));
    }
    forall f, x | x in s.SetAt(f) ensures x in r.state.SetAt(f) {
      var a, i :| Holds(ss, a, i, SetOp(f, x));
      CaughtUpAbsorbs(less, ss, r, a, i, SetOp(f, x));
    }
    forall c | c in s.chat ensures c in r.state.chat {
      var a, i :| Holds(ss, a, i, ChatOp(c));
      CaughtUpAbsorbs(less, ss, r, a, i, ChatOp(c));
    }
  }

  /** Two receivers that have both reliable streams in full show the same state,
      whatever happened on the datagram lane and whatever they merged. */
  lemma CaughtUpConverge<K(!new), V(!new), C>(
    less: Order<V>, ss: Streams<K, V, C>, r: Receiver<K, V, C>, r': Receiver<K, V, C>)
    requires Total(less) && Numbered(ss) && Sound(less, ss, r) && Sound(less, ss, r')
    requires CaughtUp(ss, r) && CaughtUp(ss, r')
    ensures Same(r.state, r'.state)
  {
    forall f ensures r.state.MapAt(f) == r'.state.MapAt(f) {
      CaughtUpMaps(less, ss, r, r', f);
    }
    CaughtUpHolds(less, ss, r.state, r');
    CaughtUpHolds(less, ss, r'.state, r);
    forall f ensures r.state.RegAt(f) == r'.state.RegAt(f) {
    }
    forall f ensures r.state.SetAt(f) == r'.state.SetAt(f) {
    }
    assert r.state.chat == r'.state.chat;
  }

  lemma ReplicasConverge<K(!new), V(!new), C>(
    less: Order<V>, receivers: nat, events: seq<Event<K, V, C>>, x: nat, y: nat)
    requires Total(less)
    ensures var net := Run(less, Start(receivers), events);
            && x < |net.receivers| && y < |net.receivers|
            && CaughtUp(net.streams, net.receivers[x]) && CaughtUp(net.streams, net.receivers[y])
            ==> Same(net.receivers[x].state, net.receivers[y].state)
  {
    RunFromStart(less, receivers, events);
    var net := Run(less, Start(receivers), events);
    if && x < |net.receivers| && y < |net.receivers|
       && CaughtUp(net.streams, net.receivers[x]) && CaughtUp(net.streams, net.receivers[y]) {
      assert Sound(less, net.streams, net.receivers[x]) && Sound(less, net.streams, net.receivers[y]);
      CaughtUpConverge(less, net.streams, net.receivers[x], net.receivers[y]);
    }
  }

  // ---- What each event does.

  /** No stream and no other receiver changed. */
  ghost predicate OnlyReceiver<K, V, C>(net: Net<K, V, C>, net': Net<K, V, C>, x: nat) {
    && net'.streams == net.streams && |net'.receivers| == |net.receivers| && x < |net.receivers|
    && forall y :: 0 <= y < |net.receivers| && y != x ==> net'.receivers[y] == net.receivers[y]
  }

  /** An op that is issued is its origin's latest, numbered after all before it, and
      no receiver has anything of it yet. */
  lemma IssueAppends<K, V, C>(less: Order<V>, net: Net<K, V, C>, a: Actor, f: MapField, k: K, lww: Lww<V>)
    requires f != PlaybackPosition
    ensures var net' := Next(less, net, IssueMap(a, f, k, lww));
            && net'.receivers == net.receivers
            && StreamOf(net'.streams, a) == StreamOf(net.streams, a) +
                                            [MapOp(f, Op(a, |Writes(StreamOf(net.streams, a), f)| + 1, k, lww))]
            && forall b :: b != a ==> StreamOf(net'.streams, b) == StreamOf(net.streams, b)
  {
  }

  lemma IssueFreeAppends<K, V, C>(less: Order<V>, net: Net<K, V, C>, a: Actor, op: CrdtOp<K, V, C>)
    requires !op.MapOp?
    ensures var net' := Next(less, net, IssueFree(a, op));
            && net'.receivers == net.receivers && StreamOf(net'.streams, a) == StreamOf(net.streams, a) + [op]
            && forall b :: b != a ==> StreamOf(net'.streams, b) == StreamOf(net.streams, b)
  {
  }

  /** The next reliable copy of an origin's op arrives, and the op is in. */
  lemma ArrivalDelivers<K, V(!new), C>(less: Order<V>, net: Net<K, V, C>, x: nat, a: Actor)
    requires Total(less) && x < |net.receivers| && Issued(net.streams, a, At(net.receivers[x].delivered, a))
    ensures var net', i := Next(less, net, ArriveReliable(x, a)), At(net.receivers[x].delivered, a);
            && OnlyReceiver(net, net', x)
            && net'.receivers[x].delivered == net.receivers[x].delivered[a := i + 1]
            && !Fresh(less, net'.receivers[x].state, StreamOf(net.streams, a)[i])
  {
    var i := At(net.receivers[x].delivered, a);
    TakingAbsorbsItself(less, net.receivers[x].state, StreamOf(net.streams, a)[i]);
  }

  /** A datagram that brings an origin's next op, or any op without a sequence, is
      applied; one that would leave a gap changes nothing. */
  lemma DatagramDelivers<K, V(!new), C>(less: Order<V>, net: Net<K, V, C>, x: nat, a: Actor, i: int)
    requires Total(less) && x < |net.receivers| && Issued(net.streams, a, i)
    ensures var net', op := Next(less, net, ArriveDatagram(x, a, i)), StreamOf(net.streams, a)[i];
            && OnlyReceiver(net, net', x) && net'.receivers[x].delivered == net.receivers[x].delivered
            && (Orderly(net.receivers[x].state, op) ==> !Fresh(less, net'.receivers[x].state, op))
            && (!Orderly(net.receivers[x].state, op) ==> net' == net)
  {
    TakingAbsorbsItself(less, net.receivers[x].state, StreamOf(net.streams, a)[i]);
    assert net.receivers[x := net.receivers[x]] == net.receivers;
  }

  /** After a merge the receiver has all that either had, and with a reconnect its
      streams go on past what either had received. */
  lemma MergeDelivers<K, V(!new), C>(less: Order<V>, net: Net<K, V, C>, x: nat, y: nat, resumes: bool)
    requires Total(less) && x < |net.receivers| && y < |net.receivers|
    ensures var net', r, other := Next(less, net, MergeFrom(x, y, resumes)), net.receivers[x], net.receivers[y];
            && OnlyReceiver(net, net', x)
            && Absorbed(less, net.streams, r.state) + Absorbed(less, net.streams, other.state)
               <= Absorbed(less, net.streams, net'.receivers[x].state)
            && forall a :: At(net'.receivers[x].delivered, a) ==
                           if resumes then Max(At(r.delivered, a), At(other.delivered, a)) else At(r.delivered, a)
  {
    MergeGrows(less, net.streams, net.receivers[x].state, net.receivers[y].state);
  }

  /** A position without a reliable copy is passed over and nothing else changes. */
  lemma PassOverSkips<K, V, C>(less: Order<V>, net: Net<K, V, C>, x: nat, a: Actor)
    requires x < |net.receivers| && Issued(net.streams, a, At(net.receivers[x].delivered, a))
    requires Lossy(StreamOf(net.streams, a)[At(net.receivers[x].delivered, a)])
    ensures var net', r := Next(less, net, PassOver(x, a)), net.receivers[x];
            OnlyReceiver(net, net', x) && net'.receivers[x] == r.(delivered := r.delivered[a := At(r.delivered, a) + 1])
  {
  }

  // ---- Every receiver can catch up.

  lemma {:induction false} RunJoins<K, V, C>(
    less: Order<V>, net: Net<K, V, C>, first: seq<Event<K, V, C>>, more: seq<Event<K, V, C>>)
    ensures Run(less, net, first + more) == Run(less, Run(less, net, first), more)
    decreases |first|
  {
    if first == [] {
      assert first + more == more;
    } else {
      assert (first + more)[1..] == first[1..] + more;
      RunJoins(less, Next(less, net, first[0]), first[1..], more);
    }
  }

  /** One origin's reliable copies arrive to the end. */
  lemma {:induction false} CatchUpOn<K, V(!new), C>(less: Order<V>, net: Net<K, V, C>, x: nat, a: Actor)
    returns (events: seq<Event<K, V, C>>)
    requires Total(less) && x < |net.receivers|
    requires At(net.receivers[x].delivered, a) <= |StreamOf(net.streams, a)|
    ensures var net' := Run(less, net, events);
            && OnlyReceiver(net, net', x) && At(net'.receivers[x].delivered, a) == |StreamOf(net.streams, a)|
            && forall b :: b != a ==> At(net'.receivers[x].delivered, b) == At(net.receivers[x].delivered, b)
    decreases |StreamOf(net.streams, a)| - At(net.receivers[x].delivered, a)
  {
    if At(net.receivers[x].delivered, a) == |StreamOf(net.streams, a)| {
      events := [];
    } else {
      ArrivalDelivers(less, net, x, a);
      var rest := CatchUpOn(less, Next(less, net, ArriveReliable(x, a)), x, a);
      events := [ArriveReliable(x, a)] + rest;
      assert events[1..] == rest;
    }
  }

  lemma OneOf<T>(s: set<T>) returns (x: T)
    requires s != {}
    ensures x in s
  {
    x :| x in s;
  }

  lemma {:induction false} CatchUpAmong<K, V(!new), C>(less: Order<V>, net: Net<K, V, C>, x: nat, origins: set<Actor>)
    returns (events: seq<Event<K, V, C>>)
    requires Total(less) && x < |net.receivers|
    requires forall a :: At(net.receivers[x].delivered, a) <= |StreamOf(net.streams, a)|
    ensures var net' := Run(less, net, events);
            && OnlyReceiver(net, net', x)
            && forall a :: if a in origins then At(net'.receivers[x].delivered, a) == |StreamOf(net.streams, a)|
                           else At(net'.receivers[x].delivered, a) == At(net.receivers[x].delivered, a)
    decreases |origins|
  {
    events := [];
    if origins != {} {
      var a := OneOf(origins);
      var first := CatchUpOn(less, net, x, a);
      var more := CatchUpAmong(less, Run(less, net, first), x, origins - {a});
      RunJoins(less, net, first, more);
      events := first + more;
    }
  }

  /** From any state of any run, a receiver can come to have every op of every
      origin, positions aside: nothing it has seen, lost or merged stands in the
      way. */
  lemma CanCatchUp<K(!new), V(!new), C>(less: Order<V>, net: Net<K, V, C>, x: nat)
    returns (events: seq<Event<K, V, C>>)
    requires Total(less) && Inv(less, net) && x < |net.receivers|
    ensures var net' := Run(less, net, events);
            && OnlyReceiver(net, net', x)
            && forall a, i :: Issued(net.streams, a, i) && !Lossy(StreamOf(net.streams, a)[i]) ==>
                                !Fresh(less, net'.receivers[x].state, StreamOf(net.streams, a)[i])
  {
    assert Sound(less, net.streams, net.receivers[x]);
    events := CatchUpAmong(less, net, x, net.streams.Keys);
    RunKeeps(less, net, events);
    var net' := Run(less, net, events);
    assert Sound(less, net'.streams, net'.receivers[x]);
    forall a, i | Issued(net.streams, a, i) && !Lossy(StreamOf(net.streams, a)[i])
      ensures !Fresh(less, net'.receivers[x].state, StreamOf(net.streams, a)[i])
    {
      assert a in net.streams && i < At(net'.receivers[x].delivered, a);
      assert Settled(net.streams, Absorbed(less, net.streams, net'.receivers[x].state), a, i);
    }
  }
}
