/** The replicated state: keyed collections, registers, grow-only sets and the
    chat list, and the ways an op enters it.  The twelve collections share one
    treatment and so do the four registers, so each kind is indexed by field;
    `K`, `V` and `C` stand for the fields' key, value and chat-position types. */
module CrdtState {
  import opened Lww
  import opened LwwMap
  import opened Sorted
  import opened Wrappers

  datatype MapField =
    | Playlist | Watched | SeriesPreference | ManualOverride | FileAvailability | AniDbMetadata
    | SeriesRelations | FileCatalog | ListEntries | ListNextEp | PlaybackPosition | SavedPosition

  datatype RegField = NowPlaying | SeekAuthority | PlaybackIntent | Marquee

  datatype SetField = LookupRequests | AcknowledgedAbsent

  datatype CrdtOp<+K, +V, +C> =
    | MapOp(map': MapField, op: Op<K, V>)
    | RegOp(reg: RegField, lww: Lww<V>)
    | SetOp(set': SetField, element: V)
    | ChatOp(id: C)

  /** The state as a value.  A field that was never written is absent. */
  datatype State<K(==), V(==), C(==)> = State(
    maps: map<MapField, Map<K, V>>,
    regs: map<RegField, Lww<V>>,
    sets: map<SetField, set<V>>,
    chat: set<C>) {

    function MapAt(f: MapField): Map<K, V> {
      if f in maps then maps[f] else Empty()
    }

    function RegAt(f: RegField): Cell<V> {
      if f in regs then Some(regs[f]) else None
    }

    function SetAt(f: SetField): set<V> {
      if f in sets then sets[f] else {}
    }
  }

  /** Two states that no reader can tell apart. */
  ghost predicate Same<K, V, C>(s: State<K, V, C>, t: State<K, V, C>) {
    && (forall f :: s.MapAt(f) == t.MapAt(f))
    && (forall f :: s.RegAt(f) == t.RegAt(f))
    && (forall f :: s.SetAt(f) == t.SetAt(f))
    && s.chat == t.chat
  }

  function Applied<K(==), V(==), C(==)>(less: Order<V>, s: State<K, V, C>, op: CrdtOp<K, V, C>): State<K, V, C> {
    match op
    case MapOp(f, o) => s.(maps := s.maps[f := Apply(less, s.MapAt(f), o)])
    case RegOp(f, lww) => s.(regs := s.regs[f := Put(less, s.RegAt(f), lww).value])
    case SetOp(f, x) => s.(sets := s.sets[f := s.SetAt(f) + {x}])
    case ChatOp(id) => s.(chat := s.chat + {id})
  }

  function Merged<K(==), V(==), C(==)>(less: Order<V>, s: State<K, V, C>, t: State<K, V, C>): State<K, V, C> {
    State(map f | f in s.maps.Keys + t.maps.Keys :: Merge(less, s.MapAt(f), t.MapAt(f)),
          map f | f in s.regs.Keys + t.regs.Keys :: Join(less, s.RegAt(f), t.RegAt(f)).value,
          map f | f in s.sets.Keys + t.sets.Keys :: s.SetAt(f) + t.SetAt(f),
          s.chat + t.chat)
  }

  /** Taking this copy of the op would change the state. */
  predicate Fresh<K(==), V(==), C(==)>(less: Order<V>, s: State<K, V, C>, op: CrdtOp<K, V, C>) {
    match op
    case MapOp(f, o) => At(s.MapAt(f).clock, o.actor) < o.counter
    case RegOp(f, lww) => s.RegAt(f).None? || Before(less, s.RegAt(f).value, lww)
    case SetOp(f, x) => x !in s.SetAt(f)
    case ChatOp(id) => id !in s.chat
  }

  /** The op is its origin's next on its collection (always so for the kinds of
      op that have no sequence). */
  predicate Orderly<K(==), V(==), C(==)>(s: State<K, V, C>, op: CrdtOp<K, V, C>) {
    op.MapOp? ==> At(s.MapAt(op.map').clock, op.op.actor) + 1 == op.op.counter
  }

  /** Whether a copy received over one of the two transports is applied and, if
      it is new, sent on. */
  predicate Taken<K(==), V(==), C(==)>(less: Order<V>, s: State<K, V, C>, op: CrdtOp<K, V, C>, viaDatagram: bool) {
    if op.MapOp? && viaDatagram then Orderly(s, op) else Fresh(less, s, op)
  }

  class CrdtState<K(==), V(==, !new), C(==)> {
    const less: Order<V>
    var maps: map<MapField, Map<K, V>>
    var regs: map<RegField, Lww<V>>
    var sets: map<SetField, set<V>>
    var chat: set<C>

    ghost function Value(): State<K, V, C>
      reads this
    {
      State(maps, regs, sets, chat)
    }

    constructor (less: Order<V>)
      ensures this.less == less && Value() == State(map[], map[], map[], {})
    {
      this.less := less;
      maps, regs, sets, chat := map[], map[], map[], {};
    }

    method ApplyOp(op: CrdtOp<K, V, C>)
      modifies this
      ensures Value() == Applied(less, old(Value()), op)
    {
      match op
      case MapOp(f, o) =>
        var m := if f in maps then maps[f] else Empty();
        maps := maps[f := Apply(less, m, o)];
      case RegOp(f, lww) =>
        if f !in regs || Before(less, regs[f], lww) {
          regs := regs[f := lww];
        } else {
          assert regs[f := regs[f]] == regs;
        }
      case SetOp(f, x) =>
        var s := if f in sets then sets[f] else {};
        sets := sets[f := s + {x}];
      case ChatOp(id) =>
        chat := chat + {id};
    }

    method MergeState(other: State<K, V, C>)
      modifies this
      ensures Value() == Merged(less, old(Value()), other)
    {
      var mine := State(maps, regs, sets, chat);
      maps := map f | f in mine.maps.Keys + other.maps.Keys :: Merge(less, mine.MapAt(f), other.MapAt(f));
      regs := map f | f in mine.regs.Keys + other.regs.Keys :: Join(less, mine.RegAt(f), other.RegAt(f)).value;
      sets := map f | f in mine.sets.Keys + other.sets.Keys :: mine.SetAt(f) + other.SetAt(f);
      chat := chat + other.chat;
    }

    /** The datagram lane: a collection op is applied only as its origin's next. */
    method ApplyIfOrderly(op: CrdtOp<K, V, C>) returns (applied: bool)
      modifies this
      ensures applied == Orderly(old(Value()), op)
      ensures Value() == if applied then Applied(less, old(Value()), op) else old(Value())
    {
      if op.MapOp? {
        var clock := if op.map' in maps then maps[op.map'].clock else map[];
        if At(clock, op.op.actor) + 1 != op.op.counter {
          return false;
        }
      }
      ApplyOp(op);
      applied := true;
    }

    /** The reliable lane for a collection op: always applied, new or not. */
    method ApplyMapReliable(op: CrdtOp<K, V, C>) returns (advanced: bool)
      requires op.MapOp?
      modifies this
      ensures advanced == Fresh(less, old(Value()), op)
      ensures Value() == Applied(less, old(Value()), op)
    {
      var clock := if op.map' in maps then maps[op.map'].clock else map[];
      advanced := At(clock, op.op.actor) < op.op.counter;
      ApplyOp(op);
    }

    /** Applies a client's op and says whether this copy is to be sent on. */
    method ApplyForBroadcast(op: CrdtOp<K, V, C>, viaDatagram: bool) returns (fanOut: bool)
      requires Total(less)
      modifies this
      ensures fanOut == Taken(less, old(Value()), op, viaDatagram)
      ensures Same(Value(), if fanOut then Applied(less, old(Value()), op) else old(Value()))
    {
      match op
      case RegOp(f, lww) =>
        var before := if f in regs then Some(regs[f]) else None;
        ApplyOp(op);
        fanOut := Some(regs[f]) != before;
      case SetOp(f, x) =>
        fanOut := f !in sets || x !in sets[f];
        if fanOut {
          ApplyOp(op);
        }
      case ChatOp(id) =>
        var before := |chat|;
        ApplyOp(op);
        fanOut := |chat| != before;
      case MapOp(f, o) =>
        if viaDatagram {
          fanOut := ApplyIfOrderly(op);
        } else {
          fanOut := ApplyMapReliable(op);
          if !fanOut {
            StaleIsNoOp(less, old(Value()), op);
          }
        }
    }
  }

  lemma StaleIsNoOp<K, V, C>(less: Order<V>, s: State<K, V, C>, op: CrdtOp<K, V, C>)
    requires !Fresh(less, s, op)
    ensures Same(Applied(less, s, op), s)
  {
    if op.ChatOp? {
      assert s.chat + {op.id} == s.chat;
    }
    if op.SetOp? {
      assert s.SetAt(op.set') + {op.element} == s.SetAt(op.set');
    }
  }
}
