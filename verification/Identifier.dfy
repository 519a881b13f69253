/** Dense identifiers: paths of (ratio, marker) nodes between any two of which
    another always fits.  Ratios are exact rationals in the program and reals
    here; markers are the actor that made the path. */
module Identifier {
  import opened Sorted
  import opened Wrappers

  datatype Node = Node(ratio: real, marker: int)
  type Id = seq<Node>

  predicate NodeLess(a: Node, b: Node) {
    a.ratio < b.ratio || (a.ratio == b.ratio && a.marker < b.marker)
  }

  /** Node by node; a path that goes on is smaller than the one that ended. */
  predicate Less(a: Id, b: Id) {
    a != [] && (b == [] || NodeLess(a[0], b[0]) || (a[0] == b[0] && Less(a[1..], b[1..])))
  }

  // ---- The order.

  lemma {:induction false} Irreflexive(a: Id)
    ensures !Less(a, a)
  {
    if a != [] {
      Irreflexive(a[1..]);
    }
  }

  lemma {:induction false} Transitive(a: Id, b: Id, c: Id)
    requires Less(a, b) && Less(b, c)
    ensures Less(a, c)
  {
    if c != [] && a[0] == b[0] && b[0] == c[0] {
      Transitive(a[1..], b[1..], c[1..]);
    }
  }

  lemma {:induction false} Trichotomy(a: Id, b: Id)
    ensures Less(a, b) || a == b || Less(b, a)
  {
    if a != [] && b != [] && a[0] == b[0] {
      Trichotomy(a[1..], b[1..]);
      assert a == [a[0]] + a[1..] && b == [b[0]] + b[1..];
    }
  }

  lemma OrderIsTotal()
    ensures Total(Less)
  {
    forall a: Id ensures !Less(a, a) {
      Irreflexive(a);
    }
    forall a, b, c | Less(a, b) && Less(b, c) ensures Less(a, c) {
      Transitive(a, b, c);
    }
    forall a, b ensures Less(a, b) || a == b || Less(b, a) {
      Trichotomy(a, b);
    }
  }

  datatype Ordering = Lt | Eq | Gt

  /** The comparison loop decides that order. */
  method Compare(a: Id, b: Id) returns (r: Ordering)
    ensures r == Lt <==> Less(a, b)
    ensures r == Eq <==> a == b
    ensures r == Gt <==> Less(b, a)
  {
    var p, q := a, b;
    while p != [] && q != [] && p[0] == q[0]
      invariant Less(a, b) == Less(p, q) && Less(b, a) == Less(q, p) && (a == b <==> p == q)
      decreases |p|
    {
      Heads(p, q);
      p, q := p[1..], q[1..];
    }
    return if p != [] && (q == [] || NodeLess(p[0], q[0])) then Lt else if q != [] then Gt else Eq;
  }

  lemma Heads(p: Id, q: Id)
    requires p != [] && q != [] && p[0] == q[0]
    ensures Less(p, q) == Less(p[1..], q[1..]) && Less(q, p) == Less(q[1..], p[1..]) && (p == q <==> p[1..] == q[1..])
  {
    assert p == [p[0]] + p[1..] && q == [q[0]] + q[1..];
  }

  // ---- An identifier between two others.

  /** A ratio strictly between two ends, either of which may be open. */
  function RationalBetween(low: Option<real>, high: Option<real>): (r: real)
    ensures low.Some? && high.None? ==> low.value < r
    ensures low.None? && high.Some? ==> r < high.value
    ensures low.Some? && high.Some? && low.value < high.value ==> low.value < r < high.value
  {
    match (low, high)
    case (None, None) => 0.0
    case (Some(l), None) => l + 1.0
    case (None, Some(h)) => h - 1.0
    case (Some(l), Some(h)) => (l + h) / 2.0
  }

  function First(path: Id): Option<real> {
    if path == [] then None else Some(path[0].ratio)
  }

  /** The walk down both paths, `low` before `high`, to where they fork. */
  function Walk(low: Id, high: Id, marker: int): Id
    decreases |high|
  {
    if low != [] && high != [] && low[0].ratio == high[0].ratio then
      if low[0].marker < marker < high[0].marker then [Node(high[0].ratio, marker)]
      else if low[0].marker == high[0].marker then [high[0]] + Walk(low[1..], high[1..], marker)
      else [high[0]] + Walk([], high[1..], marker)
    else [Node(RationalBetween(First(low), First(high)), marker)]
  }

  function BetweenTwo(low: Id, high: Id, marker: int): Id {
    if low == high then high else if Less(high, low) then Walk(high, low, marker) else Walk(low, high, marker)
  }

  function BetweenOf(low: Option<Id>, high: Option<Id>, marker: int): Id {
    if low.Some? && high.Some? then BetweenTwo(low.value, high.value, marker)
    else [Node(RationalBetween(First(low.GetOr([])), First(high.GetOr([]))), marker)]
  }

  method Between(low: Option<Id>, high: Option<Id>, marker: int) returns (r: Id)
    ensures r == BetweenOf(low, high, marker)
  {
    if low.None? || high.None? {
      return [Node(RationalBetween(First(low.GetOr([])), First(high.GetOr([]))), marker)];
    }
    var order := Compare(low.value, high.value);
    if order == Eq {
      r := high.value;
    } else if order == Gt {
      r := Descend(high.value, low.value, marker);
    } else {
      r := Descend(low.value, high.value, marker);
    }
  }

  /** The loop of `Between`. */
  method Descend(low: Id, high: Id, marker: int) returns (r: Id)
    ensures r == Walk(low, high, marker)
  {
    var lowPath, highPath := low, high;
    r := [];
    while lowPath != [] && highPath != [] && lowPath[0].ratio == highPath[0].ratio
      invariant Walk(low, high, marker) == r + Walk(lowPath, highPath, marker)
      decreases |highPath|
    {
      if lowPath[0].marker < marker < highPath[0].marker {
        return r + [Node(highPath[0].ratio, marker)];
      }
      r := r + [highPath[0]];
      lowPath := if lowPath[0].marker == highPath[0].marker then lowPath[1..] else [];
      highPath := highPath[1..];
    }
    r := r + [Node(RationalBetween(First(lowPath), First(highPath)), marker)];
  }

  /** With the low path cleared, the walk only has to stay below `high`. */
  lemma WalkBelow(high: Id, marker: int)
    ensures Less(Walk([], high, marker), high)
  {
  }

  /** The walk lands strictly between its ends. */
  lemma {:induction false} WalkIsBetween(low: Id, high: Id, marker: int)
    requires Less(low, high)
    ensures Less(low, Walk(low, high, marker)) && Less(Walk(low, high, marker), high)
    decreases |high|
  {
    if low != [] && high != [] && low[0].ratio == high[0].ratio {
      if low[0].marker == high[0].marker {
        WalkIsBetween(low[1..], high[1..], marker);
      } else {
        WalkBelow(high[1..], marker);
      }
    }
  }

  /** The new path ends in a node of its maker. */
  lemma {:induction false} WalkEndsInMarker(low: Id, high: Id, marker: int)
    ensures var w := Walk(low, high, marker); w != [] && w[|w| - 1].marker == marker
    decreases |high|
  {
    if low != [] && high != [] && low[0].ratio == high[0].ratio {
      if low[0].marker == high[0].marker {
        WalkEndsInMarker(low[1..], high[1..], marker);
      } else {
        WalkEndsInMarker([], high[1..], marker);
      }
    }
  }

  /** An identifier always fits: strictly between two different ends in either
      order, below an upper end alone, and above a lower end alone exactly if
      that end has a node. */
  lemma BetweenIsBetween(low: Option<Id>, high: Option<Id>, marker: int)
    ensures var r := BetweenOf(low, high, marker);
            match (low, high)
            case (Some(l), Some(h)) =>
              if l == h then r == h
              else (Less(l, r) && Less(r, h)) || (Less(h, r) && Less(r, l))
            case (None, Some(h)) => Less(r, h)
            case (Some(l), None) => Less(l, r) <==> l != []
            case (None, None) => r != []
  {
    if low.Some? && high.Some? && low.value != high.value {
      Trichotomy(low.value, high.value);
      if Less(high.value, low.value) {
        WalkIsBetween(high.value, low.value, marker);
      } else {
        WalkIsBetween(low.value, high.value, marker);
      }
    }
  }

  /** Two actors that insert into the same gap at once get different paths. */
  lemma ActorsNeverCollide(low: Option<Id>, high: Option<Id>, low': Option<Id>, high': Option<Id>, a: int, b: int)
    requires a != b && (low.None? || low != high) && (low'.None? || low' != high')
    ensures BetweenOf(low, high, a) != BetweenOf(low', high', b)
  {
    EndsInMarker(low, high, a);
    EndsInMarker(low', high', b);
  }

  lemma EndsInMarker(low: Option<Id>, high: Option<Id>, marker: int)
    requires low.None? || low != high
    ensures var r := BetweenOf(low, high, marker); r != [] && r[|r| - 1].marker == marker
  {
    if low.Some? && high.Some? {
      WalkEndsInMarker(low.value, high.value, marker);
      WalkEndsInMarker(high.value, low.value, marker);
    }
  }
}
