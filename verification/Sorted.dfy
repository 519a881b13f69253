/** The elements of a finite set as a sequence in a strict total order: what
    iterating a `BTreeMap` or sorting by a total key gives. */
module Sorted {
  type Order<!T> = (T, T) -> bool

  ghost predicate Total<T(!new)>(less: Order<T>) {
    && (forall a :: !less(a, a))
    && (forall a, b, c :: less(a, b) && less(b, c) ==> less(a, c))
    && (forall a, b :: less(a, b) || a == b || less(b, a))
  }

  predicate IsLeast<T(==)>(less: Order<T>, s: set<T>, x: T) {
    x in s && forall y :: y in s && y != x ==> less(x, y)
  }

  lemma {:induction false} LeastExists<T(!new)>(less: Order<T>, s: set<T>)
    requires Total(less) && s != {}
    ensures exists x :: IsLeast(less, s, x)
    decreases |s|
  {
    var x :| x in s;
    var rest := s - {x};
    assert forall y :: y in s && y != x ==> y in rest;
    if rest == {} {
      assert IsLeast(less, s, x);
    } else {
      assert rest < s;
      LeastExists(less, rest);
      var y :| IsLeast(less, rest, y);
      assert IsLeast(less, s, if less(y, x) then y else x);
    }
  }

  function Least<T(!new, ==)>(less: Order<T>, s: set<T>): (x: T)
    requires Total(less) && s != {}
    ensures IsLeast(less, s, x)
  {
    LeastExists(less, s);
    var x :| IsLeast(less, s, x);
    x
  }

  function InOrder<T(!new, ==)>(less: Order<T>, s: set<T>): (r: seq<T>)
    requires Total(less)
    ensures |r| == |s|
    ensures forall x :: x in r <==> x in s
    ensures Ascending(less, r)
    decreases |s|
  {
    if s == {} then []
    else
      var x := Least(less, s);
      [x] + InOrder(less, s - {x})
  }

  ghost predicate Ascending<T>(less: Order<T>, r: seq<T>) {
    forall i, j :: 0 <= i < j < |r| ==> less(r[i], r[j])
  }

  /** A set has one ascending sequence. */
  lemma {:induction false} AscendingUnique<T(!new)>(less: Order<T>, r: seq<T>, q: seq<T>)
    requires Total(less) && Ascending(less, r) && Ascending(less, q)
    requires forall x :: x in r <==> x in q
    ensures r == q
  {
    assert (q != [] ==> q[0] in q) && (r != [] ==> r[0] in r);
    if r != [] {
      assert q != [];
      SameHead(less, r, q);
      forall x ensures x in r[1..] <==> x in q[1..] {
        TailMember(less, r, x);
        TailMember(less, q, x);
      }
      AscendingUnique(less, r[1..], q[1..]);
      assert r == [r[0]] + r[1..] && q == [q[0]] + q[1..];
    }
  }

  lemma SameHead<T(!new)>(less: Order<T>, r: seq<T>, q: seq<T>)
    requires Total(less) && Ascending(less, r) && Ascending(less, q) && r != [] && q != []
    requires r[0] in q && q[0] in r
    ensures r[0] == q[0]
  {
  }

  lemma TailMember<T(!new)>(less: Order<T>, r: seq<T>, x: T)
    requires Total(less) && Ascending(less, r) && r != []
    ensures x in r[1..] <==> x in r && x != r[0]
  {
    if x in r && x != r[0] {
      var i :| 0 <= i < |r| && r[i] == x;
      assert r[1..][i - 1] == x;
    }
  }

  lemma SpliceAscends<T(!new)>(less: Order<T>, r: seq<T>, x: T, i: nat)
    requires Total(less) && Ascending(less, r) && i <= |r|
    requires forall j :: 0 <= j < i ==> less(r[j], x)
    requires forall j :: i <= j < |r| ==> less(x, r[j])
    ensures var q := r[..i] + [x] + r[i..]; Ascending(less, q) && forall y :: y in q <==> y in r || y == x
  {
    var q := r[..i] + [x] + r[i..];
    assert r == r[..i] + r[i..];
    forall a, b | 0 <= a < b < |q| ensures less(q[a], q[b]) {
      assert q[a] == if a < i then r[a] else if a == i then x else r[a - 1];
      assert q[b] == if b < i then r[b] else if b == i then x else r[b - 1];
    }
  }

  /** The one ascending sequence of `r` and `x` has `x` at `i` exactly if `x`
      lies between the neighbours there. */
  lemma SpliceIff<T(!new)>(less: Order<T>, r: seq<T>, x: T, i: nat, q: seq<T>)
    requires Total(less) && Ascending(less, r) && Ascending(less, q) && i <= |r|
    requires forall y :: y in q <==> y in r || y == x
    ensures q == r[..i] + [x] + r[i..] <==> (i > 0 ==> less(r[i - 1], x)) && (i < |r| ==> less(x, r[i]))
  {
    var s := r[..i] + [x] + r[i..];
    if (i > 0 ==> less(r[i - 1], x)) && (i < |r| ==> less(x, r[i])) {
      SpliceAscends(less, r, x, i);
      AscendingUnique(less, q, s);
    }
    if q == s {
      assert q[i] == x && (i > 0 ==> q[i - 1] == r[i - 1]) && (i < |r| ==> q[i + 1] == r[i]);
    }
  }

  lemma TopIsLast<T(!new)>(less: Order<T>, r: seq<T>, i: nat)
    requires Ascending(less, r) && i < |r| && forall x :: x in r ==> !less(r[i], x)
    ensures i == |r| - 1
  {
    assert r[|r| - 1] in r;
  }

  lemma LastIsTop<T(!new)>(less: Order<T>, r: seq<T>, x: T)
    requires Total(less) && Ascending(less, r) && x in r
    ensures !less(r[|r| - 1], x)
  {
    var i :| 0 <= i < |r| && r[i] == x;
    assert i == |r| - 1 || less(x, r[|r| - 1]);
  }
}
