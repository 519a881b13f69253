/** Last-writer-wins cells.  `less` is the value order that breaks timestamp ties. */
module Lww {
  import opened Sorted
  import opened Wrappers

  datatype Lww<+V> = Lww(timestamp: nat, value: V)

  /** The resolution order: timestamp, then value. */
  predicate Before<V>(less: Order<V>, a: Lww<V>, b: Lww<V>) {
    a.timestamp < b.timestamp || (a.timestamp == b.timestamp && less(a.value, b.value))
  }

  type Cell<+V> = Option<Lww<V>>

  /** Writing an op into a cell keeps the maximum. */
  function Put<V>(less: Order<V>, cell: Cell<V>, op: Lww<V>): Cell<V> {
    if cell.None? || Before(less, cell.value, op) then Some(op) else cell
  }

  /** Merging another replica's cell is writing its winner. */
  function Join<V>(less: Order<V>, cell: Cell<V>, other: Cell<V>): Cell<V> {
    if other.None? then cell else Put(less, cell, other.value)
  }

  /** A cell that is overwritten in place. */
  class LwwCell<V(==)> {
    const less: Order<V>
    var current: Cell<V>

    constructor (less: Order<V>)
      ensures this.less == less && current == None
    {
      this.less, current := less, None;
    }

    method Apply(op: Lww<V>)
      modifies this`current
      ensures current == Put(less, old(current), op)
    {
      if current.None? || Before(less, current.value, op) {
        current := Some(op);
      }
    }

    method Merge(other: Cell<V>)
      modifies this`current
      ensures current == Join(less, old(current), other)
    {
      if other.Some? {
        Apply(other.value);
      }
    }
  }

  function Puts<V>(less: Order<V>, cell: Cell<V>, ops: seq<Lww<V>>): Cell<V> {
    if ops == [] then cell else Put(less, Puts(less, cell, ops[..|ops| - 1]), ops[|ops| - 1])
  }

  /** `r` is the greatest of the cell's content and the writes. */
  ghost predicate IsMaximum<V>(less: Order<V>, cell: Cell<V>, ops: seq<Lww<V>>, r: Cell<V>) {
    match r
    case None => cell.None? && ops == []
    case Some(w) => && (cell == r || w in ops)
                    && (cell.Some? ==> !Before(less, w, cell.value))
                    && (forall op :: op in ops ==> !Before(less, w, op))
  }

  lemma StaysAhead<V(!new)>(less: Order<V>, a: Lww<V>, b: Lww<V>, x: Lww<V>)
    requires Total(less) && !Before(less, a, x) && Before(less, a, b)
    ensures !Before(less, b, x)
  {
  }

  lemma NeverBeforeItself<V(!new)>(less: Order<V>, a: Lww<V>)
    requires Total(less)
    ensures !Before(less, a, a)
  {
  }

  lemma MaximumNext<V(!new)>(less: Order<V>, cell: Cell<V>, ops: seq<Lww<V>>, w: Lww<V>, op: Lww<V>)
    requires Total(less) && IsMaximum(less, cell, ops, Some(w)) && Before(less, w, op)
    ensures IsMaximum(less, cell, ops + [op], Some(op))
  {
    NeverBeforeItself(less, op);
    forall x | !Before(less, w, x) ensures !Before(less, op, x) {
      StaysAhead(less, w, op, x);
    }
  }

  /** Whatever the order and the repeats, the cell ends with the greatest write
      it was given, its first content included. */
  lemma {:induction false} CellHoldsTheMaximum<V(!new)>(less: Order<V>, cell: Cell<V>, ops: seq<Lww<V>>)
    requires Total(less)
    ensures IsMaximum(less, cell, ops, Puts(less, cell, ops))
  {
    if ops == [] {
      if cell.Some? {
        NeverBeforeItself(less, cell.value);
      }
    } else {
      var n := |ops| - 1;
      CellHoldsTheMaximum(less, cell, ops[..n]);
      PutIsMaximum(less, cell, ops[..n], Puts(less, cell, ops[..n]), ops[n]);
      assert ops == ops[..n] + [ops[n]];
    }
  }

  lemma PutIsMaximum<V(!new)>(less: Order<V>, cell: Cell<V>, ops: seq<Lww<V>>, r: Cell<V>, op: Lww<V>)
    requires Total(less) && IsMaximum(less, cell, ops, r)
    ensures IsMaximum(less, cell, ops + [op], Put(less, r, op))
  {
    NeverBeforeItself(less, op);
    if r.Some? && Before(less, r.value, op) {
      MaximumNext(less, cell, ops, r.value, op);
    }
  }
}
