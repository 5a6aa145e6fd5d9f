/**
 * The Subtotal column of the table and the invoice totals block
 * (app.py lines 137 and 144-146): the invoice subtotal is the sum of the
 * row subtotals, HST is 13% of it and the total is subtotal plus HST.
 */
module Aggregation {
  import opened LineItems

  /** The subtotal, HST and total shown under the table. */
  datatype Totals = Totals(subtotal: real, hst: real, total: real)

  /** The HST rate, 13%. */
  const HstRate: real := 0.13

  /** The Subtotal column: one subtotal per row, in row order. */
  function SubtotalColumn(items: seq<LineItem>): (col: seq<real>)
    ensures |col| == |items|
    ensures forall i :: 0 <= i < |items| ==> col[i] == Subtotal(items[i])
  {
    if items == [] then [] else [Subtotal(items[0])] + SubtotalColumn(items[1..])
  }

  /** The sum of a column; an empty column sums to 0. */
  function Sum(xs: seq<real>): (r: real)
    ensures (forall i :: 0 <= i < |xs| ==> xs[i] >= 0.0) ==> r >= 0.0
  {
    if xs == [] then 0.0 else xs[0] + Sum(xs[1..])
  }

  /** The totals of an invoice with the given rows. */
  function Aggregate(items: seq<LineItem>): (t: Totals)
    ensures t.subtotal == Sum(SubtotalColumn(items))
    ensures t.hst == t.subtotal * 13.0 / 100.0
    ensures t.total == t.subtotal * 113.0 / 100.0
    ensures t.total - t.hst == t.subtotal
  {
    var sub := Sum(SubtotalColumn(items));
    var hst := sub * HstRate;
    Totals(sub, hst, sub + hst)
  }

  /** Summing a concatenation sums the parts. */
  lemma {:induction false} SumAppend(xs: seq<real>, ys: seq<real>)
    ensures Sum(xs + ys) == Sum(xs) + Sum(ys)
    decreases |xs|
  {
    if xs == [] {
      assert xs + ys == ys;
    } else {
      assert (xs + ys)[1..] == xs[1..] + ys;
      SumAppend(xs[1..], ys);
    }
  }

  /** The column of a concatenation is the concatenation of the columns. */
  lemma ColumnAppend(a: seq<LineItem>, b: seq<LineItem>)
    ensures SubtotalColumn(a + b) == SubtotalColumn(a) + SubtotalColumn(b)
  {
  }

  /** Adding rows to an invoice adds their subtotal, HST and total to its own. */
  lemma AggregateAppend(a: seq<LineItem>, b: seq<LineItem>)
    ensures Aggregate(a + b).subtotal == Aggregate(a).subtotal + Aggregate(b).subtotal
    ensures Aggregate(a + b).hst == Aggregate(a).hst + Aggregate(b).hst
    ensures Aggregate(a + b).total == Aggregate(a).total + Aggregate(b).total
  {
    ColumnSumAppend(a, b);
  }

  /** An empty table gives subtotal, HST and total 0. */
  lemma EmptyInvoiceIsZero()
    ensures Aggregate([]) == Totals(0.0, 0.0, 0.0)
  {
  }

  /** Summing the column of a concatenation sums the parts' columns. */
  lemma ColumnSumAppend(a: seq<LineItem>, b: seq<LineItem>)
    ensures Sum(SubtotalColumn(a + b)) == Sum(SubtotalColumn(a)) + Sum(SubtotalColumn(b))
  {
    ColumnAppend(a, b);
    SumAppend(SubtotalColumn(a), SubtotalColumn(b));
  }

  /** Taking the element at index i out of a sequence takes it out of its multiset. */
  lemma RemoveAt<T>(b: seq<T>, i: nat)
    requires i < |b|
    ensures multiset(b[..i] + b[i + 1..]) == multiset(b) - multiset{b[i]}
  {
    assert b == b[..i] + [b[i]] + b[i + 1..];
  }

  /** Taking row i out of the table takes its subtotal out of the column sum. */
  lemma ColumnSumRemoveAt(b: seq<LineItem>, i: nat)
    requires i < |b|
    ensures Sum(SubtotalColumn(b)) == Subtotal(b[i]) + Sum(SubtotalColumn(b[..i] + b[i + 1..]))
  {
    var x := b[i];
    assert b == b[..i] + ([x] + b[i + 1..]);
    ColumnSumAppend(b[..i], [x] + b[i + 1..]);
    ColumnSumAppend([x], b[i + 1..]);
    ColumnSumAppend(b[..i], b[i + 1..]);
    assert SubtotalColumn([x]) == [Subtotal(x)];
    assert [Subtotal(x)][1..] == [];
    assert Sum(SubtotalColumn([x])) == Subtotal(x);
  }

  /** The column sum does not depend on the order of the rows. */
  lemma {:induction false} ColumnSumPermutation(a: seq<LineItem>, b: seq<LineItem>)
    requires multiset(a) == multiset(b)
    ensures Sum(SubtotalColumn(a)) == Sum(SubtotalColumn(b))
    decreases |a|
  {
    if a == [] {
      assert |b| == |multiset(b)| == 0;
    } else {
      var x := a[0];
      assert x in multiset(b);
      var i :| 0 <= i < |b| && b[i] == x;
      var rest := b[..i] + b[i + 1..];
      RemoveAt(a, 0);
      RemoveAt(b, i);
      assert a[..0] + a[1..] == a[1..];
      ColumnSumPermutation(a[1..], rest);
      ColumnSumRemoveAt(a, 0);
      ColumnSumRemoveAt(b, i);
      calc {
        Sum(SubtotalColumn(a));
        Subtotal(x) + Sum(SubtotalColumn(a[1..]));
        Subtotal(x) + Sum(SubtotalColumn(rest));
        Sum(SubtotalColumn(b));
      }
    }
  }

  /** Reordering the rows (any permutation) leaves all three totals unchanged. */
  lemma AggregatePermutation(a: seq<LineItem>, b: seq<LineItem>)
    requires multiset(a) == multiset(b)
    ensures Aggregate(a) == Aggregate(b)
  {
    ColumnSumPermutation(a, b);
  }

  /** When no cell is negative, every row subtotal and all three totals are
      non-negative. */
  lemma TotalsNonNegative(items: seq<LineItem>)
    requires forall i :: 0 <= i < |items| ==>
      Coerce(items[i].price) >= 0.0 && Coerce(items[i].sqft) >= 0.0 && Coerce(items[i].time) >= 0.0
    ensures forall i :: 0 <= i < |items| ==> SubtotalColumn(items)[i] >= 0.0
    ensures Aggregate(items).subtotal >= 0.0 && Aggregate(items).hst >= 0.0 && Aggregate(items).total >= 0.0
  {
    forall i | 0 <= i < |items| ensures SubtotalColumn(items)[i] >= 0.0 {
      SubtotalNonNegative(items[i]);
    }
  }

  /** Two rows, one billed by area and one by time. */
  lemma WorkedExample()
    ensures Aggregate([LineItem("A", Num(35.0), Num(1200.0), Num(0.0)),
                       LineItem("B", Num(50.0), Num(0.0), Num(3.0))])
         == Totals(42150.0, 5479.5, 47629.5)
  {
  }

  /** A negative row is not rejected: it lowers the subtotal by its own amount. */
  lemma NegativeRowLowersSubtotal(items: seq<LineItem>, row: LineItem)
    requires Subtotal(row) < 0.0
    ensures Aggregate(items + [row]).subtotal == Aggregate(items).subtotal + Subtotal(row)
    ensures Aggregate(items + [row]).subtotal < Aggregate(items).subtotal
  {
    AggregateAppend(items, [row]);
    assert SubtotalColumn([row]) == [Subtotal(row)];
    assert [Subtotal(row)][1..] == [];
    assert Sum([Subtotal(row)]) == Subtotal(row);
  }
}
