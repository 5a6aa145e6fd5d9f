/**
 * One row of the services table and the rule that turns it into a subtotal
 * (`calc_sub` in app.py). Amounts are exact reals.
 */
module LineItems {

  /** A numeric cell of the table editor: a cell the user left empty, or a
      number. */
  datatype Cell = Blank | Num(value: real)

  /** A row of the table: Description, Price, SQFT and Time. */
  datatype LineItem = LineItem(description: string, price: Cell, sqft: Cell, time: Cell)

  /** Python truthiness of a cell: blank and zero are falsy. */
  predicate Truthy(c: Cell) {
    c.Num? && c.value != 0.0
  }

  /** `float(v or 0)`: a falsy cell becomes 0, any other number is kept. */
  function Coerce(c: Cell): (r: real)
    ensures c.Blank? ==> r == 0.0
    ensures c.Num? ==> r == c.value
    ensures r == 0.0 <==> !Truthy(c)
  {
    if Truthy(c) then c.value else 0.0
  }

  /** The subtotal of a row: Price × SQFT when SQFT is positive, otherwise
      Price × Time. */
  function Subtotal(item: LineItem): (r: real)
    ensures item.sqft.Num? && item.sqft.value > 0.0 ==> r == Coerce(item.price) * item.sqft.value
    ensures (item.sqft.Blank? || item.sqft.value <= 0.0) ==> r == Coerce(item.price) * Coerce(item.time)
  {
    var p, s, t := Coerce(item.price), Coerce(item.sqft), Coerce(item.time);
    if s > 0.0 then p * s else p * t
  }

  /** The row the editor starts with: empty description, Price 0.00, SQFT 0, Time 0. */
  function DefaultRow(): (row: LineItem)
    ensures !Truthy(row.price) && !Truthy(row.sqft) && !Truthy(row.time)
  {
    LineItem("", Num(0.0), Num(0.0), Num(0.0))
  }

  /** A row with positive SQFT ignores its Time cell entirely. */
  lemma TimeIgnoredWhenSqftPositive(item: LineItem, otherTime: Cell)
    requires Coerce(item.sqft) > 0.0
    ensures Subtotal(item.(time := otherTime)) == Subtotal(item)
    ensures Subtotal(item) == Coerce(item.price) * Coerce(item.sqft)
  {
  }

  /** A row whose SQFT is blank, zero or negative is billed by Time, and which
      of those SQFT values it holds makes no difference. */
  lemma TimeUsedWhenSqftNotPositive(item: LineItem, otherSqft: Cell)
    requires Coerce(item.sqft) <= 0.0 && Coerce(otherSqft) <= 0.0
    ensures Subtotal(item) == Coerce(item.price) * Coerce(item.time)
    ensures Subtotal(item.(sqft := otherSqft)) == Subtotal(item)
  {
  }

  /** A row whose numeric cells are all falsy has subtotal 0; so does the
      starter row. */
  lemma FalsyRowIsZero(item: LineItem)
    requires !Truthy(item.price) && !Truthy(item.sqft) && !Truthy(item.time)
    ensures Subtotal(item) == 0.0
    ensures Subtotal(DefaultRow()) == 0.0
  {
  }

  /** With no negative cell a subtotal is never negative. */
  lemma SubtotalNonNegative(item: LineItem)
    requires Coerce(item.price) >= 0.0 && Coerce(item.sqft) >= 0.0 && Coerce(item.time) >= 0.0
    ensures Subtotal(item) >= 0.0
  {
  }

  /** Nothing rejects negative cells: a negative price on an active
      multiplier gives a negative subtotal. */
  lemma NegativePriceFlowsThrough(item: LineItem)
    requires Coerce(item.price) < 0.0
    requires Coerce(item.sqft) > 0.0 || Coerce(item.time) > 0.0
    ensures Subtotal(item) < 0.0
  {
  }

  /** Nothing rejects a negative Time either: a row billed by Time with a
      positive Price and a negative Time has a negative subtotal. */
  lemma NegativeTimeFlowsThrough(item: LineItem)
    requires Coerce(item.sqft) <= 0.0
    requires Coerce(item.price) > 0.0 && Coerce(item.time) < 0.0
    ensures Subtotal(item) < 0.0
  {
  }
}
