# Invoice arithmetic of the ALT Contracting invoice form

The invoice form in `app.py` takes a services table in which each row has a
Description, a Price, an area (SQFT) and a duration (Time). It works out one
subtotal per row. It then adds 13% HST (Ontario's harmonized sales tax) and
shows a total due. It also builds an invoice number from the current month
and a sequence text that the user types in.

This project models that arithmetic in Dafny and proves its rules:

- `line_items.dfy` (module `LineItems`): the table cells, the `or 0` coercion
  and the row subtotal rule. Price × SQFT is used when SQFT is positive.
  Otherwise the row uses Price × Time.
- `aggregation.dfy` (module `Aggregation`): the Subtotal column, its sum, HST
  and the total.
- `invoice_numbers.dfy` (module `InvoiceNumbers`): the `YYYY/MM` prefix and
  the `YYYY/MM-<sequence>` number. It also has a parser, written only for the
  proofs, that inverts the number. The round trip shows that the number fixes
  the year, the month and the sequence text.
- `wrappers.dfy` (module `Wrappers`): the `Option` type.

Amounts are exact `real`s, not binary floats. A numeric cell is either
`Blank` (a cell the user left empty) or `Num(x)`. The clock is not read: the
year and month are parameters.

The starter table (app.py:126) has a float Price column and integer SQFT and
Time columns, so an emptied cell is stored as NaN. NaN is truthy, so
`float(v or 0)` keeps it (app.py:134):
- A NaN SQFT fails `s > 0`, so the row is billed by Time, as `Blank` is.
- A NaN Price, or a NaN Time with SQFT ≤ 0, makes the row's Subtotal cell
  NaN. `SubtotalColumn` gives 0 for that row instead.
- `.sum()` (app.py:144) skips NaN entries, so such a row adds nothing to the
  subtotal, HST or total. A `Blank` cell has the same effect on the three
  totals.

Two further facts about the source:
- HST is `sub_val * 0.13` with no rounding (app.py:145). Only the display
  rounds to two decimals (app.py:150-152).
- `float()` raises on non-numeric text in a numeric cell (app.py:134). It
  does not turn it into 0.

## Model

| member | source | states |
|---|---|---|
| `LineItems.Coerce` | app.py:134 | a blank cell becomes 0 and a number is kept as it is; the result is 0 exactly when the cell is falsy (blank or zero) |
| `LineItems.Subtotal` | app.py:133-135 | a row whose SQFT cell holds a positive number is billed Price × SQFT; a row whose SQFT is blank, zero or negative is billed Price × Time |
| `LineItems.DefaultRow` | app.py:126 | the starter row's Price, SQFT and Time cells are all falsy |
| `LineItems.TimeIgnoredWhenSqftPositive` | app.py:135 | with positive SQFT, replacing the Time cell by anything leaves the subtotal unchanged, and the subtotal is Price × SQFT |
| `LineItems.TimeUsedWhenSqftNotPositive` | app.py:135 | with SQFT ≤ 0 (negative included) the subtotal is Price × Time, whatever non-positive SQFT value the row holds |
| `LineItems.FalsyRowIsZero` | app.py:134-135 | a row whose numeric cells are all blank or zero has subtotal 0, and so does the starter row of line 126 |
| `LineItems.SubtotalNonNegative` | app.py:134-135 | with no negative Price, SQFT or Time the row subtotal is ≥ 0 |
| `LineItems.NegativePriceFlowsThrough` | app.py:134-135 | nothing checks signs: a negative Price with a positive active multiplier gives a negative subtotal |
| `LineItems.NegativeTimeFlowsThrough` | app.py:134-135 | nothing checks signs: with SQFT ≤ 0, a negative Time and a positive Price give a negative subtotal |
| `Aggregation.SubtotalColumn` | app.py:137 | the Subtotal column has one entry per row, and entry i is the subtotal of row i |
| `Aggregation.Sum` | app.py:144 | the column sum is ≥ 0 when no entry is negative |
| `Aggregation.Aggregate` | app.py:144-146 | the invoice subtotal is the sum of the Subtotal column; HST is subtotal × 13/100; total is subtotal × 113/100; total − HST = subtotal |
| `Aggregation.SumAppend` | app.py:144 | the sum of two concatenated columns is the sum of their sums |
| `Aggregation.AggregateAppend` | app.py:137-146 | appending rows adds their subtotal, their HST and their total to the invoice's |
| `Aggregation.EmptyInvoiceIsZero` | app.py:144-146 | an empty table gives subtotal, HST and total all 0 |
| `Aggregation.ColumnSumPermutation` | app.py:137-144 | any reordering of the rows gives the same invoice subtotal |
| `Aggregation.AggregatePermutation` | app.py:144-146 | any reordering of the rows gives the same subtotal, HST and total |
| `Aggregation.TotalsNonNegative` | app.py:133-146 | with no negative cell, every row subtotal and the invoice subtotal, HST and total are ≥ 0 |
| `Aggregation.WorkedExample` | app.py:133-146 | rows (35, 1200, 0) and (50, 0, 3) give subtotal 42150, HST 5479.5 and total 47629.5 |
| `Aggregation.NegativeRowLowersSubtotal` | app.py:144 | a row with a negative subtotal is accepted and lowers the invoice subtotal by exactly that amount |
| `InvoiceNumbers.FormatYearMonth` | app.py:110 | `%Y/%m` is seven characters: four digits whose value is the year, a slash, and two digits whose value is the month |
| `InvoiceNumbers.InvoiceNo` | app.py:114 | the number is the prefix, then `-`, then the sequence text, copied verbatim |
| `InvoiceNumbers.ParseInvoiceNo` | app.py:110-114 | proof-only inverse of lines 110-114 (the app never parses numbers): an accepted number has a valid four-digit year and a month 1-12, and everything after position 8 is the serial |
| `InvoiceNumbers.ParseFormatted` | app.py:110-114 | parsing a generated number returns the year, month and sequence text it was built from |
| `InvoiceNumbers.FormattedParse` | app.py:110-114 | every text the parser accepts is exactly the number generated from the parts it returns |
| `InvoiceNumbers.InvoiceNoInjective` | app.py:110-114 | two generated numbers are equal if and only if their years, months and sequence texts are equal |
| `InvoiceNumbers.DefaultSerialSuffix` | app.py:113-114 | with the default sequence `001` the number ends in `-001` |

## Left out

- Streamlit UI (page setup, columns, the table editor, session state, buttons, preview): presentation with no logic.
- `create_pdf`: a sequence of calls into the FPDF library, whose bytes cannot be specified here. The logo file check is file-system I/O.
- `datetime.now()`: a clock read. The year and month are parameters.
- InvoiceNumbers.FormatYearMonth: requires a four-digit year (1000-9999). `strftime` output for earlier years depends on the platform.
- Python float rounding and the `$…:,.2f` display formatting: amounts are exact reals, so totals carry no float drift.
- Non-numeric text in a numeric cell: `float` raises on it, and the model has no such cell.
- NaN: the model has no NaN value, so the NaN a row's Subtotal cell can show is not modelled. Its effect on the totals is the same as `Blank`'s (see above).
- A history log of saved invoices: `app.py` has no such code.
