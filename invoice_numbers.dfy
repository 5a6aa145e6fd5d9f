/**
 * The invoice number (app.py lines 110-114): the issue month formatted as
 * `YYYY/MM`, a hyphen, then the Sequence text exactly as typed (default "001").
 */
module InvoiceNumbers {
  import opened Wrappers

  /** The Sequence field's initial text. */
  const DefaultSerial: string := "001"

  predicate IsDigit(c: char) {
    '0' <= c <= '9'
  }

  /** The character of a decimal digit. */
  function DigitChar(d: nat): (c: char)
    requires d < 10
    ensures IsDigit(c) && DigitValue(c) == d
  {
    ('0' as int + d) as char
  }

  /** The value of a decimal digit character. */
  function DigitValue(c: char): (d: nat)
    requires IsDigit(c)
    ensures d < 10
  {
    c as int - '0' as int
  }

  /** A number below 10000 is its four decimal digits put back together. */
  lemma YearRecomposes(year: nat)
    requires year <= 9999
    ensures 1000 * (year / 1000) + 100 * (year / 100 % 10) + 10 * (year / 10 % 10) + year % 10 == year
  {
    var q := year / 10;
    assert year == 10 * q + year % 10;
    assert q == 10 * (q / 10) + q % 10;
    assert q / 10 == year / 100;
    assert year / 100 == 10 * (year / 1000) + year / 100 % 10;
  }

  /** `strftime("%Y/%m")` for a four-digit year: the year, a slash and the
      month padded to two digits. */
  function FormatYearMonth(year: nat, month: nat): (ym: string)
    requires 1000 <= year <= 9999 && 1 <= month <= 12
    ensures |ym| == 7 && ym[4] == '/'
    ensures forall k :: 0 <= k < 7 && k != 4 ==> IsDigit(ym[k])
    ensures 1000 * DigitValue(ym[0]) + 100 * DigitValue(ym[1]) + 10 * DigitValue(ym[2]) + DigitValue(ym[3]) == year
    ensures 10 * DigitValue(ym[5]) + DigitValue(ym[6]) == month
  {
    YearRecomposes(year);
    [DigitChar(year / 1000), DigitChar(year / 100 % 10), DigitChar(year / 10 % 10), DigitChar(year % 10),
     '/', DigitChar(month / 10), DigitChar(month % 10)]
  }

  /** The invoice number: the month prefix, a hyphen and the serial copied
      verbatim, with no padding, trimming or validation. */
  function InvoiceNo(ym: string, serial: string): (r: string)
    ensures |r| == |ym| + 1 + |serial|
    ensures r[..|ym|] == ym && r[|ym|] == '-' && r[|ym| + 1..] == serial
  {
    ym + "-" + serial
  }

  /** The parts an invoice number is made of. */
  datatype Parts = Parts(year: nat, month: nat, serial: string)

  /** Splits an invoice number back into year, month and serial; None when the
      text is not of the form `YYYY/MM-<serial>` with a four-digit year and a
      month from 01 to 12. The serial may itself contain hyphens. */
  function ParseInvoiceNo(s: string): (r: Option<Parts>)
    ensures r.Some? ==> 1000 <= r.value.year <= 9999 && 1 <= r.value.month <= 12
    ensures r.Some? ==> |s| >= 8 && s[8..] == r.value.serial
  {
    if |s| < 8 || s[4] != '/' || s[7] != '-' then None
    else if !(IsDigit(s[0]) && IsDigit(s[1]) && IsDigit(s[2]) && IsDigit(s[3]) && IsDigit(s[5]) && IsDigit(s[6])) then None
    else
      var year := 1000 * DigitValue(s[0]) + 100 * DigitValue(s[1]) + 10 * DigitValue(s[2]) + DigitValue(s[3]);
      var month := 10 * DigitValue(s[5]) + DigitValue(s[6]);
      if year < 1000 || month < 1 || month > 12 then None
      else Some(Parts(year, month, s[8..]))
  }

  /** Parsing a generated invoice number gives back its year, month and serial. */
  lemma ParseFormatted(year: nat, month: nat, serial: string)
    requires 1000 <= year <= 9999 && 1 <= month <= 12
    ensures ParseInvoiceNo(InvoiceNo(FormatYearMonth(year, month), serial)) == Some(Parts(year, month, serial))
  {
  }

  /** Every text the parser accepts is exactly the invoice number generated
      from what it returns. */
  lemma FormattedParse(s: string)
    requires ParseInvoiceNo(s).Some?
    ensures var p := ParseInvoiceNo(s).value;
      InvoiceNo(FormatYearMonth(p.year, p.month), p.serial) == s
  {
  }

  /** Two invoice numbers are equal only when year, month and serial all are. */
  lemma InvoiceNoInjective(y1: nat, m1: nat, s1: string, y2: nat, m2: nat, s2: string)
    requires 1000 <= y1 <= 9999 && 1 <= m1 <= 12 && 1000 <= y2 <= 9999 && 1 <= m2 <= 12
    ensures InvoiceNo(FormatYearMonth(y1, m1), s1) == InvoiceNo(FormatYearMonth(y2, m2), s2)
        <==> y1 == y2 && m1 == m2 && s1 == s2
  {
    ParseFormatted(y1, m1, s1);
    ParseFormatted(y2, m2, s2);
  }

  /** With the default Sequence the number is `YYYY/MM-001`. */
  lemma DefaultSerialSuffix(ym: string)
    ensures |InvoiceNo(ym, DefaultSerial)| == |ym| + 4
    ensures InvoiceNo(ym, DefaultSerial)[|ym|..] == "-001"
  {
  }
}
