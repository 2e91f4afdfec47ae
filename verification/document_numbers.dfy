/** The human-readable numbers the application stamps on its documents:
    production orders (`OP-YYYYMMDD-NNN`), lots (`LOT-YYYYMMDD-<order id prefix>`),
    quotes (`COT-NNNN`) and sales orders (`ORD-<last six digits of the clock>`).
    The clock and `Math.random()` are parameters. Each format has a parser and
    a round-trip lemma, which is what makes the uniqueness claims checkable. */
module DocumentNumbers {
  import opened Wrappers
  import opened Decimal

  /** The local calendar date of `new Date()`: `getFullYear()`,
      `getMonth() + 1` and `getDate()`. */
  datatype CalendarDate = CalendarDate(year: nat, month: nat, day: nat)

  predicate ValidDate(d: CalendarDate) {
    1 <= d.month <= 12 && 1 <= d.day <= 31
  }

  /** Year, then month and day each padded to two digits: "20240305". */
  function DateStamp(d: CalendarDate): (s: string)
  {
    NatToDecimal(d.year) + ZeroPadded(d.month, 2) + ZeroPadded(d.day, 2)
  }

  /** A date stamp is all digits: four for month and day after the year's. */
  lemma DateStampDigits(d: CalendarDate)
    ensures AllDigits(DateStamp(d))
    ensures ValidDate(d) ==> |DateStamp(d)| == |NatToDecimal(d.year)| + 4
  {
    var y, m, dd := NatToDecimal(d.year), ZeroPadded(d.month, 2), ZeroPadded(d.day, 2);
    DecimalValueConcat(y, m);
    DecimalValueConcat(y + m, dd);
  }

  /** Reads a date stamp back: the last four digits are month and day, the rest the year. */
  function ParseDateStamp(s: string): CalendarDate
    requires AllDigits(s)
    requires 4 <= |s|
  {
    CalendarDate(DecimalValue(s[..|s| - 4]), DecimalValue(s[|s| - 4..|s| - 2]), DecimalValue(s[|s| - 2..]))
  }

  lemma DateStampRoundTrip(d: CalendarDate)
    requires ValidDate(d)
    ensures ParseDateStamp(DateStamp(d)) == d
  {
    var y, m, dd := NatToDecimal(d.year), ZeroPadded(d.month, 2), ZeroPadded(d.day, 2);
    assert Pow10(2) == 100;
    var s := DateStamp(d);
    DateStampDigits(d);
    assert s == y + m + dd;
    assert s[..|s| - 4] == y;
    assert s[|s| - 4..|s| - 2] == m;
    assert s[|s| - 2..] == dd;
    DecimalRoundTrip(d.year);
  }

  /** Two valid dates share a stamp only if they are the same date. */
  lemma DateStampInjective(d1: CalendarDate, d2: CalendarDate)
    requires ValidDate(d1)
    requires ValidDate(d2)
    ensures DateStamp(d1) == DateStamp(d2) <==> d1 == d2
  {
    if DateStamp(d1) == DateStamp(d2) {
      DateStampRoundTrip(d1);
      DateStampRoundTrip(d2);
    }
  }

  /** `Math.floor(u * m)` for `u = Math.random()` in [0, 1): an integer in [0, m). */
  function RandomBelow(u: real, m: nat): (n: nat)
    requires 0.0 <= u < 1.0
    requires 0 < m
    ensures n < m
    ensures n as real <= u * m as real < n as real + 1.0
  {
    ScaledBelow(u, m);
    (u * m as real).Floor
  }

  /** `u * m` lies in [0, m) for `u` in [0, 1). */
  lemma ScaledBelow(u: real, m: nat)
    requires 0.0 <= u < 1.0
    requires 0 < m
    ensures 0.0 <= u * m as real < m as real
  {
    assert m as real - u * m as real == (1.0 - u) * m as real;
    assert (1.0 - u) * m as real > 0.0;
  }

  /** `OP-${year}${month}${day}-${random}` with month and day padded to two
      digits and the random serial (0..999) padded to three. */
  function ProductionOrderNumber(d: CalendarDate, u: real): (s: string)
    requires 0.0 <= u < 1.0
  {
    FormatProductionOrderNumber(d, RandomBelow(u, 1000))
  }

  function FormatProductionOrderNumber(d: CalendarDate, serial: nat): string
  {
    "OP-" + DateStamp(d) + "-" + ZeroPadded(serial, 3)
  }

  datatype OrderNumberParts = OrderNumberParts(date: CalendarDate, serial: nat)

  /** Splits an `OP-` number into its date and serial; `None` if it is not one. */
  function ParseProductionOrderNumber(s: string): Option<OrderNumberParts>
  {
    if 12 <= |s| && s[..3] == "OP-" && s[|s| - 4] == '-'
       && AllDigits(s[3..|s| - 4]) && AllDigits(s[|s| - 3..])
    then Some(OrderNumberParts(ParseDateStamp(s[3..|s| - 4]), DecimalValue(s[|s| - 3..])))
    else None
  }

  /** An order number carries exactly its date and a three-digit serial below 1000. */
  lemma ProductionOrderNumberRoundTrip(d: CalendarDate, u: real)
    requires ValidDate(d)
    requires 0.0 <= u < 1.0
    ensures |ProductionOrderNumber(d, u)| == 11 + |NatToDecimal(d.year)|
    ensures ParseProductionOrderNumber(ProductionOrderNumber(d, u))
            == Some(OrderNumberParts(d, RandomBelow(u, 1000)))
    ensures RandomBelow(u, 1000) <= 999
  {
    FormatRoundTrip(d, RandomBelow(u, 1000));
  }

  lemma FormatRoundTrip(d: CalendarDate, n: nat)
    requires ValidDate(d)
    requires n < 1000
    ensures |FormatProductionOrderNumber(d, n)| == 11 + |NatToDecimal(d.year)|
    ensures ParseProductionOrderNumber(FormatProductionOrderNumber(d, n)) == Some(OrderNumberParts(d, n))
  {
    var stamp, serial := DateStamp(d), ZeroPadded(n, 3);
    assert |serial| == 3 by {
      assert Pow10(3) == 1000;
    }
    DateStampDigits(d);
    ParseOrderNumberShape(stamp, serial);
    DateStampRoundTrip(d);
    assert FormatProductionOrderNumber(d, n) == "OP-" + stamp + "-" + serial;
  }

  /** Parsing an `OP-` number recovers its stamp and serial fields verbatim. */
  lemma ParseOrderNumberShape(stamp: string, serial: string)
    requires AllDigits(stamp)
    requires AllDigits(serial)
    requires 5 <= |stamp|
    requires |serial| == 3
    ensures ParseProductionOrderNumber("OP-" + stamp + "-" + serial)
            == Some(OrderNumberParts(ParseDateStamp(stamp), DecimalValue(serial)))
  {
    var s := "OP-" + stamp + "-" + serial;
    assert s[..3] == "OP-";
    assert s[3..|s| - 4] == stamp;
    assert s[|s| - 3..] == serial;
    assert s[|s| - 4] == '-';
  }

  /** `LOT-${YYYYMMDD}-${orderId.slice(0, 8)}`. */
  function LotNumber(d: CalendarDate, orderId: string): string
  {
    "LOT-" + DateStamp(d) + "-" + Prefix(orderId, 8)
  }

  datatype LotNumberParts = LotNumberParts(date: CalendarDate, orderPrefix: string)

  /** Splits a `LOT-` number at the first dash after the prefix; `None` if it is not one. */
  function ParseLotNumber(s: string): Option<LotNumberParts>
  {
    if 4 <= |s| && s[..4] == "LOT-" then
      match IndexOf(s[4..], '-')
      case None => None
      case Some(i) =>
        if 4 <= i && AllDigits(s[4..4 + i])
        then Some(LotNumberParts(ParseDateStamp(s[4..4 + i]), s[4 + i + 1..]))
        else None
    else None
  }

  lemma LotNumberRoundTrip(d: CalendarDate, orderId: string)
    requires ValidDate(d)
    ensures ParseLotNumber(LotNumber(d, orderId)) == Some(LotNumberParts(d, Prefix(orderId, 8)))
  {
    DateStampDigits(d);
    ParseLotShape(DateStamp(d), Prefix(orderId, 8));
    DateStampRoundTrip(d);
  }

  /** Parsing a `LOT-` number recovers its stamp and the text after the dash. */
  lemma ParseLotShape(stamp: string, rest: string)
    requires AllDigits(stamp)
    requires 4 <= |stamp|
    ensures ParseLotNumber("LOT-" + stamp + "-" + rest) == Some(LotNumberParts(ParseDateStamp(stamp), rest))
  {
    var s := "LOT-" + stamp + "-" + rest;
    assert s[..4] == "LOT-";
    assert s[4..] == stamp + ['-'] + rest;
    IndexAfterDigits(stamp, '-', rest);
    assert s[4..4 + |stamp|] == stamp;
    assert s[4 + |stamp| + 1..] == rest;
  }

  /** Lot numbers identify the completion date and the first eight characters of
      the order id, and nothing more: two orders completed on the same day whose
      ids share those eight characters receive the same lot number. */
  lemma LotNumberCollision(d1: CalendarDate, id1: string, d2: CalendarDate, id2: string)
    requires ValidDate(d1)
    requires ValidDate(d2)
    ensures LotNumber(d1, id1) == LotNumber(d2, id2) <==> d1 == d2 && Prefix(id1, 8) == Prefix(id2, 8)
  {
    if LotNumber(d1, id1) == LotNumber(d2, id2) {
      LotNumberRoundTrip(d1, id1);
      LotNumberRoundTrip(d2, id2);
    }
  }

  /** `COT-${Math.floor(Math.random() * 10000)}` padded to four digits. */
  function QuoteNumber(u: real): string
    requires 0.0 <= u < 1.0
  {
    "COT-" + ZeroPadded(RandomBelow(u, 10000), 4)
  }

  lemma QuoteNumberFormat(u: real)
    requires 0.0 <= u < 1.0
    ensures |QuoteNumber(u)| == 8
    ensures QuoteNumber(u)[..4] == "COT-"
    ensures AllDigits(QuoteNumber(u)[4..])
    ensures DecimalValue(QuoteNumber(u)[4..]) == RandomBelow(u, 10000)
  {
    assert Pow10(4) == 10000;
    assert QuoteNumber(u)[4..] == ZeroPadded(RandomBelow(u, 10000), 4);
  }

  /** `ORD-${Date.now().toString().slice(-6)}`. */
  function SalesOrderNumber(nowMillis: nat): string
  {
    "ORD-" + Suffix(NatToDecimal(nowMillis), 6)
  }

  /** A sales order number encodes the clock modulo one million milliseconds, so
      two orders placed a multiple of 1000 seconds apart share a number. */
  lemma SalesOrderNumberFormat(nowMillis: nat)
    ensures 5 <= |SalesOrderNumber(nowMillis)| <= 10
    ensures SalesOrderNumber(nowMillis)[..4] == "ORD-"
    ensures AllDigits(SalesOrderNumber(nowMillis)[4..])
    ensures DecimalValue(SalesOrderNumber(nowMillis)[4..]) == nowMillis % 1000000
  {
    var s := SalesOrderNumber(nowMillis);
    assert s[4..] == Suffix(NatToDecimal(nowMillis), 6);
    SuffixValue(nowMillis, 6);
    assert Pow10(6) == 1000000;
  }
}
