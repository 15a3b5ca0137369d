/**
 * Values shared by every stage of the finance batch: optional cells, calendar
 * dates, exact decimals, per-row traceability columns, and the half-to-even
 * rounding that the numeric columns go through.
 */
module Common {

  /** A cell that may be missing (a null, NaN or NaT cell of the table). */
  datatype Option<+T> = None | Some(value: T)

  /** A calendar date as produced by date parsing. */
  datatype Date = Date(year: int, month: int, day: int)

  /** A calendar month, the key of the monthly trend (`YYYY-MM`). */
  datatype Month = Month(year: int, month: int)

  function MonthOf(d: Date): Month
  {
    Month(d.year, d.month)
  }

  /** Chronological order on dates. */
  predicate DateLe(a: Date, b: Date)
  {
    a.year < b.year
    || (a.year == b.year && (a.month < b.month || (a.month == b.month && a.day <= b.day)))
  }

  /**
   * The traceability columns that ingestion attaches to every row:
   * `_ingest_ts` (as an ordered stamp), `_source_file`, `_batch_id`, `_event_id`.
   */
  datatype Trace = Trace(ingestTs: int, sourceFile: string, batchId: string, eventId: string)

  /** The exact decimal number units / 10^scale. */
  datatype Decimal = Decimal(units: int, scale: nat)

  function Pow10(n: nat): (r: nat)
    ensures r >= 1
  {
    if n == 0 then 1 else 10 * Pow10(n - 1)
  }

  lemma {:induction false} Pow10Add(a: nat, b: nat)
    ensures Pow10(a) * Pow10(b) == Pow10(a + b)
  {
    if a > 0 {
      Pow10Add(a - 1, b);
      calc {
        Pow10(a) * Pow10(b);
        10 * Pow10(a - 1) * Pow10(b);
        10 * Pow10(a - 1 + b);
      }
    }
  }

  function Abs(x: int): nat
  {
    if x < 0 then -x else x
  }

  /**
   * n / d rounded to the nearest integer, ties to the even neighbour (the
   * rounding numpy applies in `round`).
   */
  function RoundHalfEven(n: int, d: int): (r: int)
    requires d != 0
    ensures 2 * Abs(n - r * d) <= Abs(d)
    ensures 2 * Abs(n - r * d) == Abs(d) ==> r % 2 == 0
  {
    if d > 0 then
      RoundHalfEvenPos(n, d)
    else
      var r := RoundHalfEvenPos(-n, -d);
      assert -n - r * -d == -(n - r * d);
      r
  }

  function RoundHalfEvenPos(n: int, d: int): (r: int)
    requires d > 0
    ensures 2 * Abs(n - r * d) <= d
    ensures 2 * Abs(n - r * d) == d ==> r % 2 == 0
  {
    var q := n / d;
    var m := n - q * d;
    assert 0 <= m < d;
    assert n - (q + 1) * d == m - d;
    if 2 * m < d then q
    else if 2 * m > d then q + 1
    else if q % 2 == 0 then q
    else q + 1
  }

  /**
   * The decimal rounded to 2 places, as a whole number of cents
   * (`round(2)` on the amount columns).
   */
  function Cents(x: Decimal): (r: int)
    ensures 2 * Abs(x.units * 100 - r * Pow10(x.scale)) <= Pow10(x.scale)
  {
    if x.scale <= 2 then
      var m := Pow10(2 - x.scale);
      Pow10Add(x.scale, 2 - x.scale);
      assert Pow10(x.scale) * m == 100;
      MulAssoc(x.units, m, Pow10(x.scale));
      x.units * m
    else
      var d := Pow10(x.scale - 2);
      var r := RoundHalfEven(x.units, d);
      Pow10Add(2, x.scale - 2);
      assert Pow10(x.scale) == 100 * d;
      MulAssoc(r, d, 100);
      assert x.units * 100 - r * Pow10(x.scale) == 100 * (x.units - r * d);
      r
  }

  lemma MulAssoc(a: int, b: int, c: int)
    ensures (a * b) * c == a * (b * c) && a * (b * c) == a * (c * b)
  {
  }

  /** An amount that is not positive never rounds to positive cents. */
  lemma CentsSign(x: Decimal)
    ensures x.units <= 0 ==> Cents(x) <= 0
    ensures Cents(x) > 0 ==> x.units > 0
  {
    if x.units <= 0 {
      if x.scale <= 2 {
        NonPositiveTimesPositive(x.units, Pow10(2 - x.scale));
      } else {
        RoundNonPositive(x.units, Pow10(x.scale - 2));
      }
    }
  }

  /** A non-negative amount never rounds to negative cents. */
  lemma CentsNonNegative(x: Decimal)
    requires x.units >= 0
    ensures Cents(x) >= 0
  {
    if x.scale > 2 {
      RoundNonNegative(x.units, Pow10(x.scale - 2));
    }
  }

  /** A non-negative numerator rounds to a non-negative quotient. */
  lemma RoundNonNegative(n: int, d: int)
    requires n >= 0 && d > 0
    ensures RoundHalfEven(n, d) >= 0
  {
    var r := RoundHalfEven(n, d);
    assert 2 * Abs(n - r * d) <= d;
    if r <= -1 {
      assert false;
    }
  }

  lemma NonPositiveTimesPositive(a: int, b: int)
    requires a <= 0 && b > 0
    ensures a * b <= 0
  {
  }

  /** A non-positive numerator rounds to a non-positive quotient. */
  lemma RoundNonPositive(n: int, d: int)
    requires n <= 0 && d > 0
    ensures RoundHalfEven(n, d) <= 0
  {
    var r := RoundHalfEven(n, d);
    assert 2 * Abs(n - r * d) <= d;
    if r >= 1 {
      assert false;
    }
  }
}
