/** Months as a tiling of the days, and the proleptic Gregorian calendar as one such tiling. */
module Calendar {
  import opened Arith

  /**
   * Months are numbered consecutively, `12 * year + month - 1`; `start` gives the day number
   * of a month's first day and `length` its number of days.
   */
  datatype Months = Months(start: int -> int, length: int -> int)

  function MonthIndex(year: int, month: int): int {
    12 * year + month - 1
  }

  ghost predicate Tiles(c: Months) {
    forall m :: c.start(m + 1) == c.start(m) + c.length(m) && 28 <= c.length(m) <= 31
  }

  lemma TileAt(c: Months, m: int)
    requires Tiles(c)
    ensures c.start(m + 1) == c.start(m) + c.length(m)
    ensures 28 <= c.length(m) <= 31
  {
  }

  /** The month a day falls in, by walking the tiling. */
  function MonthOf(c: Months, day: int): (m: int)
    requires Tiles(c)
    ensures c.start(m) <= day < c.start(m + 1)
  {
    if c.start(0) <= day then WalkUp(c, day, 0) else WalkDown(c, day, 0)
  }

  function WalkUp(c: Months, day: int, m: int): (r: int)
    requires Tiles(c) && c.start(m) <= day
    ensures c.start(r) <= day < c.start(r + 1)
    decreases day - c.start(m)
  {
    TileAt(c, m);
    if day < c.start(m + 1) then m else WalkUp(c, day, m + 1)
  }

  function WalkDown(c: Months, day: int, m: int): (r: int)
    requires Tiles(c) && day < c.start(m)
    ensures c.start(r) <= day < c.start(r + 1)
    decreases c.start(m) - day
  {
    TileAt(c, m - 1);
    if c.start(m - 1) <= day then m - 1 else WalkDown(c, day, m - 1)
  }

  lemma {:induction false} StartsIncrease(c: Months, a: int, b: int)
    requires Tiles(c) && a <= b
    ensures c.start(a) <= c.start(b)
    decreases b - a
  {
    if a < b {
      TileAt(c, b - 1);
      StartsIncrease(c, a, b - 1);
    }
  }

  lemma MonthOfIsUnique(c: Months, day: int, m: int)
    requires Tiles(c) && c.start(m) <= day < c.start(m + 1)
    ensures MonthOf(c, day) == m
  {
    var k := MonthOf(c, day);
    if k < m { StartsIncrease(c, k + 1, m); }
    if m < k { StartsIncrease(c, m + 1, k); }
  }

  // ----- the Gregorian calendar

  predicate IsLeap(year: int) {
    year % 4 == 0 && (year % 100 != 0 || year % 400 == 0)
  }

  /** Days from 0001-01-01 to January 1 of a year. */
  function YearStart(year: int): int {
    var y := year - 1;
    365 * y + y / 4 - y / 100 + y / 400
  }

  function DaysInMonth(year: int, month: int): int {
    if month == 2 then (if IsLeap(year) then 29 else 28)
    else if month in {4, 6, 9, 11} then 30
    else 31
  }

  function DaysBeforeMonth(year: int, month: int): int {
    if month <= 1 then 0 else DaysBeforeMonth(year, month - 1) + DaysInMonth(year, month - 1)
  }

  function GregorianStart(m: int): int {
    YearStart(m / 12) + DaysBeforeMonth(m / 12, m % 12 + 1)
  }

  function GregorianLength(m: int): int {
    DaysInMonth(m / 12, m % 12 + 1)
  }

  const GREGORIAN := Months((m: int) => GregorianStart(m), (m: int) => GregorianLength(m))

  lemma NextQuotient(y: int, n: int)
    requires n > 1
    ensures (y + 1) / n == y / n + if (y + 1) % n == 0 then 1 else 0
  {
    DivModIdentity(y, n);
    if y % n == n - 1 {
      MulDistributes(y / n, 1, n);
      QuotientUnique(y + 1, n, y / n + 1, 0);
    } else {
      QuotientUnique(y + 1, n, y / n, y % n + 1);
    }
  }

  lemma CenturiesAreFourYears(year: int)
    ensures year % 100 == 0 ==> year % 4 == 0
    ensures year % 400 == 0 ==> year % 100 == 0
  {
    DivModIdentity(year, 100);
    DivModIdentity(year, 400);
    if year % 100 == 0 { QuotientUnique(year, 4, year / 100 * 25, 0); }
    if year % 400 == 0 { QuotientUnique(year, 100, year / 400 * 4, 0); }
  }

  lemma YearLength(year: int)
    ensures YearStart(year + 1) == YearStart(year) + if IsLeap(year) then 366 else 365
  {
    NextQuotient(year - 1, 4);
    NextQuotient(year - 1, 100);
    NextQuotient(year - 1, 400);
    CenturiesAreFourYears(year);
  }

  lemma DaysBeforeDecember(year: int)
    ensures DaysBeforeMonth(year, 12) == if IsLeap(year) then 335 else 334
  {
    var feb := DaysInMonth(year, 2);
    assert DaysBeforeMonth(year, 2) == 31;
    assert DaysBeforeMonth(year, 3) == 31 + feb;
    assert DaysBeforeMonth(year, 4) == 62 + feb;
    assert DaysBeforeMonth(year, 5) == 92 + feb;
    assert DaysBeforeMonth(year, 6) == 123 + feb;
    assert DaysBeforeMonth(year, 7) == 153 + feb;
    assert DaysBeforeMonth(year, 8) == 184 + feb;
    assert DaysBeforeMonth(year, 9) == 215 + feb;
    assert DaysBeforeMonth(year, 10) == 245 + feb;
    assert DaysBeforeMonth(year, 11) == 276 + feb;
  }

  lemma GregorianTile(m: int)
    ensures GregorianStart(m + 1) == GregorianStart(m) + GregorianLength(m)
    ensures 28 <= GregorianLength(m) <= 31
  {
    var year, month := m / 12, m % 12 + 1;
    if month == 12 {
      YearLength(year);
      DaysBeforeDecember(year);
      assert (m + 1) / 12 == year + 1 && (m + 1) % 12 == 0;
    } else {
      assert (m + 1) / 12 == year && (m + 1) % 12 == month;
    }
  }

  lemma GregorianTiles()
    ensures Tiles(GREGORIAN)
  {
    forall m
      ensures GREGORIAN.start(m + 1) == GREGORIAN.start(m) + GREGORIAN.length(m)
      ensures 28 <= GREGORIAN.length(m) <= 31
    {
      GregorianTile(m);
    }
  }
}
