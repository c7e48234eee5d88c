/** What the plan helpers promise together: nothing is lost or added, and what they propose is accepted. */
module PlanProofs {
  import opened Wrappers
  import opened Arithmetic
  import opened Rounding
  import opened PaymentPlan

  // ----- conservation -----

  lemma {:induction false} SumOfEqualTail(rows: seq<Row>, first: int, each: int)
    requires |rows| > 0
    requires forall k | 0 <= k < |rows| :: Cents(NumberOrZero(rows[k].amount)) == if k == 0 then first else each
    ensures SumCents(rows) == first + each * (|rows| - 1)
  {
    if |rows| == 1 {
      assert rows[..0] == [];
    } else {
      SumOfEqualTail(rows[..|rows| - 1], first, each);
    }
  }

  /** Each part of a split, in cents. */
  lemma SplitPart(total: real, count: int, k: nat)
    requires k < count
    ensures |SplitEvenly(total, count)| == count
    ensures Cents(SplitEvenly(total, count)[k])
         == if k == 0 then Cents(total) - (Cents(total) / count) * (count - 1) else Cents(total) / count
  {
    var all := Cents(total);
    var each := all / count;
    CentsOfDollars(if k == 0 then each + (all - each * count) else each);
  }

  /**
    "Split evenly" places the total exactly, in equal payments but for the first, which takes the odd
    cents, fewer than there are payments. Keys and dates already given stay.
   */
  lemma EvenRowsPlaceEverything(rows: seq<Row>, total: real, last: Option<Moment>, now: Moment)
    requires |rows| > 0
    ensures var even := EvenRows(rows, total, last, now);
      && |even| == |rows|
      && (forall k | 0 < k < |rows| ::
            Cents(NumberOrZero(even[k].amount)) <= Cents(NumberOrZero(even[0].amount)) < Cents(NumberOrZero(even[k].amount)) + |rows|)
      && (forall j, k | 0 < j < k < |rows| :: even[j].amount == even[k].amount)
      && (forall k | 0 <= k < |rows| :: even[k].key == rows[k].key && (rows[k].date.Some? || k == 0 ==> even[k].date == rows[k].date))
    ensures SumCents(EvenRows(rows, total, last, now)) == Cents(total)
    ensures Remainder(EvenRows(rows, total, last, now), total) == 0.0
  {
    var even := EvenRows(rows, total, last, now);
    var each := Cents(total) / |rows|;
    forall k | 0 <= k < |rows|
      ensures Cents(NumberOrZero(even[k].amount)) == if k == 0 then Cents(total) - each * (|rows| - 1) else each
    {
      SplitPart(total, |rows|, k);
    }
    assert Cents(total) - each * (|rows| - 1) == each + Cents(total) % |rows|;
    SumOfEqualTail(even, Cents(total) - each * (|rows| - 1), each);
  }

  /** A new payment takes exactly what is left, and never makes an overfull plan worse. */
  lemma AddRowTakesTheRest(rows: seq<Row>, total: real, key: nat)
    ensures Remainder(AddRow(rows, total, key), total)
         == if Remainder(rows, total) < 0.0 then Remainder(rows, total) else 0.0
    ensures var more := AddRow(rows, total, key);
      |more| == |rows| + 1 && more[..|rows|] == rows && (more[|rows|].amount.Blank? <==> Remainder(rows, total) <= 0.0)
  {
    var more := AddRow(rows, total, key);
    assert more[..|more| - 1] == rows;
    CentsOfDollars(Cents(total) - SumCents(rows));
  }

  /** The date of the last row that has one. */
  lemma {:induction false} LastDateIs(rows: seq<Row>, k: nat)
    requires k < |rows| && rows[k].date.Some? && forall j | k < j < |rows| :: rows[j].date.None?
    ensures LastDate(rows) == rows[k].date
  {
    if k < |rows| - 1 { LastDateIs(rows[..|rows| - 1], k); }
  }

  lemma {:induction false} NoLastDate(rows: seq<Row>)
    requires Undated(rows)
    ensures LastDate(rows).None?
  {
    if rows != [] { NoLastDate(rows[..|rows| - 1]); }
  }

  /** The new payment's date: a week after the last there is, or none. */
  lemma AddedDate(rows: seq<Row>, total: real, key: nat)
    ensures forall k | 0 <= k < |rows| && rows[k].date.Some? && (forall j | k < j < |rows| :: rows[j].date.None?) ::
              AddRow(rows, total, key)[|rows|].date == Some(rows[k].date.value + 7)
    ensures Undated(rows) ==> AddRow(rows, total, key)[|rows|].date.None?
  {
    if Undated(rows) { NoLastDate(rows); }
    forall k | 0 <= k < |rows| && rows[k].date.Some? && (forall j | k < j < |rows| :: rows[j].date.None?)
      ensures AddRow(rows, total, key)[|rows|].date == Some(rows[k].date.value + 7)
    {
      LastDateIs(rows, k);
    }
  }

  /** A payment added to a plan with good dates comes a week after the last: its dates stay good exactly when that day is allowed. */
  lemma AddRowKeepsDates(rows: seq<Row>, total: real, key: nat, latest: Option<Moment>, today: Day)
    requires |rows| >= 2 && DatesValid(rows, latest, today)
    ensures var more := AddRow(rows, total, key);
      && |more| == |rows| + 1 && more[..|rows|] == rows
      && more[|rows|].date == Some(rows[|rows| - 1].date.value + 7)
      && (DatesValid(more, latest, today) <==> (latest.Some? ==> rows[|rows| - 1].date.value + 7 <= DayOf(latest.value)))
  {
    LastDateIs(rows, |rows| - 1);
    var more := AddRow(rows, total, key);
    assert forall k | 0 <= k < |rows| :: more[k] == rows[k];
  }

  // ----- dates -----

  lemma MultiplesStep(span: int, j: int, k: int)
    requires span >= 0 && j < k
    ensures span * k >= span * j + span
  {
    var more := k - j - 1;
    assert span * more >= 0;
    assert span * k == span * j + span + span * more;
  }

  lemma OffsetsStepUp(span: int, j: int, k: int, count: int)
    requires 1 < count && 0 <= j < k < count && span >= count - 1
    ensures Offset(span, j, count) < Offset(span, k, count)
  {
    MultiplesStep(span, j, k);
    RoundQuotientSteps(span * j, span * k, count - 1);
  }

  /** The spread ends exactly on the last day, starts after today, and rounding never leaves the span. */
  lemma OffsetsStayInside(span: int, k: int, count: int)
    requires 1 < count && 0 <= k < count && span >= 0
    ensures 0 <= Offset(span, k, count) <= span
    ensures Offset(span, count - 1, count) == span
  {
    QuotientWithin(span, k, count - 1);
    QuotientWithin(span, count - 1, count - 1);
    RoundMonotone(0.0, (span * k) as real / (count - 1) as real);
    RoundMonotone((span * k) as real / (count - 1) as real, span as real);
  }

  lemma QuotientWithin(span: int, k: int, d: int)
    requires 0 <= k <= d && d > 0 && span >= 0
    ensures 0.0 <= (span * k) as real / d as real <= span as real
    ensures k == d ==> (span * k) as real / d as real == span as real
  {
    var x := (span * k) as real / d as real;
    assert 0 <= span * k;
    assert span * k <= span * d by { if k < d { MultiplesStep(span, k, d); } }
    assert (span * d) as real == span as real * d as real;
    assert x * d as real == (span * k) as real;
    CancelFactor(x, span as real, d as real);
    CancelFactor(0.0, x, d as real);
    if k == d { CancelFactor(span as real, x, d as real); }
  }

  /** One payment short of a day each, the first date is rounded up to the second. */
  lemma FirstOffsetRoundsUp(count: int)
    requires 2 < count
    ensures Offset(count - 2, 1, count) == 1
  {
    var d := (count - 1) as real;
    var x := (count - 2) as real / d;
    assert x == 1.0 - 1.0 / d;
    assert 1.0 / d <= 0.5;
  }

  /** With fewer days than payments to date, two dates coincide. */
  lemma OffsetsCollide(span: int, count: int)
    requires 2 < count && 0 <= span < count - 1
    ensures exists k :: 1 <= k < count - 1 && Offset(span, k, count) >= Offset(span, k + 1, count)
  {
    if forall k :: 1 <= k < count - 1 ==> Offset(span, k, count) < Offset(span, k + 1, count) {
      OffsetsGrow(span, count, count - 1);
      OffsetsStayInside(span, 1, count);
      FirstOffsetRoundsUp(count);
    }
  }

  lemma {:induction false} OffsetsGrow(span: int, count: int, k: int)
    requires 1 <= k < count
    requires forall j :: 1 <= j < count - 1 ==> Offset(span, j, count) < Offset(span, j + 1, count)
    ensures Offset(span, k, count) >= Offset(span, 1, count) + k - 1
  {
    if k > 1 {
      OffsetsGrow(span, count, k - 1);
      assert Offset(span, k - 1, count) < Offset(span, k - 1 + 1, count);
    }
  }

  // ----- "Split evenly" and the starting plan are accepted -----

  predicate Undated(rows: seq<Row>) {
    forall k | 0 <= k < |rows| :: rows[k].date.None?
  }

  /** The amounts of `n` equal payments meet every floor. */
  predicate EvenAmountsFit(total: real, n: int, feeOwed: real) {
    && n >= 2
    && (var each := Cents(total) / n;
        var first := Cents(total) - each * (n - 1);
        && first >= LeastCents(0, n, feeOwed)
        && each >= 50
        && (n > 2 ==> each >= 100 * MIN_PLAN_PAYMENT))
  }

  /** There is a day for each dated payment between tomorrow and the last one. */
  predicate EvenDatesFit(n: int, latest: Option<Moment>, today: Day) {
    latest.Some? ==> DayOf(latest.value) >= today + 1 + if n == 2 then 0 else n - 1
  }

  lemma ExactCentsReadBack(cents: int)
    requires cents > 0
    ensures PositiveCents(Dollars(cents as real / 100.0))
  {
    CentsOfDollars(cents);
  }

  lemma EvenAmounts(rows: seq<Row>, total: real, feeOwed: real, last: Option<Moment>, now: Moment)
    requires |rows| >= 2
    ensures AmountsValid(EvenRows(rows, total, last, now), feeOwed) <==> EvenAmountsFit(total, |rows|, feeOwed)
  {
    var n := |rows|;
    var even := EvenRows(rows, total, last, now);
    var each := Cents(total) / n;
    forall k | 0 <= k < n
      ensures even[k].amount.Dollars?
      ensures Cents(even[k].amount.value) == if k == 0 then Cents(total) - each * (n - 1) else each
      ensures Cents(even[k].amount.value) > 0 ==> PositiveCents(even[k].amount)
    {
      SplitPart(total, n, k);
      var cents := if k == 0 then each + (Cents(total) - each * n) else each;
      assert even[k].amount == Dollars(cents as real / 100.0);
      CentsOfDollars(cents);
      if cents > 0 { ExactCentsReadBack(cents); }
    }
    assert LeastCents(n - 1, n, feeOwed) == 50;
    assert n > 2 ==> LeastCents(1, n, feeOwed) == 100 * MIN_PLAN_PAYMENT;
    assert forall k | 0 < k < n - 1 :: LeastCents(k, n, feeOwed) == 100 * MIN_PLAN_PAYMENT;
  }

  lemma EvenDatesAccepted(rows: seq<Row>, total: real, latest: Option<Moment>, now: Moment)
    requires |rows| >= 2 && Undated(rows) && EvenDatesFit(|rows|, latest, DayOf(now))
    ensures DatesValid(EvenRows(rows, total, latest, now), latest, DayOf(now))
  {
    var n := |rows|;
    var even := EvenRows(rows, total, latest, now);
    var span := Span(n, latest, now);
    assert n > 2 ==> span >= n - 1;
    forall k | 0 < k < n
      ensures even[k].date == Some(DayOf(now) + 1 + Offset(span, k, n))
      ensures 0 <= Offset(span, k, n) <= span
    {
      OffsetsStayInside(span, k, n);
    }
    forall i, j | 0 < i < j < n ensures Offset(span, i, n) < Offset(span, j, n) {
      OffsetsStepUp(span, i, j, n);
    }
  }

  lemma EvenDate(rows: seq<Row>, total: real, latest: Option<Moment>, now: Moment, k: nat)
    requires 0 < k < |rows| && Undated(rows)
    ensures EvenRows(rows, total, latest, now)[k].date
         == Some(DayOf(now) + 1 + Offset(Span(|rows|, latest, now), k, |rows|))
  {
  }

  /** The last payment falls on the last day there is. */
  lemma EvenDatesEndOnLatest(rows: seq<Row>, total: real, latest: Option<Moment>, now: Moment)
    requires |rows| >= 2 && Undated(rows) && latest.Some? && DayOf(now) < DayOf(latest.value)
    ensures EvenRows(rows, total, latest, now)[|rows| - 1].date == Some(DayOf(latest.value))
  {
    var n := |rows|;
    EvenDate(rows, total, latest, now, n - 1);
    OffsetsStayInside(Span(n, latest, now), n - 1, n);
  }

  /** Without a latest day, it falls 30 days per payment from now. */
  lemma EvenDatesEndWithoutLatest(rows: seq<Row>, total: real, now: Moment)
    requires |rows| >= 2 && Undated(rows)
    ensures EvenRows(rows, total, None, now)[|rows| - 1].date == Some(DayOf(now) + 30 * |rows|)
  {
    var n := |rows|;
    EvenDate(rows, total, None, now, n - 1);
    OffsetsStayInside(Span(n, None, now), n - 1, n);
    assert DayOf(now + n * 30 * DAY_MS) == DayOf(now) + n * 30;
  }

  /** Rounding a quotient gives the nearest whole number, in whole numbers. */
  lemma OffsetIsNearest(span: int, k: int, count: int)
    requires count > 1
    ensures 2 * span * k - (count - 1) < 2 * (count - 1) * Offset(span, k, count) <= 2 * span * k + (count - 1)
  {
    var d := count - 1;
    var x := (span * k) as real / d as real;
    var r := Offset(span, k, count);
    RoundNear(x);
    assert x * d as real == (span * k) as real;
    Scale(x - 0.5, r as real, x + 0.5, d as real);
    assert (x - 0.5) * d as real == (span * k) as real - 0.5 * d as real;
    assert (x + 0.5) * d as real == (span * k) as real + 0.5 * d as real;
    assert r as real * d as real == (r * d) as real;
    assert 2 * span * k == 2 * (span * k) && 2 * d * r == 2 * (r * d);
  }

  lemma Scale(a: real, b: real, c: real, d: real)
    requires a < b <= c && d > 0.0
    ensures a * d < b * d <= c * d
  {
    ProductPositive(b - a, d);
    assert (c - b) * d >= 0.0;
  }

  /** The `k`th date, counted from tomorrow, is the whole day nearest to its even share of the days there are. */
  lemma EvenDatesAreSpread(rows: seq<Row>, total: real, latest: Option<Moment>, now: Moment, k: nat)
    requires Undated(rows) && 0 < k < |rows|
    ensures var n, span := |rows|, Span(|rows|, latest, now);
      var date := EvenRows(rows, total, latest, now)[k].date;
      && span == (if latest.Some? then Max(0, DayOf(latest.value) - DayOf(now) - 1) else 30 * n - 1)
      && date.Some?
      && (var d := date.value - (DayOf(now) + 1);
          2 * span * k - (n - 1) < 2 * (n - 1) * d <= 2 * span * k + (n - 1))
  {
    EvenDate(rows, total, latest, now, k);
    OffsetIsNearest(Span(|rows|, latest, now), k, |rows|);
    assert DayOf(now + |rows| * 30 * DAY_MS) == DayOf(now) + |rows| * 30;
  }

  lemma GapNear(span: int, k: int, count: int)
    requires count > 1
    ensures var gap := Offset(span, k + 1, count) - Offset(span, k, count);
      span - (count - 1) < (count - 1) * gap < span + (count - 1)
  {
    OffsetIsNearest(span, k, count);
    OffsetIsNearest(span, k + 1, count);
    var d, a, b := count - 1, Offset(span, k, count), Offset(span, k + 1, count);
    assert 2 * span * (k + 1) == 2 * span * k + 2 * span;
    assert d * (b - a) == d * b - d * a;
    assert 2 * d * b == 2 * (d * b) && 2 * d * a == 2 * (d * a);
  }

  /** So no two gaps between neighbouring dates differ by more than a day. */
  lemma EvenGapsAreEven(rows: seq<Row>, total: real, latest: Option<Moment>, now: Moment, j: nat, k: nat)
    requires Undated(rows) && 0 < j < |rows| - 1 && 0 < k < |rows| - 1
    ensures var even := EvenRows(rows, total, latest, now);
      even[j + 1].date.value - even[j].date.value <= even[k + 1].date.value - even[k].date.value + 1
  {
    var n, span := |rows|, Span(|rows|, latest, now);
    EvenDate(rows, total, latest, now, j);
    EvenDate(rows, total, latest, now, j + 1);
    EvenDate(rows, total, latest, now, k);
    EvenDate(rows, total, latest, now, k + 1);
    GapNear(span, j, n);
    GapNear(span, k, n);
    var g, h := Offset(span, j + 1, n) - Offset(span, j, n), Offset(span, k + 1, n) - Offset(span, k, n);
    assert (n - 1) * (h + 1) == (n - 1) * h + (n - 1);
    if g >= h + 2 { MultiplesStep(n - 1, h + 1, g); }
  }

  lemma EvenDatesRefused(rows: seq<Row>, total: real, latest: Option<Moment>, now: Moment)
    requires |rows| >= 2 && Undated(rows) && !EvenDatesFit(|rows|, latest, DayOf(now))
    ensures !DatesValid(EvenRows(rows, total, latest, now), latest, DayOf(now))
  {
    var n := |rows|;
    var span := Span(n, latest, now);
    if DayOf(latest.value) >= DayOf(now) + 1 {
      OffsetsCollide(span, n);
      var k :| 1 <= k < n - 1 && Offset(span, k, n) >= Offset(span, k + 1, n);
      EvenDate(rows, total, latest, now, k);
      EvenDate(rows, total, latest, now, k + 1);
    } else {
      OffsetsStayInside(span, n - 1, n);
      EvenDate(rows, total, latest, now, n - 1);
    }
  }

  /** "Split evenly" on undated rows gives a plan the validator takes exactly when amounts and days can fit. */
  lemma EvenPlanAccepted(rows: seq<Row>, total: real, feeOwed: real, latest: Option<Moment>, now: Moment)
    requires Undated(rows)
    ensures ValidPlan(EvenRows(rows, total, latest, now), total, feeOwed, latest, DayOf(now))
       <==> 2 <= |rows| <= 12 && EvenAmountsFit(total, |rows|, feeOwed) && EvenDatesFit(|rows|, latest, DayOf(now))
  {
    if |rows| >= 2 {
      EvenAmounts(rows, total, feeOwed, latest, now);
      EvenRowsPlaceEverything(rows, total, latest, now);
      if EvenDatesFit(|rows|, latest, DayOf(now)) {
        EvenDatesAccepted(rows, total, latest, now);
      } else {
        EvenDatesRefused(rows, total, latest, now);
      }
    }
  }

  predicate Dated(rows: seq<Row>) {
    forall k | 0 < k < |rows| :: rows[k].date.Some?
  }

  /** On a plan with all its dates, "Split evenly" moves none: accepted exactly when the amounts fit and the dates were good. */
  lemma EvenPlanOfDatedAccepted(rows: seq<Row>, total: real, feeOwed: real, latest: Option<Moment>, now: Moment)
    requires Dated(rows)
    ensures ValidPlan(EvenRows(rows, total, latest, now), total, feeOwed, latest, DayOf(now))
       <==> 2 <= |rows| <= 12 && EvenAmountsFit(total, |rows|, feeOwed) && DatesValid(rows, latest, DayOf(now))
  {
    if |rows| >= 2 {
      EvenAmounts(rows, total, feeOwed, latest, now);
      EvenRowsPlaceEverything(rows, total, latest, now);
      var even := EvenRows(rows, total, latest, now);
      assert forall k | 0 <= k < |rows| :: even[k].date == rows[k].date;
      SameDates(rows, even, latest, DayOf(now));
    }
  }

  lemma SameDates(a: seq<Row>, b: seq<Row>, latest: Option<Moment>, today: Day)
    requires |a| == |b| && forall k | 0 <= k < |a| :: a[k].date == b[k].date
    ensures DatesValid(a, latest, today) <==> DatesValid(b, latest, today)
  {
  }

  /** Enough for every payment to cover the fee and $50, and a day each: accepted. */
  lemma EnoughMoneyAndDays(rows: seq<Row>, total: real, feeOwed: real, latest: Option<Moment>, now: Moment)
    requires Undated(rows) && 2 <= |rows| <= 12 && feeOwed >= 0.0
    requires Cents(total) >= |rows| * Cents(feeOwed + MIN_PLAN_PAYMENT as real)
    requires latest.Some? ==> DayOf(latest.value) - (DayOf(now) + 1) >= |rows| - 1
    ensures ValidPlan(EvenRows(rows, total, latest, now), total, feeOwed, latest, DayOf(now))
  {
    var n := |rows|;
    var least := Cents(feeOwed + MIN_PLAN_PAYMENT as real);
    CentsShift(feeOwed, MIN_PLAN_PAYMENT);
    RoundMonotone(0.0, feeOwed * 100.0);
    assert least >= 100 * MIN_PLAN_PAYMENT;
    EachAtLeast(Cents(total), n, least);
    EvenPlanAccepted(rows, total, feeOwed, latest, now);
  }

  lemma EachAtLeast(all: int, n: int, least: int)
    requires n > 0 && all >= n * least
    ensures all / n >= least && all - all / n * (n - 1) >= least
  {
    var each := all / n;
    assert all == each * n + all % n;
    if each < least { MultiplesStep(n, each, least); }
  }

  /** The first payment has no date; the second falls a week before the event's day, or in 30 days, but never before tomorrow. */
  lemma StartingDates(total: real, eventStart: Option<Moment>, now: Moment, key: nat)
    ensures StartingPlan(total, eventStart, now, key)[0].date.None?
    ensures StartingPlan(total, eventStart, now, key)[1].date
         == Some(Max(if eventStart.Some? then DayOf(eventStart.value) - 7 else DayOf(now) + 30, DayOf(now) + 1))
  {
  }

  /** The starting plan is accepted exactly when its two halves fit and its date is not past the latest. */
  lemma StartingPlanAccepted(total: real, feeOwed: real, eventStart: Option<Moment>, latest: Option<Moment>, now: Moment, key: nat)
    ensures var rows := StartingPlan(total, eventStart, now, key);
      ValidPlan(rows, total, feeOwed, latest, DayOf(now))
      <==> EvenAmountsFit(total, 2, feeOwed) && (latest.Some? ==> rows[1].date.value <= DayOf(latest.value))
  {
    StartingDates(total, eventStart, now, key);
    var rows := StartingPlan(total, eventStart, now, key);
    var undated := [rows[0], rows[1].(date := None)];
    var even := EvenRows(undated, total, latest, now);
    EvenAmounts(undated, total, feeOwed, latest, now);
    assert rows[0].amount == even[0].amount && rows[1].amount == even[1].amount;
    assert AmountsValid(rows, feeOwed) <==> AmountsValid(even, feeOwed);
    EvenRowsPlaceEverything(undated, total, latest, now);
    SameCents(rows, even);
  }

  lemma {:induction false} SameCents(a: seq<Row>, b: seq<Row>)
    requires |a| == |b| && forall k | 0 <= k < |a| :: a[k].amount == b[k].amount
    ensures SumCents(a) == SumCents(b)
  {
    if a != [] { SameCents(a[..|a| - 1], b[..|b| - 1]); }
  }

  // ----- the payload -----

  /** A charge is made at 9 AM of its day; on the event's day, at 9 AM or the start of the event, whichever is earlier. */
  lemma DueOnItsDay(date: Day, eventStart: Option<Moment>)
    ensures DayOf(DueAt(date, eventStart)) == date
    ensures var nine := date * DAY_MS + 9 * 3_600_000;
      DueAt(date, eventStart)
        == if eventStart.Some? && DayOf(eventStart.value) == date && eventStart.value < nine then eventStart.value else nine
    ensures eventStart.Some? && date <= DayOf(eventStart.value) ==> DueAt(date, eventStart) <= eventStart.value
  {
  }

  /** Charges of a valid plan are in the future, in order, each on its day, and never after an event it must precede. */
  lemma PayloadInOrder(rows: seq<Row>, total: real, feeOwed: real, latest: Option<Moment>, now: Moment, eventStart: Option<Moment>)
    requires ValidPlan(rows, total, feeOwed, latest, DayOf(now))
    ensures var p := PlanPayload(rows, eventStart);
      && |p| == |rows|
      && (forall k | 0 <= k < |p| :: p[k].amount == rows[k].amount && (p[k].dueAt.Some? <==> rows[k].date.Some?))
      && (forall k | 0 <= k < |p| && p[k].dueAt.Some? :: now < p[k].dueAt.value && DayOf(p[k].dueAt.value) == rows[k].date.value)
      && (forall i, j | 0 <= i < j < |p| && p[i].dueAt.Some? && p[j].dueAt.Some? :: p[i].dueAt.value < p[j].dueAt.value)
      && (eventStart.Some? && latest == eventStart ==>
            forall k | 0 <= k < |p| && p[k].dueAt.Some? :: p[k].dueAt.value <= eventStart.value)
  {
    forall k | 0 <= k < |rows| && rows[k].date.Some?
      ensures DayOf(DueAt(rows[k].date.value, eventStart)) == rows[k].date.value
      ensures eventStart.Some? && latest == eventStart ==> DueAt(rows[k].date.value, eventStart) <= eventStart.value
    {
      DueOnItsDay(rows[k].date.value, eventStart);
    }
  }
}
