/**
  Custom payment plans (Front-End/lib/payment-plan.ts): how a vendor has a booking paid for in several
  dated parts. Dollars are exact reals, days are day numbers, moments are milliseconds since
  a local midnight.
 */
module PaymentPlan {
  import opened Wrappers
  import opened Arithmetic
  import opened Rounding

  type Day = int
  type Moment = int

  const DAY_MS := 86_400_000
  const NINE_AM := 9 * 3_600_000
  const MIN_PLAN_PAYMENTS := 2
  const MAX_PLAN_PAYMENTS := 12
  const MIN_PLAN_PAYMENT := 50
  const MIN_LAST_PAYMENT := 0.5

  function DayOf(at: Moment): Day {
    at / DAY_MS
  }

  /** What the amount field holds, read as a number. */
  datatype Amount = Blank | Unreadable | Dollars(value: real)

  /** A line of the plan. Only the first may go without a date: it is then charged straight away. */
  datatype Row = Row(key: nat, amount: Amount, date: Option<Day>)

  /** A field without a number counts as nothing. */
  function NumberOrZero(a: Amount): real {
    if a.Dollars? then a.value else 0.0
  }

  function SumCents(rows: seq<Row>): int {
    if rows == [] then 0 else SumCents(rows[..|rows| - 1]) + Cents(NumberOrZero(rows[|rows| - 1].amount))
  }

  /** Whole cents, so that the parts always make up the total again. */
  function SplitEvenly(total: real, count: int): seq<real> {
    if count < 1 then []
    else
      var all := Cents(total);
      var each := all / count;
      seq(count, k => (if k == 0 then each + (all - each * count) else each) as real / 100.0)
  }

  /** The day the dates spread up to, and how many days after tomorrow that is. */
  function LastDay(count: int, last: Option<Moment>, now: Moment): Day {
    if last.Some? then DayOf(last.value) else DayOf(now + count * 30 * DAY_MS)
  }

  function Span(count: int, last: Option<Moment>, now: Moment): int {
    Max(0, LastDay(count, last, now) - (DayOf(now) + 1))
  }

  function Offset(span: int, k: int, count: int): int {
    Round((span * k) as real / Max(1, count - 1) as real)
  }

  /** Row `k` of `count` is `k` steps after tomorrow, each step rounded to a day on its own. */
  function SpreadDates(count: nat, last: Option<Moment>, now: Moment): seq<Option<Day>> {
    seq(count, k => if k == 0 then None else Some(DayOf(now) + 1 + Offset(Span(count, last, now), k, count)))
  }

  /** What a new plan opens on: half now, half shortly before the event. */
  function StartingPlan(total: real, eventStart: Option<Moment>, now: Moment, key: nat): seq<Row> {
    var amounts := SplitEvenly(total, 2);
    var second := if eventStart.Some? then eventStart.value - 7 * DAY_MS else now + 30 * DAY_MS;
    var at := if second > now + DAY_MS then second else now + DAY_MS;
    [Row(key, Dollars(amounts[0]), None), Row(key + 1, Dollars(amounts[1]), Some(DayOf(at)))]
  }

  /** "Split evenly": new amounts for all rows, and dates only where there were none. */
  function EvenRows(rows: seq<Row>, total: real, last: Option<Moment>, now: Moment): seq<Row> {
    var amounts := SplitEvenly(total, |rows|);
    var dates := SpreadDates(|rows|, last, now);
    seq(|rows|, k requires 0 <= k < |rows| =>
      rows[k].(amount := Dollars(amounts[k]), date := if k == 0 || rows[k].date.Some? then rows[k].date else dates[k]))
  }

  /** In dollars, and negative when the rows ask for more than the total. */
  function Remainder(rows: seq<Row>, total: real): real {
    (Cents(total) - SumCents(rows)) as real / 100.0
  }

  function LastDate(rows: seq<Row>): Option<Day> {
    if rows == [] then None
    else if rows[|rows| - 1].date.Some? then rows[|rows| - 1].date
    else LastDate(rows[..|rows| - 1])
  }

  /** "Add payment": an overfull plan gets an empty row. */
  function AddRow(rows: seq<Row>, total: real, key: nat): seq<Row> {
    var left := if Remainder(rows, total) > 0.0 then Remainder(rows, total) else 0.0;
    var last := LastDate(rows);
    rows + [Row(key, if left > 0.0 then Dollars(left) else Blank, if last.Some? then Some(last.value + 7) else None)]
  }

  // ----- what is sent -----

  /** When a dated payment is charged: 9 AM, on the event day not after the event starts. */
  function DueAt(date: Day, eventStart: Option<Moment>): Moment {
    var at := date * DAY_MS + NINE_AM;
    if eventStart.Some? && at > eventStart.value && DayOf(eventStart.value) == date then eventStart.value else at
  }

  datatype Payment = Payment(amount: Amount, dueAt: Option<Moment>)

  function PlanPayload(rows: seq<Row>, eventStart: Option<Moment>): seq<Payment> {
    seq(|rows|, k requires 0 <= k < |rows| =>
      Payment(rows[k].amount, if rows[k].date.Some? then Some(DueAt(rows[k].date.value, eventStart)) else None))
  }

  // ----- what makes a plan valid -----

  predicate PositiveCents(a: Amount) {
    && a.Dollars?
    && a.value > 0.0
    && WholeCents(a.value)
  }

  /** The least the payment in row `k` of `n` may be, in cents. */
  function LeastCents(k: nat, n: nat, feeOwed: real): int {
    var floor := if k + 1 < n then Cents(MIN_PLAN_PAYMENT as real) else Cents(MIN_LAST_PAYMENT);
    if k == 0 && feeOwed > 0.0 then Max(floor, Cents(feeOwed + MIN_PLAN_PAYMENT as real)) else floor
  }

  ghost predicate AmountsValid(rows: seq<Row>, feeOwed: real) {
    forall k | 0 <= k < |rows| ::
      PositiveCents(rows[k].amount) && Cents(rows[k].amount.value) >= LeastCents(k, |rows|, feeOwed)
  }

  ghost predicate DatesValid(rows: seq<Row>, latest: Option<Moment>, today: Day) {
    && (forall k | 0 < k < |rows| :: rows[k].date.Some?)
    && (forall k | 0 <= k < |rows| && rows[k].date.Some? ::
          today < rows[k].date.value && (latest.Some? ==> rows[k].date.value <= DayOf(latest.value)))
    && (forall i, j | 0 <= i < j < |rows| && rows[i].date.Some? && rows[j].date.Some? ::
          rows[i].date.value < rows[j].date.value)
  }

  ghost predicate ValidPlan(rows: seq<Row>, total: real, feeOwed: real, latest: Option<Moment>, today: Day) {
    && MIN_PLAN_PAYMENTS <= |rows| <= MAX_PLAN_PAYMENTS
    && AmountsValid(rows, feeOwed)
    && DatesValid(rows, latest, today)
    && SumCents(rows) == Cents(total)
  }

  /** What is wrong, with the number of the payment (from 1) where there is one. */
  datatype Problem =
    | WrongCount
    | EnterAmount(n: nat)
    | FeeNotCovered
    | TooSmall(n: nat)
    | LastTooSmall
    | PickDate(n: nat)
    | NotAfterToday(n: nat)
    | NotAfterPrevious(n: nat)
    | TooLate(n: nat)
    | StillToPlace(left: real)
    | Over(more: real)

  function RowNumber(p: Problem, count: nat): nat {
    match p
    case WrongCount => 1
    case FeeNotCovered => 1
    case LastTooSmall => count
    case StillToPlace(_) => count + 1
    case Over(_) => count + 1
    case _ => p.n
  }

  /** Row `k` on its own and against the row before it. */
  ghost predicate RowPasses(rows: seq<Row>, k: nat, feeOwed: real, latest: Option<Moment>, today: Day)
    requires k < |rows|
  {
    && PositiveCents(rows[k].amount)
    && Cents(rows[k].amount.value) >= LeastCents(k, |rows|, feeOwed)
    && (k > 0 ==> rows[k].date.Some?)
    && (rows[k].date.Some? ==>
          && today < rows[k].date.value
          && (latest.Some? ==> rows[k].date.value <= DayOf(latest.value))
          && (k > 0 && rows[k - 1].date.Some? ==> rows[k - 1].date.value < rows[k].date.value))
  }

  /** The first payment leaves too little beside the fee. */
  predicate FeeUncovered(rows: seq<Row>, k: nat, feeOwed: real)
    requires k < |rows|
  {
    k == 0 && feeOwed > 0.0 && Cents(NumberOrZero(rows[0].amount)) < Cents(feeOwed + MIN_PLAN_PAYMENT as real)
  }

  ghost predicate AmountPasses(rows: seq<Row>, k: nat, feeOwed: real)
    requires k < |rows|
  {
    PositiveCents(rows[k].amount) && Cents(rows[k].amount.value) >= LeastCents(k, |rows|, feeOwed)
  }

  /** What a complaint about row `k` says is wrong, everything checked before it on the row being right. */
  ghost predicate RowComplains(p: Problem, rows: seq<Row>, k: nat, feeOwed: real, latest: Option<Moment>, today: Day)
    requires k < |rows|
  {
    var r := rows[k];
    var late := r.date.Some? && latest.Some? && DayOf(latest.value) < r.date.value;
    var early := k > 0 && r.date.Some? && rows[k - 1].date.Some? && r.date.value <= rows[k - 1].date.value;
    match p
    case EnterAmount(_) => !PositiveCents(r.amount)
    case FeeNotCovered => PositiveCents(r.amount) && FeeUncovered(rows, k, feeOwed)
    case TooSmall(_) =>
      PositiveCents(r.amount) && !FeeUncovered(rows, k, feeOwed) && k + 1 < |rows| && Cents(r.amount.value) < 100 * MIN_PLAN_PAYMENT
    case LastTooSmall =>
      PositiveCents(r.amount) && !FeeUncovered(rows, k, feeOwed) && k + 1 == |rows| && Cents(r.amount.value) < 50
    case PickDate(_) => AmountPasses(rows, k, feeOwed) && k > 0 && r.date.None?
    case NotAfterToday(_) => AmountPasses(rows, k, feeOwed) && r.date.Some? && r.date.value <= today
    case NotAfterPrevious(_) => AmountPasses(rows, k, feeOwed) && r.date.Some? && today < r.date.value && early
    case TooLate(_) => AmountPasses(rows, k, feeOwed) && r.date.Some? && today < r.date.value && !early && late
    case _ => false
  }

  /** What a complaint about the plan says is wrong; one about the sum comes only when all rows are right. */
  ghost predicate Complains(p: Problem, rows: seq<Row>, total: real, feeOwed: real, latest: Option<Moment>, today: Day) {
    match p
    case WrongCount => !(MIN_PLAN_PAYMENTS <= |rows| <= MAX_PLAN_PAYMENTS)
    case StillToPlace(left) => SumCents(rows) < Cents(total) && Cents(left) == Cents(total) - SumCents(rows)
    case Over(more) => SumCents(rows) > Cents(total) && Cents(more) == SumCents(rows) - Cents(total)
    case _ => 1 <= RowNumber(p, |rows|) <= |rows| && RowComplains(p, rows, RowNumber(p, |rows|) - 1, feeOwed, latest, today)
  }

  /** Rows that each pass against the one before make a plan that is valid pair by pair, and the other way round. */
  lemma RowsPass(rows: seq<Row>, feeOwed: real, latest: Option<Moment>, today: Day)
    requires forall k | 0 <= k < |rows| :: RowPasses(rows, k, feeOwed, latest, today)
    requires forall i, j | 0 <= i < j < |rows| && rows[i].date.Some? :: rows[j].date.Some? && rows[i].date.value < rows[j].date.value
    ensures AmountsValid(rows, feeOwed) && DatesValid(rows, latest, today)
  {
    forall i | 0 <= i < |rows|
      ensures PositiveCents(rows[i].amount) && Cents(rows[i].amount.value) >= LeastCents(i, |rows|, feeOwed)
      ensures i > 0 ==> rows[i].date.Some?
      ensures rows[i].date.Some? ==>
                today < rows[i].date.value && (latest.Some? ==> rows[i].date.value <= DayOf(latest.value))
    {
      assert RowPasses(rows, i, feeOwed, latest, today);
    }
  }

  /** The checks on one payment, in the order they are made; `previous` is the date before it. */
  method RowError(rows: seq<Row>, k: nat, previous: Option<Day>, feeOwed: real, latest: Option<Moment>, today: Day)
    returns (e: Option<Problem>)
    requires k < |rows| && previous == if k == 0 then None else rows[k - 1].date
    ensures e.None? <==> RowPasses(rows, k, feeOwed, latest, today)
    ensures e.Some? ==> RowNumber(e.value, |rows|) == k + 1 && RowComplains(e.value, rows, k, feeOwed, latest, today)
  {
    var r := rows[k];
    var n := k + 1;
    if !PositiveCents(r.amount) { return Some(EnterAmount(n)); }
    var last := k == |rows| - 1;
    var cents := Cents(r.amount.value);
    if k == 0 && feeOwed > 0.0 && cents < Cents(feeOwed + MIN_PLAN_PAYMENT as real) { return Some(FeeNotCovered); }
    if !last && cents < Cents(MIN_PLAN_PAYMENT as real) { return Some(TooSmall(n)); }
    if last && cents < Cents(MIN_LAST_PAYMENT) { return Some(LastTooSmall); }
    if r.date.None? { return if k != 0 then Some(PickDate(n)) else None; }
    var d := r.date.value;
    if d <= today { return Some(NotAfterToday(n)); }
    if previous.Some? && d <= previous.value { return Some(NotAfterPrevious(n)); }
    if latest.Some? && d > DayOf(latest.value) { return Some(TooLate(n)); }
    return None;
  }

  /** Null exactly for a valid plan; otherwise the first thing wrong with the first row that has something wrong. */
  method PlanError(rows: seq<Row>, total: real, feeOwed: real, latest: Option<Moment>, today: Day)
    returns (e: Option<Problem>)
    ensures e.None? <==> ValidPlan(rows, total, feeOwed, latest, today)
    ensures e.Some? ==> Complains(e.value, rows, total, feeOwed, latest, today)
    ensures e.Some? ==> forall k | 0 <= k < RowNumber(e.value, |rows|) - 1 && k < |rows| ::
              RowPasses(rows, k, feeOwed, latest, today)
  {
    if |rows| < MIN_PLAN_PAYMENTS || |rows| > MAX_PLAN_PAYMENTS { return Some(WrongCount); }
    var previous: Option<Day> := None;
    for k := 0 to |rows|
      invariant previous == if k == 0 then None else rows[k - 1].date
      invariant forall i | 0 <= i < k :: RowPasses(rows, i, feeOwed, latest, today)
      invariant forall i, j | 0 <= i < j < k && rows[i].date.Some? :: rows[j].date.Some? && rows[i].date.value < rows[j].date.value
    {
      e := RowError(rows, k, previous, feeOwed, latest, today);
      if e.Some? { return; }
      if rows[k].date.Some? { previous := rows[k].date; }
    }
    RowsPass(rows, feeOwed, latest, today);
    var left := Remainder(rows, total);
    CentsOfDollars(Cents(total) - SumCents(rows));
    CentsOfDollars(SumCents(rows) - Cents(total));
    assert left == 0.0 <==> SumCents(rows) == Cents(total);
    if left != 0.0 { return Some(if left > 0.0 then StillToPlace(left) else Over(-left)); }
    return None;
  }
}
