/**
  The plan editor (Front-End/components/bookings/PaymentPlanEditor.tsx over payment-plan.ts): the rows
  on screen, the counter their keys come from, and the buttons with the guards that disable them.
 */
module PlanEditor {
  import opened Wrappers
  import opened Rounding
  import opened PaymentPlan
  import opened PlanProofs

  datatype Edit =
    | SetAmount(key: nat, amount: Amount)
    | SetDate(key: nat, date: Option<Day>)
    | Remove(key: nat)
    | EvenOut
    | Add

  /** A button that is not on screen, or is disabled, does nothing. */
  predicate Offered(rows: seq<Row>, e: Edit) {
    match e
    case Remove(_) => |rows| > 2
    case Add => |rows| < MAX_PLAN_PAYMENTS
    case _ => true
  }

  /** Every row with the key changed by `f`, the others as they were. */
  function Patched(rows: seq<Row>, key: nat, f: Row -> Row): seq<Row> {
    seq(|rows|, k requires 0 <= k < |rows| => if rows[k].key == key then f(rows[k]) else rows[k])
  }

  function Without(rows: seq<Row>, key: nat): seq<Row> {
    if rows == [] then []
    else if rows[0].key == key then Without(rows[1..], key)
    else [rows[0]] + Without(rows[1..], key)
  }

  function Edited(rows: seq<Row>, next: nat, e: Edit, total: real, latest: Option<Moment>, now: Moment): seq<Row> {
    match e
    case SetAmount(key, amount) => Patched(rows, key, (r: Row) => r.(amount := amount))
    case SetDate(key, date) => Patched(rows, key, (r: Row) => r.(date := date))
    case Remove(key) => Without(rows, key)
    case EvenOut => EvenRows(rows, total, latest, now)
    case Add => AddRow(rows, total, next)
  }

  ghost predicate DistinctKeys(rows: seq<Row>) {
    forall i, j | 0 <= i < j < |rows| :: rows[i].key != rows[j].key
  }

  /** 2 to 12 payments, no two with one key, and every key already handed out. */
  ghost predicate WellKept(rows: seq<Row>, next: nat) {
    && MIN_PLAN_PAYMENTS <= |rows| <= MAX_PLAN_PAYMENTS
    && DistinctKeys(rows)
    && forall k | 0 <= k < |rows| :: rows[k].key < next
  }

  lemma {:induction false} WithoutNone(rows: seq<Row>, key: nat)
    requires forall k | 0 <= k < |rows| :: rows[k].key != key
    ensures Without(rows, key) == rows
  {
    if rows != [] { WithoutNone(rows[1..], key); }
  }

  /** Removing takes out the one payment with the key, and keeps the others in order. */
  lemma {:induction false} WithoutOne(rows: seq<Row>, k: nat)
    requires DistinctKeys(rows) && k < |rows|
    ensures Without(rows, rows[k].key) == rows[..k] + rows[k + 1..]
  {
    var rest := rows[1..];
    if k == 0 {
      WithoutNone(rest, rows[k].key);
    } else {
      WithoutOne(rest, k - 1);
      assert rows[..k] == [rows[0]] + rest[..k - 1] && rows[k + 1..] == rest[k..];
    }
  }

  lemma PatchedOne(rows: seq<Row>, k: nat, f: Row -> Row)
    requires DistinctKeys(rows) && k < |rows|
    ensures Patched(rows, rows[k].key, f) == rows[k := f(rows[k])]
  {
  }

  lemma RemovingKeeps(rows: seq<Row>, next: nat, key: nat)
    requires WellKept(rows, next) && |rows| > 2
    ensures WellKept(Without(rows, key), next)
  {
    if k :| 0 <= k < |rows| && rows[k].key == key {
      WithoutOne(rows, k);
      var rest := Without(rows, key);
      assert forall i | 0 <= i < |rest| :: rest[i] == if i < k then rows[i] else rows[i + 1];
    } else {
      WithoutNone(rows, key);
    }
  }

  /** No guarded edit breaks the list. */
  lemma EditKeeps(rows: seq<Row>, next: nat, e: Edit, total: real, latest: Option<Moment>, now: Moment)
    requires WellKept(rows, next) && Offered(rows, e)
    ensures WellKept(Edited(rows, next, e, total, latest, now), if e.Add? then next + 1 else next)
  {
    if e.Remove? { RemovingKeeps(rows, next, e.key); }
  }

  /** A button is off exactly when it would take the list out of bounds. */
  lemma OfferedWithinBounds(rows: seq<Row>, next: nat, e: Edit, total: real, latest: Option<Moment>, now: Moment)
    requires WellKept(rows, next) && (e.Remove? ==> exists k :: 0 <= k < |rows| && rows[k].key == e.key)
    ensures Offered(rows, e) <==> MIN_PLAN_PAYMENTS <= |Edited(rows, next, e, total, latest, now)| <= MAX_PLAN_PAYMENTS
  {
    if e.Remove? {
      var k :| 0 <= k < |rows| && rows[k].key == e.key;
      WithoutOne(rows, k);
    }
  }

  /** The "Split evenly" button on undated rows, up to the latest day on screen: accepted exactly when amounts and days fit. */
  lemma EvenOutAccepted(rows: seq<Row>, next: nat, total: real, feeOwed: real, latest: Option<Moment>, now: Moment)
    requires Undated(rows)
    ensures ValidPlan(Edited(rows, next, EvenOut, total, latest, now), total, feeOwed, latest, DayOf(now))
       <==> 2 <= |rows| <= 12 && EvenAmountsFit(total, |rows|, feeOwed) && EvenDatesFit(|rows|, latest, DayOf(now))
  {
    EvenPlanAccepted(rows, total, feeOwed, latest, now);
  }

  /** The "Add payment" button: good dates stay good exactly when a week after the last is allowed. */
  lemma AddKeepsDates(rows: seq<Row>, next: nat, total: real, latest: Option<Moment>, now: Moment)
    requires |rows| >= 2 && DatesValid(rows, latest, DayOf(now))
    ensures DatesValid(Edited(rows, next, Add, total, latest, now), latest, DayOf(now))
       <==> (latest.Some? ==> rows[|rows| - 1].date.value + 7 <= DayOf(latest.value))
  {
    AddRowKeepsDates(rows, total, next, latest, DayOf(now));
  }

  // ----- what an edit does to what is left to place -----

  lemma {:induction false} SumOfBoth(a: seq<Row>, b: seq<Row>)
    ensures SumCents(a + b) == SumCents(a) + SumCents(b)
  {
    if b == [] {
      assert a + b == a;
    } else {
      assert (a + b)[..|a + b| - 1] == a + b[..|b| - 1];
      SumOfBoth(a, b[..|b| - 1]);
    }
  }

  lemma SumWith(rows: seq<Row>, k: nat, r: Row)
    requires k < |rows|
    ensures SumCents(rows[k := r]) == SumCents(rows[..k] + rows[k + 1..]) + Cents(NumberOrZero(r.amount))
  {
    var before, after := rows[..k], rows[k + 1..];
    assert rows[k := r] == before + ([r] + after);
    assert [r][..0] == [];
    SumOfBoth(before, [r] + after);
    SumOfBoth([r], after);
    SumOfBoth(before, after);
  }

  lemma SumOfOther(rows: seq<Row>, k: nat, r: Row)
    requires k < |rows|
    ensures SumCents(rows[k := r]) == SumCents(rows) - Cents(NumberOrZero(rows[k].amount)) + Cents(NumberOrZero(r.amount))
  {
    SumWith(rows, k, r);
    SumWith(rows, k, rows[k]);
    assert rows[k := rows[k]] == rows;
  }

  /** An amount typed in moves the sum by the difference; the other payments, and all dates, stay. */
  lemma AmountMovesTheSum(rows: seq<Row>, next: nat, k: nat, amount: Amount, total: real, latest: Option<Moment>, now: Moment)
    requires DistinctKeys(rows) && k < |rows|
    ensures var after := Edited(rows, next, SetAmount(rows[k].key, amount), total, latest, now);
      && after == rows[k := rows[k].(amount := amount)]
      && SumCents(after) == SumCents(rows) - Cents(NumberOrZero(rows[k].amount)) + Cents(NumberOrZero(amount))
  {
    PatchedOne(rows, k, (r: Row) => r.(amount := amount));
    SumOfOther(rows, k, rows[k].(amount := amount));
  }

  /** A date moves no money: the same rows but for the one date. */
  lemma DateMovesNoMoney(rows: seq<Row>, next: nat, k: nat, date: Option<Day>, total: real, latest: Option<Moment>, now: Moment)
    requires DistinctKeys(rows) && k < |rows|
    ensures var after := Edited(rows, next, SetDate(rows[k].key, date), total, latest, now);
      after == rows[k := rows[k].(date := date)] && SumCents(after) == SumCents(rows)
  {
    PatchedOne(rows, k, (r: Row) => r.(date := date));
    SumOfOther(rows, k, rows[k].(date := date));
  }

  /** A payment removed leaves exactly its amount to place again. */
  lemma RemovingFreesItsAmount(rows: seq<Row>, k: nat)
    requires DistinctKeys(rows) && k < |rows|
    ensures SumCents(Without(rows, rows[k].key)) == SumCents(rows) - Cents(NumberOrZero(rows[k].amount))
  {
    WithoutOne(rows, k);
    SumWith(rows, k, rows[k]);
    assert rows[k := rows[k]] == rows;
  }

  // ----- whole sessions -----

  datatype Click = Click(edit: Edit, now: Moment)

  function Session(rows: seq<Row>, next: nat, clicks: seq<Click>, total: real, latest: Option<Moment>): seq<Row>
    decreases |clicks|
  {
    if clicks == [] then rows
    else
      var c := clicks[0];
      if !Offered(rows, c.edit) then Session(rows, next, clicks[1..], total, latest)
      else
        var after := if c.edit.Add? then next + 1 else next;
        Session(Edited(rows, next, c.edit, total, latest, c.now), after, clicks[1..], total, latest)
  }

  class Editor {
    var rows: seq<Row>
    var next: nat
    const total: real
    const latest: Option<Moment>

    ghost predicate Valid()
      reads this
    {
      WellKept(rows, next)
    }

    /** The editor opens on the starting plan; `seq` is wherever earlier editors left it. */
    constructor (total: real, eventStart: Option<Moment>, latest: Option<Moment>, now: Moment, seqSoFar: nat)
      ensures Valid()
      ensures this.total == total && this.latest == latest
      ensures rows == StartingPlan(total, eventStart, now, seqSoFar) && next == seqSoFar + 2
      ensures Remainder(rows, total) == 0.0
    {
      this.total := total;
      this.latest := latest;
      rows := StartingPlan(total, eventStart, now, seqSoFar);
      next := seqSoFar + 2;
      new;
      EvenRowsPlaceEverything(rows, total, latest, now);
      SameCents(rows, EvenRows(rows, total, latest, now));
    }

    /** Any button or field, clicked or not: the rows become what the guarded edit says, and stay well kept. */
    method Apply(e: Edit, now: Moment)
      requires Valid()
      modifies this
      ensures Valid()
      ensures rows == if Offered(old(rows), e) then Edited(old(rows), old(next), e, total, latest, now) else old(rows)
      ensures next == old(next) + if e.Add? && Offered(old(rows), e) then 1 else 0
      ensures e.EvenOut? ==> Remainder(rows, total) == 0.0
      ensures e.Add? && Offered(old(rows), e) ==>
                Remainder(rows, total) == if Remainder(old(rows), total) < 0.0 then Remainder(old(rows), total) else 0.0
    {
      if Offered(rows, e) {
        EditKeeps(rows, next, e, total, latest, now);
        if e.EvenOut? { EvenRowsPlaceEverything(rows, total, latest, now); }
        if e.Add? { AddRowTakesTheRest(rows, total, next); }
        rows := Edited(rows, next, e, total, latest, now);
        if e.Add? { next := next + 1; }
      }
    }

    /** A whole session of clicks. */
    method Run(clicks: seq<Click>)
      requires Valid()
      modifies this
      ensures Valid() && rows == Session(old(rows), old(next), clicks, total, latest)
    {
      for i := 0 to |clicks|
        invariant Valid()
        invariant Session(rows, next, clicks[i..], total, latest) == Session(old(rows), old(next), clicks, total, latest)
      {
        Apply(clicks[i].edit, clicks[i].now);
        assert clicks[i..][1..] == clicks[i + 1..];
      }
    }
  }

  /** Whatever is clicked, in whatever order: the list never leaves its bounds, and no two rows share a key. */
  lemma {:induction false} SessionKeeps(rows: seq<Row>, next: nat, clicks: seq<Click>, total: real, latest: Option<Moment>)
    requires WellKept(rows, next)
    ensures var end := Session(rows, next, clicks, total, latest);
      MIN_PLAN_PAYMENTS <= |end| <= MAX_PLAN_PAYMENTS && DistinctKeys(end)
    decreases |clicks|
  {
    if clicks != [] {
      var c := clicks[0];
      if Offered(rows, c.edit) {
        EditKeeps(rows, next, c.edit, total, latest, c.now);
        SessionKeeps(Edited(rows, next, c.edit, total, latest, c.now), if c.edit.Add? then next + 1 else next, clicks[1..], total, latest);
      } else {
        SessionKeeps(rows, next, clicks[1..], total, latest);
      }
    }
  }
}
