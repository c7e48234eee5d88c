/**
  The API's own check of a custom plan (Back-end/src/modules/payments/custom-plan.ts), and how far a
  plan the editor lets through can rely on it.
 */
module ServerPlan {
  import opened Wrappers
  import opened Arithmetic
  import opened Rounding
  import opened PaymentPlan
  import opened PlanProofs

  const PAY_AFTER_GRACE_DAYS := 7
  const NO_DATE_LIMIT_DAYS := 365

  datatype Context = Context(
    owed: real, feeOwed: real, now: Moment, eventStart: Option<Moment>, eventEnd: Option<Moment>, payAfter: bool)

  /** What is stored of a payment: the first also carries the platform fee. */
  datatype Kept = Kept(amount: real, feeAmount: real, dueAt: Option<Moment>)

  /** No charge may be due after this. */
  function LatestDueAt(ctx: Context): Moment {
    if ctx.eventStart.None? then ctx.now + NO_DATE_LIMIT_DAYS * DAY_MS
    else if !ctx.payAfter then ctx.eventStart.value
    else (if ctx.eventEnd.Some? then ctx.eventEnd.value else ctx.eventStart.value) + PAY_AFTER_GRACE_DAYS * DAY_MS
  }

  function Fee(ctx: Context): real {
    Round2(if ctx.feeOwed > 0.0 then ctx.feeOwed else 0.0)
  }

  function PaymentCents(inputs: seq<Payment>): int {
    if inputs == [] then 0
    else PaymentCents(inputs[..|inputs| - 1]) + Cents(NumberOrZero(inputs[|inputs| - 1].amount))
  }

  function KeptCents(kept: seq<Kept>): int {
    if kept == [] then 0 else KeptCents(kept[..|kept| - 1]) + Cents(kept[|kept| - 1].amount)
  }

  ghost predicate InputPasses(inputs: seq<Payment>, k: nat, ctx: Context)
    requires k < |inputs|
  {
    var p := inputs[k];
    && PositiveCents(p.amount)
    && Cents(p.amount.value) >= LeastCents(k, |inputs|, Fee(ctx))
    && (k > 0 ==> p.dueAt.Some?)
    && (p.dueAt.Some? ==>
          && ctx.now < p.dueAt.value <= LatestDueAt(ctx)
          && (k > 0 && inputs[k - 1].dueAt.Some? ==> inputs[k - 1].dueAt.value < p.dueAt.value))
  }

  /** What the API takes. */
  ghost predicate Acceptable(inputs: seq<Payment>, ctx: Context) {
    && MIN_PLAN_PAYMENTS <= |inputs| <= MAX_PLAN_PAYMENTS
    && Cents(Round2(ctx.owed)) >= Cents(MIN_PLAN_PAYMENT as real + MIN_LAST_PAYMENT)
    && (forall k | 0 <= k < |inputs| :: InputPasses(inputs, k, ctx))
    && PaymentCents(inputs) == Cents(Round2(ctx.owed))
  }

  /** A payment is stored at its time, for its amount to the cent. */
  predicate KeptAs(kept: Kept, input: Payment) {
    && kept.dueAt == input.dueAt
    && Cents(kept.amount) == Cents(NumberOrZero(input.amount)) && kept.amount == Cents(kept.amount) as real / 100.0
  }

  /** The fee taken is the fee owed, to the cent; a negative one is none. */
  lemma FeeIsWhatIsOwed(ctx: Context)
    ensures Cents(Fee(ctx)) == Max(0, Cents(ctx.feeOwed)) && Fee(ctx) == Cents(Fee(ctx)) as real / 100.0
  {
    CentsOfDollars(Cents(ctx.feeOwed));
    RoundMonotone(0.0, if ctx.feeOwed > 0.0 then ctx.feeOwed * 100.0 else 0.0);
    if ctx.feeOwed <= 0.0 { RoundMonotone(ctx.feeOwed * 100.0, 0.0); }
  }

  /** The stored plan is the editor's: each row's amount and its moment, and the fee is inside the first. */
  lemma StoredAsEdited(rows: seq<Row>, kept: seq<Kept>, ctx: Context)
    requires |kept| == |rows| && Acceptable(PlanPayload(rows, ctx.eventStart), ctx)
    requires forall k | 0 <= k < |rows| :: KeptAs(kept[k], PlanPayload(rows, ctx.eventStart)[k])
    ensures forall k | 0 <= k < |rows| ::
              && Cents(kept[k].amount) == Cents(NumberOrZero(rows[k].amount))
              && kept[k].dueAt == if rows[k].date.Some? then Some(DueAt(rows[k].date.value, ctx.eventStart)) else None
    ensures Fee(ctx) > 0.0 ==> Cents(kept[0].amount) >= Cents(Fee(ctx)) + 5000
  {
    var p := PlanPayload(rows, ctx.eventStart);
    assert InputPasses(p, 0, ctx);
    CentsShift(Fee(ctx), MIN_PLAN_PAYMENT);
    FeeIsWhatIsOwed(ctx);
  }

  method CheckInput(inputs: seq<Payment>, k: nat, previous: Option<Moment>, ctx: Context) returns (ok: bool)
    requires k < |inputs|
    requires k > 0 ==> previous == Some(if inputs[k - 1].dueAt.Some? then inputs[k - 1].dueAt.value else ctx.now)
    requires k == 0 ==> previous.None?
    ensures ok <==> InputPasses(inputs, k, ctx)
  {
    var p := inputs[k];
    if !PositiveCents(p.amount) { return false; }
    var cents := Cents(p.amount.value);
    var last := k == |inputs| - 1;
    if k == 0 && Fee(ctx) > 0.0 && cents < Cents(Fee(ctx) + MIN_PLAN_PAYMENT as real) { return false; }
    if !last && cents < Cents(MIN_PLAN_PAYMENT as real) { return false; }
    if last && cents < Cents(MIN_LAST_PAYMENT) { return false; }
    if p.dueAt.None? { return k == 0; }
    var due := p.dueAt.value;
    if due <= ctx.now { return false; }
    if previous.Some? && due <= previous.value { return false; }
    return due <= LatestDueAt(ctx);
  }

  /** Stores an acceptable plan cent for cent, the first payment carrying the fee; refuses any other. */
  method CheckCustomPlan(inputs: seq<Payment>, ctx: Context) returns (kept: Option<seq<Kept>>)
    ensures kept.Some? <==> Acceptable(inputs, ctx)
    ensures kept.Some? ==> |kept.value| == |inputs| && KeptCents(kept.value) == Cents(ctx.owed)
    ensures kept.Some? ==> forall k | 0 <= k < |inputs| ::
              KeptAs(kept.value[k], inputs[k]) && kept.value[k].feeAmount == if k == 0 then Fee(ctx) else 0.0
  {
    var owed := Round2(ctx.owed);
    CentsOfDollars(Round(ctx.owed * 100.0));
    if |inputs| < MIN_PLAN_PAYMENTS || |inputs| > MAX_PLAN_PAYMENTS { return None; }
    if Cents(owed) < Cents(MIN_PLAN_PAYMENT as real + MIN_LAST_PAYMENT) { return None; }
    var total := 0;
    var previous: Option<Moment> := None;
    var out: seq<Kept> := [];
    for k := 0 to |inputs|
      invariant |out| == k && KeptCents(out) == total == PaymentCents(inputs[..k])
      invariant previous == if k == 0 then None
                            else Some(if inputs[k - 1].dueAt.Some? then inputs[k - 1].dueAt.value else ctx.now)
      invariant forall i | 0 <= i < k :: InputPasses(inputs, i, ctx)
      invariant forall i | 0 <= i < k ::
                  KeptAs(out[i], inputs[i]) && out[i].feeAmount == if i == 0 then Fee(ctx) else 0.0
    {
      var ok := CheckInput(inputs, k, previous, ctx);
      if !ok { return None; }
      var p := inputs[k];
      previous := Some(if p.dueAt.Some? then p.dueAt.value else ctx.now);
      total := total + Cents(p.amount.value);
      CentsOfDollars(Cents(p.amount.value));
      assert inputs[..k + 1][..k] == inputs[..k];
      var next := Kept(Round2(p.amount.value), if k == 0 then Fee(ctx) else 0.0, p.dueAt);
      assert (out + [next])[..k] == out;
      out := out + [next];
    }
    assert inputs[..|inputs|] == inputs;
    if total != Cents(owed) { return None; }
    return Some(out);
  }

  // ----- the editor against the API -----

  lemma {:induction false} PayloadCents(rows: seq<Row>, eventStart: Option<Moment>)
    ensures PaymentCents(PlanPayload(rows, eventStart)) == SumCents(rows)
  {
    if rows != [] {
      var p := PlanPayload(rows, eventStart);
      assert p[..|p| - 1] == PlanPayload(rows[..|rows| - 1], eventStart);
      PayloadCents(rows[..|rows| - 1], eventStart);
    }
  }

  lemma {:induction false} SumAtLeast(rows: seq<Row>, feeOwed: real, n: nat)
    requires AmountsValid(rows, feeOwed) && 1 <= n <= |rows|
    ensures SumCents(rows[..n]) >= 5000 * (n - 1) + 50
    ensures n < |rows| ==> SumCents(rows[..n]) >= 5000 * n
  {
    assert rows[..n][..n - 1] == rows[..n - 1];
    assert LeastCents(n - 1, |rows|, feeOwed) >= if n < |rows| then 5000 else 50;
    if n > 1 { SumAtLeast(rows, feeOwed, n - 1); } else { assert rows[..0] == []; }
  }

  lemma FeeFloor(k: nat, n: nat, ctx: Context)
    ensures LeastCents(k, n, Fee(ctx)) <= LeastCents(k, n, ctx.feeOwed)
  {
    CentsOfDollars(Round(ctx.feeOwed * 100.0));
    CentsShift(Fee(ctx), MIN_PLAN_PAYMENT);
    CentsShift(ctx.feeOwed, MIN_PLAN_PAYMENT);
  }

  /** Every charge is due by the API's limit: all a plan the editor accepted still needs. */
  predicate DueInTime(rows: seq<Row>, ctx: Context) {
    forall k | 0 <= k < |rows| && rows[k].date.Some? :: DueAt(rows[k].date.value, ctx.eventStart) <= LatestDueAt(ctx)
  }

  /** The API takes a plan the editor accepted exactly when its charges are due in time. */
  lemma EditorPlanAccepted(rows: seq<Row>, latest: Option<Moment>, ctx: Context)
    requires ValidPlan(rows, ctx.owed, ctx.feeOwed, latest, DayOf(ctx.now))
    ensures Acceptable(PlanPayload(rows, ctx.eventStart), ctx) <==> DueInTime(rows, ctx)
  {
    var p := PlanPayload(rows, ctx.eventStart);
    PayloadInOrder(rows, ctx.owed, ctx.feeOwed, latest, ctx.now, ctx.eventStart);
    PayloadCents(rows, ctx.eventStart);
    CentsOfDollars(Round(ctx.owed * 100.0));
    assert rows[..|rows|] == rows;
    SumAtLeast(rows, ctx.feeOwed, |rows|);
    if DueInTime(rows, ctx) {
      forall k | 0 <= k < |p| ensures InputPasses(p, k, ctx) {
        FeeFloor(k, |p|, ctx);
      }
    } else {
      var k :| 0 <= k < |rows| && rows[k].date.Some? && DueAt(rows[k].date.value, ctx.eventStart) > LatestDueAt(ctx);
      assert !InputPasses(p, k, ctx);
    }
  }

  /** Paid by the event: what the editor accepts the API takes. */
  lemma PlanBeforeEventAccepted(rows: seq<Row>, ctx: Context)
    requires ctx.eventStart.Some? && !ctx.payAfter
    requires ValidPlan(rows, ctx.owed, ctx.feeOwed, ctx.eventStart, DayOf(ctx.now))
    ensures Acceptable(PlanPayload(rows, ctx.eventStart), ctx)
  {
    PayloadInOrder(rows, ctx.owed, ctx.feeOwed, ctx.eventStart, ctx.now, ctx.eventStart);
    forall k | 0 <= k < |rows| && rows[k].date.Some?
      ensures DueAt(rows[k].date.value, ctx.eventStart) <= LatestDueAt(ctx)
    {
      assert PlanPayload(rows, ctx.eventStart)[k].dueAt == Some(DueAt(rows[k].date.value, ctx.eventStart));
    }
    EditorPlanAccepted(rows, ctx.eventStart, ctx);
  }

  /** Whatever the booking, with the API's own limit shown in the editor: only 9 AM on the very last day can miss it. */
  lemma PlanUnderLimitAccepted(rows: seq<Row>, ctx: Context)
    requires ValidPlan(rows, ctx.owed, ctx.feeOwed, Some(LatestDueAt(ctx)), DayOf(ctx.now))
    ensures Acceptable(PlanPayload(rows, ctx.eventStart), ctx) <==>
      var last := rows[|rows| - 1].date.value;
      last == DayOf(LatestDueAt(ctx)) ==> DueAt(last, ctx.eventStart) <= LatestDueAt(ctx)
  {
    EditorPlanAccepted(rows, Some(LatestDueAt(ctx)), ctx);
    forall k | 0 <= k < |rows| && rows[k].date.Some? && rows[k].date.value < DayOf(LatestDueAt(ctx))
      ensures DueAt(rows[k].date.value, ctx.eventStart) <= LatestDueAt(ctx)
    {
      DueOnItsDay(rows[k].date.value, ctx.eventStart);
    }
  }

  /** Two payments of $100, the second on the given day. */
  function TwoPayments(day: Day): seq<Row> {
    [Row(0, Dollars(100.0), None), Row(1, Dollars(100.0), Some(day))]
  }

  lemma TwoPaymentsSum(day: Day)
    ensures SumCents(TwoPayments(day)) == 20000
  {
    var rows := TwoPayments(day);
    assert rows[..1] == [rows[0]] && rows[..1][..0] == [];
    assert SumCents(rows[..1]) == 10000;
  }

  /** A pay-after-service booking that ends at 2 AM: the editor offers a last day the API then refuses. */
  lemma LastDayCanBeRefused() returns (rows: seq<Row>, ctx: Context)
    ensures ctx.eventStart.Some? && ctx.payAfter
    ensures ValidPlan(rows, ctx.owed, ctx.feeOwed, Some(LatestDueAt(ctx)), DayOf(ctx.now))
    ensures !Acceptable(PlanPayload(rows, ctx.eventStart), ctx)
  {
    ctx := Context(200.0, 0.0, 0, Some(10 * DAY_MS), Some(11 * DAY_MS + 2 * 3_600_000), true);
    rows := TwoPayments(18);
    TwoPaymentsSum(18);
    assert LatestDueAt(ctx) == 18 * DAY_MS + 2 * 3_600_000;
    PlanUnderLimitAccepted(rows, ctx);
  }

  /** So does a booking without a date, for a plan made before 9 AM with its last payment in 365 days. */
  lemma UndatedLastDayCanBeRefused() returns (rows: seq<Row>, ctx: Context)
    ensures ctx.eventStart.None?
    ensures ValidPlan(rows, ctx.owed, ctx.feeOwed, Some(LatestDueAt(ctx)), DayOf(ctx.now))
    ensures !Acceptable(PlanPayload(rows, ctx.eventStart), ctx)
  {
    ctx := Context(200.0, 0.0, 8 * 3_600_000, None, None, false);
    rows := TwoPayments(365);
    TwoPaymentsSum(365);
    assert LatestDueAt(ctx) == 365 * DAY_MS + 8 * 3_600_000;
    PlanUnderLimitAccepted(rows, ctx);
  }
}
