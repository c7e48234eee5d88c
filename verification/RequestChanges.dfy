/**
  What a vendor suggests in answer to a request (Front-End/lib/request-changes.ts): the draft, its
  validator, how the end moves with the start, and what is sent. Moments are local minutes.
 */
module RequestChanges {
  import opened Wrappers
  import opened Rounding
  import opened Text
  import PackageOptions
  import opened Choices

  type Day = int
  type Moment = int
  type TimeOfDay = t: int | 0 <= t < 1440

  const DAY := 1440
  const MAX_LINE_PRICE := 100000.0
  const MAX_LINE_QUANTITY := 999.0
  const MAX_NOTE := 1000

  datatype Unit = Fixed | PerPerson | PerHour | PerItem

  /** What a request asks for now. */
  datatype TermsLine = TermsLine(extraId: Option<string>, addOnId: Option<string>, name: string, unit: Unit, unitPrice: real, quantity: int)
  datatype Chosen = Chosen(group: string, options: seq<string>)
  datatype Terms = Terms(
    scheduledAt: Option<Moment>, eventStart: Option<Moment>, eventEnd: Option<Moment>, guestCount: Option<int>,
    lines: seq<TermsLine>, options: seq<Chosen>, travel: Option<Option<real>>)

  datatype DraftLine = DraftLine(extraId: Option<string>, addOnId: Option<string>, name: string, unit: Unit, quantity: Entry, unitPrice: Entry)
  datatype Draft = Draft(
    date: Option<Day>, start: Option<TimeOfDay>, endDate: Option<Day>, end: Option<TimeOfDay>, endEdited: bool,
    guests: Entry, lines: seq<DraftLine>, picks: Picks, note: string, travelFee: Option<Entry>)

  function DateOf(at: Moment): Day {
    at / DAY
  }

  function TimeOf(at: Moment): TimeOfDay {
    at % DAY
  }

  function At(date: Day, time: TimeOfDay): Moment {
    date * DAY + time
  }

  function OrMidnight(t: Option<TimeOfDay>): TimeOfDay {
    if t.Some? then t.value else 0
  }

  function LineFrom(l: TermsLine): DraftLine {
    DraftLine(l.extraId, None, l.name, l.unit, Shown(l.quantity as real), Shown(l.unitPrice))
  }

  function PicksFrom(options: seq<Chosen>): Picks {
    if options == [] then map[] else PicksFrom(options[..|options| - 1])[options[|options| - 1].group := options[|options| - 1].options]
  }

  /** The draft that changes nothing. A start without a time of day shows its scheduled day only. */
  function DraftFrom(c: Terms): Draft {
    var start := if c.eventStart.Some? then c.eventStart else c.scheduledAt;
    Draft(if start.Some? then Some(DateOf(start.value)) else None,
          if c.eventStart.Some? then Some(TimeOf(c.eventStart.value)) else None,
          if c.eventEnd.Some? then Some(DateOf(c.eventEnd.value)) else None,
          if c.eventEnd.Some? then Some(TimeOf(c.eventEnd.value)) else None,
          false,
          if c.guestCount.Some? then Shown(c.guestCount.value as real) else Blank,
          seq(|c.lines|, k requires 0 <= k < |c.lines| => LineFrom(c.lines[k])),
          PicksFrom(c.options),
          "",
          if c.travel.None? then None
          else if c.travel.value.Some? then Some(Shown(c.travel.value.value)) else Some(Blank))
  }

  /** The draft shows the request: its day and times, its guests and its travel fee, and no note yet. */
  lemma DraftShowsRequest(c: Terms)
    ensures var d := DraftFrom(c);
      && (c.eventStart.Some? ==> d.date.Some? && d.start.Some? && At(d.date.value, d.start.value) == c.eventStart.value)
      && (c.eventStart.None? ==> d.start.None? && (d.date.Some? <==> c.scheduledAt.Some?))
      && (c.eventStart.None? && c.scheduledAt.Some? ==> d.date.value * DAY <= c.scheduledAt.value < d.date.value * DAY + DAY)
      && (if c.eventEnd.Some? then d.endDate.Some? && d.end.Some? && At(d.endDate.value, d.end.value) == c.eventEnd.value
          else d.endDate.None? && d.end.None?)
      && !d.endEdited && d.note == ""
      && (if c.guestCount.Some? then !d.guests.Blank? && NumberOf(d.guests) == Some(c.guestCount.value as real) else d.guests.Blank?)
      && (d.travelFee.Some? <==> c.travel.Some?)
      && (c.travel.Some? ==> if c.travel.value.Some? then !Empty(d.travelFee.value) && NumberOf(d.travelFee.value) == c.travel.value
                             else d.travelFee.value.Blank?)
  {
  }

  // ----- moving the event -----

  /** The start is dragged. The end follows it, so the length stays, until the vendor sets the end by hand. */
  function MoveStart(d: Draft, date: Option<Day>, start: Option<TimeOfDay>): Draft {
    var next := d.(date := date, start := start);
    if d.date.None? || date.None? || d.end.None? || d.endDate.None? || d.endEdited then next
    else
      var shift := At(date.value, OrMidnight(start)) - At(d.date.value, OrMidnight(d.start));
      var end := At(d.endDate.value, d.end.value) + shift;
      next.(endDate := Some(DateOf(end)), end := Some(TimeOf(end)))
  }

  function SetEnd(d: Draft, endDate: Option<Day>, end: Option<TimeOfDay>): Draft {
    d.(endDate := endDate, end := end, endEdited := true)
  }

  datatype Move = Move(date: Day, start: Option<TimeOfDay>)

  function AfterMoves(d: Draft, moves: seq<Move>): Draft {
    if moves == [] then d
    else
      var m := moves[|moves| - 1];
      MoveStart(AfterMoves(d, moves[..|moves| - 1]), Some(m.date), m.start)
  }

  predicate HasLength(d: Draft) {
    d.date.Some? && d.endDate.Some? && d.end.Some?
  }

  function Length(d: Draft): int
    requires HasLength(d)
  {
    At(d.endDate.value, d.end.value) - At(d.date.value, OrMidnight(d.start))
  }

  /** Two moves in a row are the second one. */
  lemma LastMoveCounts(d: Draft, m: Move, n: Move)
    requires d.date.Some?
    ensures MoveStart(MoveStart(d, Some(m.date), m.start), Some(n.date), n.start) == MoveStart(d, Some(n.date), n.start)
  {
  }

  /** However the start is dragged about, the event keeps its length and only the last place counts. */
  lemma {:induction false} MovesKeepLength(d: Draft, moves: seq<Move>)
    requires d.date.Some? && |moves| > 0
    ensures var last := moves[|moves| - 1]; AfterMoves(d, moves) == MoveStart(d, Some(last.date), last.start)
    ensures HasLength(d) && !d.endEdited ==> HasLength(AfterMoves(d, moves)) && Length(AfterMoves(d, moves)) == Length(d)
  {
    var m := moves[|moves| - 1];
    var init := moves[..|moves| - 1];
    if init != [] {
      MovesKeepLength(d, init);
      LastMoveCounts(d, init[|init| - 1], m);
    }
  }

  /** An end set by hand stays where it is, however the start is dragged about. */
  lemma {:induction false} MovesLeaveSetEnd(d: Draft, moves: seq<Move>)
    requires d.endEdited && |moves| > 0
    ensures var last := moves[|moves| - 1]; AfterMoves(d, moves) == d.(date := Some(last.date), start := last.start)
  {
    var init := moves[..|moves| - 1];
    if init != [] { MovesLeaveSetEnd(d, init); }
  }

  /** Whatever end the vendor sets, or clears: moves of the start leave it so, and it counts as set. */
  lemma SetEndStays(d: Draft, endDate: Option<Day>, end: Option<TimeOfDay>, moves: seq<Move>)
    requires |moves| > 0
    ensures var e := AfterMoves(SetEnd(d, endDate, end), moves);
      e.endDate == endDate && e.end == end && e.endEdited && e.date == Some(moves[|moves| - 1].date)
  {
    MovesLeaveSetEnd(SetEnd(d, endDate, end), moves);
  }

  /** With the date cleared in between, the end stays behind: the same as moving straight there only for a move by nothing. */
  lemma ClearingLeavesTheEnd(d: Draft, start: Option<TimeOfDay>, m: Move)
    requires HasLength(d) && !d.endEdited
    ensures var cleared := MoveStart(MoveStart(d, None, start), Some(m.date), m.start);
      && cleared.endDate == d.endDate && cleared.end == d.end
      && (cleared == MoveStart(d, Some(m.date), m.start)
          <==> At(m.date, OrMidnight(m.start)) == At(d.date.value, OrMidnight(d.start)))
  {
  }

  // ----- the validator -----

  predicate CountsQuantity(u: Unit) {
    u.Fixed? || u.PerItem?
  }

  /** Only spaces, or nothing at all. */
  predicate Empty(e: Entry) {
    e.Blank? || (e.Number? && e.typed.Some? && Trim(e.typed.value) == "")
  }

  predicate MoneyValid(e: Entry) {
    NumberOf(e).Some? && 0.0 <= NumberOf(e).value <= MAX_LINE_PRICE && WholeCents(NumberOf(e).value)
  }

  predicate LineValid(l: DraftLine) {
    && !Empty(l.unitPrice) && MoneyValid(l.unitPrice)
    && (CountsQuantity(l.unit) ==> IsInteger(NumberOf(l.quantity)) && 1.0 <= NumberOf(l.quantity).value <= MAX_LINE_QUANTITY)
  }

  predicate TimesValid(d: Draft) {
    && (d.date.Some? && d.start.Some? && d.end.Some? && (d.endDate.None? || d.endDate == d.date) ==> d.end != d.start)
    && (d.date.Some? && d.endDate.Some? ==> d.endDate.value >= d.date.value)
  }

  predicate GuestsValid(d: Draft, needed: bool) {
    && (!d.guests.Blank? ==> IsInteger(NumberOf(d.guests)) && NumberOf(d.guests).value >= 1.0)
    && (needed ==> !d.guests.Blank?)
  }

  predicate DraftValid(d: Draft, needsGuests: bool, customizations: seq<PackageOptions.Customization>) {
    && TimesValid(d)
    && GuestsValid(d, needsGuests)
    && (forall k | 0 <= k < |d.lines| :: LineValid(d.lines[k]))
    && (d.travelFee.Some? && !Empty(d.travelFee.value) ==> MoneyValid(d.travelFee.value))
    && (forall k | 0 <= k < |customizations| && customizations[k].required :: Picked(d.picks, customizations[k].id) != [])
    && |d.note| <= MAX_NOTE
  }

  datatype Problem =
    | EndNotAfterStart | EndDateBeforeStart | BadGuests | GuestsNeeded
    | BadPrice(line: nat) | NotCents(line: nat) | BadQuantity(line: nat)
    | BadTravelFee | Unanswered(group: PackageOptions.Customization) | NoteTooLong

  predicate PriceInRange(l: DraftLine) {
    !Empty(l.unitPrice) && NumberOf(l.unitPrice).Some? && 0.0 <= NumberOf(l.unitPrice).value <= MAX_LINE_PRICE
  }

  predicate LineComplains(l: DraftLine, e: Problem) {
    match e
    case BadPrice(_) => !PriceInRange(l)
    case NotCents(_) => PriceInRange(l) && !WholeCents(NumberOf(l.unitPrice).value)
    case BadQuantity(_) => !Empty(l.unitPrice) && MoneyValid(l.unitPrice) && !LineValid(l)
    case _ => false
  }

  method LineError(l: DraftLine, k: nat) returns (e: Option<Problem>)
    ensures e.None? <==> LineValid(l)
    ensures e.Some? ==> LineComplains(l, e.value) && e.value.line == k
  {
    var p := NumberOf(l.unitPrice);
    if Empty(l.unitPrice) || p.None? || !(p.value >= 0.0) || p.value > MAX_LINE_PRICE { return Some(BadPrice(k)); }
    if !WholeCents(p.value) { return Some(NotCents(k)); }
    if CountsQuantity(l.unit) {
      var q := NumberOf(l.quantity);
      if !IsInteger(q) || q.value < 1.0 || q.value > MAX_LINE_QUANTITY { return Some(BadQuantity(k)); }
    }
    return None;
  }

  predicate LinesValid(lines: seq<DraftLine>, n: nat)
    requires n <= |lines|
  {
    forall k | 0 <= k < n :: LineValid(lines[k])
  }

  predicate FeeValid(d: Draft) {
    d.travelFee.Some? && !Empty(d.travelFee.value) ==> MoneyValid(d.travelFee.value)
  }

  /** What each complaint says is wrong, everything checked before it being right. */
  predicate Complains(d: Draft, needed: bool, customizations: seq<PackageOptions.Customization>, e: Problem) {
    match e
    case EndNotAfterStart => !TimesValid(d) && d.end == d.start
    case EndDateBeforeStart => !TimesValid(d) && d.date.Some? && d.endDate.Some? && d.endDate.value < d.date.value
    case BadGuests => TimesValid(d) && !GuestsValid(d, needed) && !d.guests.Blank?
    case GuestsNeeded => TimesValid(d) && needed && d.guests.Blank?
    case BadTravelFee => TimesValid(d) && GuestsValid(d, needed) && LinesValid(d.lines, |d.lines|) && !FeeValid(d)
    case Unanswered(g) =>
      TimesValid(d) && GuestsValid(d, needed) && LinesValid(d.lines, |d.lines|) && FeeValid(d) && MissingChoice(customizations, d.picks) == Some(g)
    case NoteTooLong =>
      TimesValid(d) && GuestsValid(d, needed) && LinesValid(d.lines, |d.lines|) && FeeValid(d) && MissingChoice(customizations, d.picks).None? && |d.note| > MAX_NOTE
    case _ =>
      TimesValid(d) && GuestsValid(d, needed) && e.line < |d.lines| && LinesValid(d.lines, e.line) && LineComplains(d.lines[e.line], e)
  }

  /** Null exactly for a draft that keeps every rule; otherwise the complaint is about the first thing wrong. */
  method DraftError(d: Draft, needsGuests: bool, customizations: seq<PackageOptions.Customization>) returns (e: Option<Problem>)
    ensures e.None? <==> DraftValid(d, needsGuests, customizations)
    ensures e.Some? ==> Complains(d, needsGuests, customizations, e.value)
  {
    if d.date.Some? && d.start.Some? && d.end.Some? && (if d.endDate.Some? then d.endDate else d.date) == d.date && d.end == d.start {
      return Some(EndNotAfterStart);
    }
    if d.date.Some? && d.endDate.Some? && d.endDate.value < d.date.value { return Some(EndDateBeforeStart); }
    if !d.guests.Blank? {
      var g := NumberOf(d.guests);
      if !(IsInteger(g) && g.value >= 1.0) { return Some(BadGuests); }
    }
    if needsGuests && d.guests.Blank? { return Some(GuestsNeeded); }
    for k := 0 to |d.lines|
      invariant LinesValid(d.lines, k)
    {
      e := LineError(d.lines[k], k);
      if e.Some? { return; }
    }
    if d.travelFee.Some? && !Empty(d.travelFee.value) && !MoneyValid(d.travelFee.value) { return Some(BadTravelFee); }
    MissingIsUnanswered(customizations, d.picks);
    var g := MissingChoice(customizations, d.picks);
    if g.Some? { return Some(Unanswered(g.value)); }
    if |d.note| > MAX_NOTE { return Some(NoteTooLong); }
    return None;
  }

  // ----- what is sent -----

  /** A line keeps its extra's id, or names an add-on (None: neither). */
  datatype LineId = Extra(id: string) | AddOn(addOn: Option<string>)
  datatype LineInput = LineInput(id: LineId, quantity: Option<Option<real>>, unitPrice: Option<real>)
  datatype Body = Body(
    lines: seq<LineInput>, options: seq<Choice>, eventStart: Option<Moment>, eventEnd: Option<Moment>,
    guests: Option<Option<real>>, travelFee: Option<Option<real>>, note: Option<string>)

  function LineToInput(l: DraftLine): LineInput {
    LineInput(if l.extraId.Some? && l.extraId.value != "" then Extra(l.extraId.value) else AddOn(l.addOnId),
              if CountsQuantity(l.unit) then Some(NumberOf(l.quantity)) else None,
              NumberOf(l.unitPrice))
  }

  function StartSent(d: Draft, initial: Draft): Option<Moment> {
    if d.date.Some? && (d.date != initial.date || d.start != initial.start) then Some(At(d.date.value, OrMidnight(d.start))) else None
  }

  predicate SendsEnd(d: Draft, initial: Draft) {
    && d.date.Some? && d.endEdited && d.end.Some?
    && (d.endDate != initial.endDate || d.end != initial.end || StartSent(d, initial).Some?)
  }

  /** The end that is sent. On the day of the start, an end at or before it is taken to be after midnight. */
  function EndMoment(d: Draft): Moment
    requires d.date.Some? && d.end.Some?
  {
    var sameDay := d.endDate.None? || d.endDate == d.date;
    var end := At(if sameDay then d.date.value else d.endDate.value, d.end.value);
    if sameDay && end <= At(d.date.value, OrMidnight(d.start)) then end + DAY else end
  }

  function Payload(d: Draft, initial: Draft, customizations: seq<PackageOptions.Customization>): Body {
    Body(seq(|d.lines|, k requires 0 <= k < |d.lines| => LineToInput(d.lines[k])),
         ChoicesPayload(customizations, d.picks),
         StartSent(d, initial),
         if SendsEnd(d, initial) then Some(EndMoment(d)) else None,
         if !d.guests.Blank? && d.guests != initial.guests then Some(NumberOf(d.guests)) else None,
         if d.travelFee.Some? && !Empty(d.travelFee.value) && d.travelFee != initial.travelFee then Some(NumberOf(d.travelFee.value)) else None,
         if Trim(d.note) != "" then Some(Trim(d.note)) else None)
  }

  method DraftPayload(d: Draft, initial: Draft, customizations: seq<PackageOptions.Customization>) returns (body: Body)
    ensures body == Payload(d, initial, customizations)
  {
    body := Body(seq(|d.lines|, k requires 0 <= k < |d.lines| => LineToInput(d.lines[k])),
                 ChoicesPayload(customizations, d.picks), None, None, None, None, None);
    if d.date.Some? {
      var start := At(d.date.value, OrMidnight(d.start));
      if d.date != initial.date || d.start != initial.start { body := body.(eventStart := Some(start)); }
      if d.endEdited && d.end.Some? && (d.endDate != initial.endDate || d.end != initial.end || body.eventStart.Some?) {
        var sameDay := d.endDate.None? || d.endDate == d.date;
        var end := At(if sameDay then d.date.value else d.endDate.value, d.end.value);
        if sameDay && end <= start { end := end + DAY; }
        body := body.(eventEnd := Some(end));
      }
    }
    if !d.guests.Blank? && d.guests != initial.guests { body := body.(guests := Some(NumberOf(d.guests))); }
    if d.travelFee.Some? && !Empty(d.travelFee.value) && d.travelFee != initial.travelFee {
      body := body.(travelFee := Some(NumberOf(d.travelFee.value)));
    }
    if Trim(d.note) != "" { body := body.(note := Some(Trim(d.note))); }
  }

  /** An end that is sent is after the start exactly when its date is not before the start's. */
  lemma EndSentAfterStart(d: Draft, initial: Draft, customizations: seq<PackageOptions.Customization>)
    requires Payload(d, initial, customizations).eventEnd.Some?
    ensures var body := Payload(d, initial, customizations);
      var start := At(d.date.value, OrMidnight(d.start));
      && (body.eventEnd.value > start <==> (d.endDate.Some? ==> d.endDate.value >= d.date.value))
      && (body.eventStart.Some? ==> body.eventStart.value == start)
  {
  }

  /** The end that is sent is the first moment after the start with its time of day, or on the later day picked for it. */
  lemma EndMomentIs(d: Draft)
    requires d.date.Some? && d.end.Some?
    ensures TimeOf(EndMoment(d)) == d.end.value
    ensures var start := At(d.date.value, OrMidnight(d.start));
      if d.endDate.None? || d.endDate == d.date then start < EndMoment(d) <= start + DAY
      else DateOf(EndMoment(d)) == d.endDate.value
  {
  }

  /** What a draft sends of its times: a start or an end the vendor changed, as they are on screen. */
  lemma TimesSent(d: Draft, initial: Draft, customizations: seq<PackageOptions.Customization>)
    requires d.date.Some?
    ensures var body := Payload(d, initial, customizations);
      && body.eventStart == (if d.date == initial.date && d.start == initial.start then None else Some(At(d.date.value, OrMidnight(d.start))))
      && (body.eventEnd.Some? ==> d.end.Some? && d.endEdited && body.eventEnd.value == EndMoment(d))
      && (d.end.Some? && d.endEdited && body.eventEnd.None? ==>
            d.date == initial.date && d.start == initial.start && d.endDate == initial.endDate && d.end == initial.end)
      && (d.date == initial.date && d.start == initial.start && d.endDate == initial.endDate && d.end == initial.end ==> body.eventEnd.None?)
  {
  }

  /** The vendor sets the end and then drags the start about: the end sent is the one that was set, read against the last start. */
  lemma SetEndIsSent(d: Draft, endDate: Option<Day>, end: TimeOfDay, moves: seq<Move>, initial: Draft, customizations: seq<PackageOptions.Customization>)
    requires |moves| > 0
    ensures var e := AfterMoves(SetEnd(d, endDate, Some(end)), moves);
      && e.endDate == endDate && e.end == Some(end)
      && var sent := Payload(e, initial, customizations).eventEnd;
         && (sent.Some? ==> TimeOf(sent.value) == end && (endDate.Some? && endDate != e.date ==> DateOf(sent.value) == endDate.value))
         && (sent.None? ==> e.date == initial.date && e.start == initial.start && endDate == initial.endDate && initial.end == Some(end))
  {
    MovesLeaveSetEnd(SetEnd(d, endDate, Some(end)), moves);
    var e := AfterMoves(SetEnd(d, endDate, Some(end)), moves);
    TimesSent(e, initial, customizations);
    EndMomentIs(e);
  }

  /** A note is sent without the spaces around it, or not at all; a line is sent in its place, by its extra's id or its add-on's. */
  lemma NoteAndLinesSent(d: Draft, initial: Draft, customizations: seq<PackageOptions.Customization>)
    ensures var body := Payload(d, initial, customizations);
      && (if Trim(d.note) == "" then body.note.None? else body.note == Some(Trim(d.note)))
      && |body.lines| == |d.lines|
      && forall k | 0 <= k < |d.lines| ::
           && body.lines[k].unitPrice == NumberOf(d.lines[k].unitPrice)
           && (if d.lines[k].extraId.Some? && d.lines[k].extraId.value != "" then body.lines[k].id == Extra(d.lines[k].extraId.value)
               else body.lines[k].id == AddOn(d.lines[k].addOnId))
           && (body.lines[k].quantity.Some? <==> d.lines[k].unit.Fixed? || d.lines[k].unit.PerItem?)
           && (body.lines[k].quantity.Some? ==> body.lines[k].quantity.value == NumberOf(d.lines[k].quantity))
  {
  }

  /** So a draft the validator takes never sends an end at or before its start, or an amount that can't be read. */
  lemma ValidDraftPayload(d: Draft, initial: Draft, needsGuests: bool, customizations: seq<PackageOptions.Customization>)
    requires DraftValid(d, needsGuests, customizations)
    ensures var body := Payload(d, initial, customizations);
      && (body.eventEnd.Some? ==> body.eventEnd.value > At(d.date.value, OrMidnight(d.start)))
      && (body.guests.Some? ==> IsInteger(body.guests.value) && body.guests.value.value >= 1.0)
      && (body.travelFee.Some? ==> body.travelFee.value.Some? && 0.0 <= body.travelFee.value.value <= MAX_LINE_PRICE)
      && (forall k | 0 <= k < |body.lines| :: body.lines[k].unitPrice.Some? && (body.lines[k].quantity.Some? ==> body.lines[k].quantity.value.Some?))
      && MissingChoice(customizations, d.picks).None?
  {
    MissingIsUnanswered(customizations, d.picks);
    assert forall k | 0 <= k < |d.lines| :: LineValid(d.lines[k]);
  }

  /**
    A draft sent untouched changes nothing: no date, guests, fee or note, and every line as it was. A line
    is still known to the API exactly when it has an extra's id; an add-on's id on its own is not carried over.
   */
  lemma UntouchedSendsNothingNew(c: Terms, customizations: seq<PackageOptions.Customization>)
    ensures var body := Payload(DraftFrom(c), DraftFrom(c), customizations);
      && body.eventStart.None? && body.eventEnd.None? && body.guests.None? && body.travelFee.None? && body.note.None?
      && |body.lines| == |c.lines|
      && forall k | 0 <= k < |c.lines| ::
           && body.lines[k].unitPrice == Some(c.lines[k].unitPrice)
           && body.lines[k].quantity == (if CountsQuantity(c.lines[k].unit) then Some(Some(c.lines[k].quantity as real)) else None)
           && body.lines[k].id == if c.lines[k].extraId.Some? && c.lines[k].extraId.value != ""
                                  then Extra(c.lines[k].extraId.value) else AddOn(None)
  {
  }

  lemma {:induction false} PicksFromHolds(options: seq<Chosen>, k: nat)
    requires k < |options| && forall i, j | 0 <= i < j < |options| :: options[i].group != options[j].group
    ensures Picked(PicksFrom(options), options[k].group) == options[k].options
  {
    if k < |options| - 1 { PicksFromHolds(options[..|options| - 1], k); }
  }

  /** ... and every choice as it was, as long as the vendor still offers it. */
  lemma UntouchedKeepsChoices(c: Terms, customizations: seq<PackageOptions.Customization>, k: nat, g: nat)
    requires DistinctGroups(customizations) && g < |customizations| && DistinctOptions(customizations[g])
    requires k < |c.options| && c.options[k].group == customizations[g].id
    requires forall i, j | 0 <= i < j < |c.options| :: c.options[i].group != c.options[j].group
    requires SoundPicks(customizations[g], c.options[k].options)
    ensures var answer := AnswerTo(Payload(DraftFrom(c), DraftFrom(c), customizations).options, customizations[g].id);
      SamePicks(answer, c.options[k].options) && |answer| == |c.options[k].options|
  {
    PicksFromHolds(c.options, k);
    PayloadAnswers(customizations, DraftFrom(c).picks, g);
    InOrderKeepsPicks(customizations[g], c.options[k].options);
  }
}
