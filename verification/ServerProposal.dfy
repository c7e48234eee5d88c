/**
  What the API makes of a suggestion's times, guests and travel fee
  (Back-end/src/modules/contracts/request-changes.ts), against what the vendor's editor showed.
 */
module ServerProposal {
  import opened Wrappers
  import opened Rounding
  import opened Text
  import PackageOptions
  import opened RequestChanges

  datatype Times = Times(start: Option<Moment>, end: Option<Moment>)

  /** What is not sent stays, but for an end whose start moved: it follows. */
  function SuggestedTimes(was: Times, sent: Times): Times {
    var start := if sent.start.Some? then sent.start else was.start;
    if sent.end.Some? then Times(start, sent.end)
    else if sent.start.Some? && was.start.Some? && was.end.Some?
    then Times(start, Some(sent.start.value + (was.end.value - was.start.value)))
    else Times(start, was.end)
  }

  function WasTimes(c: Terms): Times {
    Times(if c.eventStart.Some? then c.eventStart else c.scheduledAt, c.eventEnd)
  }

  function Proposed(c: Terms, body: Body): Times {
    SuggestedTimes(WasTimes(c), Times(body.eventStart, body.eventEnd))
  }

  /** The times the editor shows, a start without a time of day read as midnight. */
  function ShownStart(d: Draft): Option<Moment> {
    if d.date.Some? then Some(At(d.date.value, OrMidnight(d.start))) else None
  }

  function ShownEnd(d: Draft): Option<Moment> {
    if d.endDate.Some? && d.end.Some? then Some(At(d.endDate.value, d.end.value)) else None
  }

  /** A request whose start has no time of day, but whose scheduled moment does. */
  predicate TimeUnset(c: Terms) {
    c.eventStart.None? && c.scheduledAt.Some? && TimeOf(c.scheduledAt.value) != 0
  }

  /** With the end left alone, the API's end is the one on screen exactly when the event on screen kept its length. */
  lemma EndShownIsEndProposed(c: Terms, d: Draft, customizations: seq<PackageOptions.Customization>)
    requires HasLength(d) && !d.endEdited && WasTimes(c).start.Some? && WasTimes(c).end.Some?
    requires Payload(d, DraftFrom(c), customizations).eventStart.Some?
    ensures var times := Proposed(c, Payload(d, DraftFrom(c), customizations));
      && times.start == ShownStart(d)
      && (times.end == ShownEnd(d) <==> Length(d) == WasTimes(c).end.value - WasTimes(c).start.value)
  {
  }

  function Place(m: Move): Moment {
    At(m.date, OrMidnight(m.start))
  }

  lemma {:induction false} FirstMoveFirst(d: Draft, moves: seq<Move>)
    requires |moves| > 0
    ensures AfterMoves(d, moves) == AfterMoves(MoveStart(d, Some(moves[0].date), moves[0].start), moves[1..])
    decreases |moves|
  {
    if |moves| > 1 {
      var init := moves[..|moves| - 1];
      FirstMoveFirst(d, init);
      assert moves[1..][..|moves| - 2] == init[1..];
    }
  }

  predicate EndFree(d: Draft) {
    !d.endEdited && (d.endDate.Some? <==> d.end.Some?)
  }

  lemma DraftShows(c: Terms)
    ensures var d := DraftFrom(c);
      EndFree(d) && ShownEnd(d) == c.eventEnd && (d.date.Some? <==> WasTimes(c).start.Some?)
  {
  }

  lemma MoveShifts(d: Draft, m: Move)
    requires EndFree(d)
    ensures var e := MoveStart(d, Some(m.date), m.start);
      && EndFree(e) && e.date == Some(m.date) && e.start == m.start
      && ShownEnd(e) == if ShownEnd(d).None? || d.date.None? then ShownEnd(d)
                        else Some(ShownEnd(d).value + Place(m) - ShownStart(d).value)
  {
  }

  /** Where the end counts from: the request's own start, or the first place the vendor gave it. */
  function Origin(c: Terms, moves: seq<Move>): Moment
    requires |moves| > 0
  {
    if DraftFrom(c).date.Some? then ShownStart(DraftFrom(c)).value else Place(moves[0])
  }

  /** The start is the last place, and the end on screen has come along from `origin`. */
  predicate Led(d: Draft, last: Move, end: Option<Moment>, origin: Moment) {
    && EndFree(d) && d.date == Some(last.date) && d.start == last.start
    && ShownEnd(d) == if end.None? then None else Some(end.value + Place(last) - origin)
  }

  lemma MovesLead(d: Draft, moves: seq<Move>)
    requires EndFree(d) && d.date.Some? && |moves| > 0
    ensures Led(AfterMoves(d, moves), moves[|moves| - 1], ShownEnd(d), ShownStart(d).value)
  {
    MovesKeepLength(d, moves);
    MoveShifts(d, moves[|moves| - 1]);
  }

  lemma WhereMovesLead(c: Terms, moves: seq<Move>)
    requires |moves| > 0
    ensures Led(AfterMoves(DraftFrom(c), moves), moves[|moves| - 1], c.eventEnd, Origin(c, moves))
  {
    var d0 := DraftFrom(c);
    DraftShows(c);
    if d0.date.Some? {
      MovesLead(d0, moves);
    } else {
      MoveShifts(d0, moves[0]);
      FirstMoveFirst(d0, moves);
      if |moves| > 1 { MovesLead(MoveStart(d0, Some(moves[0].date), moves[0].start), moves[1..]); }
    }
  }

  lemma NotSentIsNotMoved(c: Terms, d: Draft)
    requires d.date.Some? && StartSent(d, DraftFrom(c)).None?
    ensures DraftFrom(c).date.Some? && ShownStart(d) == ShownStart(DraftFrom(c))
  {
  }

  lemma FreeEndIsNotSent(c: Terms, d: Draft, customizations: seq<PackageOptions.Customization>)
    requires EndFree(d) && d.date.Some?
    ensures var body := Payload(d, DraftFrom(c), customizations);
      body.eventEnd.None? && body.eventStart == StartSent(d, DraftFrom(c)) && (body.eventStart.Some? ==> body.eventStart == ShownStart(d))
  {
  }

  /** The API counts the end from where the start was, the editor from `origin`: the two ends meet exactly when those do. */
  lemma EndsMeet(was: Times, sent: Option<Moment>, place: Moment, origin: Moment)
    requires if sent.Some? then sent.value == place else place == origin
    ensures var shown := if was.end.None? then None else Some(was.end.value + place - origin);
      SuggestedTimes(was, Times(sent, None)).end == shown
      <==> sent.None? || was.end.None? || if was.start.Some? then origin == was.start.value else place == origin
  {
  }

  lemma OriginIs(c: Terms, moves: seq<Move>)
    requires |moves| > 0
    ensures if WasTimes(c).start.Some? then Origin(c, moves) == WasTimes(c).start.value <==> !TimeUnset(c)
            else Origin(c, moves) == Place(moves[0])
  {
  }

  /** From where the editor counts the end is also from where the API does. */
  predicate SameOrigin(c: Terms, moves: seq<Move>)
    requires |moves| > 0
  {
    if WasTimes(c).start.Some? then !TimeUnset(c) else Place(moves[|moves| - 1]) == Place(moves[0])
  }

  /**
    However the vendor drags the start about, the API works out the end the editor shows exactly when there is
    no end, nothing was sent, or the API moves it from where the editor does: the request's start with its
    time of day, or, if it had no start, the place the vendor first put it.
   */
  lemma MovedEndIsProposed(c: Terms, moves: seq<Move>, customizations: seq<PackageOptions.Customization>)
    requires |moves| > 0
    ensures var d := AfterMoves(DraftFrom(c), moves);
      var body := Payload(d, DraftFrom(c), customizations);
      && body.eventEnd.None?
      && (body.eventStart.Some? ==> Proposed(c, body).start == ShownStart(d))
      && (Proposed(c, body).end == ShownEnd(d)
          <==> body.eventStart.None? || c.eventEnd.None? || SameOrigin(c, moves))
  {
    var d := AfterMoves(DraftFrom(c), moves);
    var sent := Payload(d, DraftFrom(c), customizations).eventStart;
    var place, origin := Place(moves[|moves| - 1]), Origin(c, moves);
    WhereMovesLead(c, moves);
    FreeEndIsNotSent(c, d, customizations);
    if sent.None? { NotSentIsNotMoved(c, d); }
    EndsMeet(WasTimes(c), sent, place, origin);
    OriginIs(c, moves);
  }

  /** Scheduled for 10 AM with no time of day, and over at noon: a day later the editor shows noon, the API midnight and two hours. */
  lemma UnsetTimeMovesApart()
    ensures var c := Terms(Some(At(0, 600)), None, Some(At(0, 720)), None, [], [], None);
      var d := AfterMoves(DraftFrom(c), [Move(1, None)]);
      ShownEnd(d) == Some(At(1, 720)) && Proposed(c, Payload(d, DraftFrom(c), [])).end == Some(At(1, 120))
  {
    var c := Terms(Some(At(0, 600)), None, Some(At(0, 720)), None, [], [], None);
    WhereMovesLead(c, [Move(1, None)]);
  }

  /** An end and no start: put on one day and then the next, the end moves on screen only. */
  lemma NoStartMovesApart()
    ensures var c := Terms(None, None, Some(At(0, 720)), None, [], [], None);
      var d := AfterMoves(DraftFrom(c), [Move(0, Some(600)), Move(1, Some(600))]);
      ShownEnd(d) == Some(At(1, 720)) && Proposed(c, Payload(d, DraftFrom(c), [])).end == Some(At(0, 720))
  {
    var c := Terms(None, None, Some(At(0, 720)), None, [], [], None);
    WhereMovesLead(c, [Move(0, Some(600)), Move(1, Some(600))]);
  }

  /** Clearing the date on the way to the day before: the editor shows a 26 hour event, the API moves the 2 hour one. */
  lemma ClearedDateMisleads()
    ensures var c := Terms(None, Some(At(2, 600)), Some(At(2, 720)), None, [], [], None);
      var d := MoveStart(MoveStart(DraftFrom(c), None, Some(600)), Some(1), Some(600));
      && DraftValid(d, false, [])
      && ShownStart(d) == Some(At(1, 600)) && ShownEnd(d) == Some(At(2, 720))
      && Proposed(c, Payload(d, DraftFrom(c), [])) == Times(Some(At(1, 600)), Some(At(1, 720)))
  {
  }

  // ----- "end after start" -----

  predicate TimesTaken(t: Times) {
    t.start.Some? && t.end.Some? ==> t.start.value < t.end.value
  }

  /** A request that has an end starts before it. */
  predicate EndsAfterStart(c: Terms) {
    c.eventEnd.Some? ==> WasTimes(c).start.Some? && WasTimes(c).start.value < c.eventEnd.value
  }

  /** The vendor sets an end on a start without a time of day, not after the moment it is scheduled for. */
  predicate EndsBeforeScheduled(c: Terms, d: Draft) {
    && TimeUnset(c)
    && SendsEnd(d, DraftFrom(c)) && StartSent(d, DraftFrom(c)).None?
    && EndMoment(d) <= c.scheduledAt.value
  }

  /** An end the vendor leaves to the API: it stays where it is, or keeps its distance from the start. */
  predicate EndFollows(c: Terms, d: Draft) {
    var sent := StartSent(d, DraftFrom(c));
    || c.eventEnd.None?
    || (if WasTimes(c).start.Some? then WasTimes(c).start.value < c.eventEnd.value
        else sent.None? || sent.value < c.eventEnd.value)
  }

  /** The API takes the times of a valid draft exactly when an end it sends, or else the end there was, is in order. */
  lemma ValidDraftTimesTaken(c: Terms, d: Draft, needsGuests: bool, customizations: seq<PackageOptions.Customization>)
    requires DraftValid(d, needsGuests, customizations)
    ensures TimesTaken(Proposed(c, Payload(d, DraftFrom(c), customizations)))
       <==> if SendsEnd(d, DraftFrom(c)) then !EndsBeforeScheduled(c, d) else EndFollows(c, d)
  {
    var body := Payload(d, DraftFrom(c), customizations);
    if body.eventEnd.Some? {
      EndSentAfterStart(d, DraftFrom(c), customizations);
      if body.eventStart.Some? || !TimeUnset(c) {
        assert Proposed(c, body) == Times(ShownStart(d), body.eventEnd);
      } else {
        assert Proposed(c, body) == Times(c.scheduledAt, Some(EndMoment(d)));
      }
    }
  }

  /** A draft with the request's own day, and the end at the moment it is scheduled for. */
  function EndedAsScheduled(c: Terms, d: Draft): Draft
    requires TimeUnset(c)
  {
    var day := Some(DateOf(c.scheduledAt.value));
    SetEnd(d.(date := day, start := None), day, Some(TimeOf(c.scheduledAt.value)))
  }

  lemma EndedAsScheduledIsRefused(c: Terms, d: Draft, needsGuests: bool, customizations: seq<PackageOptions.Customization>)
    requires DraftValid(d, needsGuests, customizations) && EndsAfterStart(c) && TimeUnset(c)
    ensures var e := EndedAsScheduled(c, d);
      DraftValid(e, needsGuests, customizations) && !TimesTaken(Proposed(c, Payload(e, DraftFrom(c), customizations)))
  {
    var e := EndedAsScheduled(c, d);
    ValidDraftTimesTaken(c, e, needsGuests, customizations);
    assert EndMoment(e) == c.scheduledAt.value;
  }

  /** A draft with its end emptied, on the request's own start, or the day after the end when there is none. */
  function EndEmptied(c: Terms, d: Draft): Draft
    requires c.eventEnd.Some?
  {
    var initial := DraftFrom(c);
    var started := if WasTimes(c).start.Some? then d.(date := initial.date, start := initial.start)
                   else d.(date := Some(DateOf(c.eventEnd.value) + 1), start := None);
    SetEnd(started, None, None)
  }

  lemma EndEmptiedIsRefused(c: Terms, d: Draft, needsGuests: bool, customizations: seq<PackageOptions.Customization>)
    requires DraftValid(d, needsGuests, customizations) && !EndsAfterStart(c)
    ensures var e := EndEmptied(c, d);
      DraftValid(e, needsGuests, customizations) && !TimesTaken(Proposed(c, Payload(e, DraftFrom(c), customizations)))
  {
    ValidDraftTimesTaken(c, EndEmptied(c, d), needsGuests, customizations);
  }

  /** So the editor's check is enough for every draft exactly when the request ends after it starts, at a time of day it gives. */
  lemma ValidDraftsAllTaken(c: Terms, some: Draft, needsGuests: bool, customizations: seq<PackageOptions.Customization>)
    requires DraftValid(some, needsGuests, customizations)
    ensures (forall d | DraftValid(d, needsGuests, customizations) :: TimesTaken(Proposed(c, Payload(d, DraftFrom(c), customizations))))
       <==> EndsAfterStart(c) && !TimeUnset(c)
  {
    if !EndsAfterStart(c) {
      EndEmptiedIsRefused(c, some, needsGuests, customizations);
    } else if TimeUnset(c) {
      EndedAsScheduledIsRefused(c, some, needsGuests, customizations);
    } else {
      forall d | DraftValid(d, needsGuests, customizations)
        ensures TimesTaken(Proposed(c, Payload(d, DraftFrom(c), customizations)))
      {
        ValidDraftTimesTaken(c, d, needsGuests, customizations);
      }
    }
  }

  /** An end the vendor set is the one the API proposes; if it is not sent, it and the start are the request's own. */
  lemma SetEndIsProposed(c: Terms, d: Draft, customizations: seq<PackageOptions.Customization>)
    requires d.endEdited && d.date.Some? && d.end.Some?
    ensures var initial := DraftFrom(c);
      var proposed := Proposed(c, Payload(d, initial, customizations)).end;
      if d.date == initial.date && d.start == initial.start && d.endDate == initial.endDate && d.end == initial.end
      then proposed == c.eventEnd == ShownEnd(d) else proposed == Some(EndMoment(d))
  {
    TimesSent(d, DraftFrom(c), customizations);
    DraftShows(c);
  }

  /** From 10:00 to 10:00: with the end emptied the editor has nothing to check, and the API refuses the end there was. */
  lemma NoLengthCanBeRefused()
    ensures var c := Terms(Some(600), Some(600), Some(600), None, [], [], None);
      var d := SetEnd(DraftFrom(c), Some(0), None);
      !TimeUnset(c) && DraftValid(d, false, []) && !TimesTaken(Proposed(c, Payload(d, DraftFrom(c), [])))
  {
  }

  /** Scheduled for 10 AM with no time of day: the editor lets the vendor end it at 9, and the API refuses. */
  lemma UnsetTimeCanBeRefused()
    ensures var c := Terms(Some(600), None, None, None, [], [], None);
      var d := SetEnd(DraftFrom(c), Some(0), Some(540));
      var times := Proposed(c, Payload(d, DraftFrom(c), []));
      DraftValid(d, false, []) && times.end == ShownEnd(d) && !TimesTaken(times)
  {
  }

  // ----- guests and travel fee -----

  const MAX_GUESTS := 100000.0

  predicate GuestsTaken(sent: Option<Option<real>>) {
    sent.Some? ==> IsInteger(sent.value) && 1.0 <= sent.value.value <= MAX_GUESTS
  }

  predicate TwoDecimals(x: real) {
    x * 100.0 == (x * 100.0).Floor as real
  }

  /** A fee that could not be read arrives as null, and counts as not sent. */
  predicate FeeTaken(c: Terms, sent: Option<Option<real>>) {
    sent.Some? && sent.value.Some? ==>
      var fee := sent.value.value;
      c.travel.Some? && TwoDecimals(fee) && 0.0 <= fee <= MAX_LINE_PRICE && WholeCents(fee)
  }

  function ProposedGuests(c: Terms, body: Body): Option<real> {
    if body.guests.Some? then body.guests.value
    else if c.guestCount.Some? then Some(c.guestCount.value as real) else None
  }

  function ProposedFee(c: Terms, body: Body): Option<real> {
    if body.travelFee.Some? && body.travelFee.value.Some? then Some(Round2(body.travelFee.value.value))
    else if c.travel.Some? then c.travel.value else None
  }

  /** From a valid draft: taken unless there are over 100,000 guests; a field emptied on screen changes nothing. */
  lemma GuestsProposed(c: Terms, d: Draft, needsGuests: bool, customizations: seq<PackageOptions.Customization>)
    requires DraftValid(d, needsGuests, customizations)
    ensures var body := Payload(d, DraftFrom(c), customizations);
      && (GuestsTaken(body.guests)
          <==> d.guests.Blank? || d.guests == DraftFrom(c).guests || NumberOf(d.guests).value <= MAX_GUESTS)
      && ProposedGuests(c, body) == (if !d.guests.Blank? then NumberOf(d.guests)
                                     else if c.guestCount.Some? then Some(c.guestCount.value as real) else None)
  {
  }

  /**
    From a valid draft: taken unless the fee has more than two decimals (the editor allows for a
    millionth of a cent), and then it is the fee on screen to the last digit: the API's rounding moves nothing.
   */
  lemma FeeProposed(c: Terms, d: Draft, needsGuests: bool, customizations: seq<PackageOptions.Customization>)
    requires DraftValid(d, needsGuests, customizations) && d.travelFee.Some? && c.travel.Some?
    ensures var body := Payload(d, DraftFrom(c), customizations);
      && (FeeTaken(c, body.travelFee)
          <==> Empty(d.travelFee.value) || d.travelFee == DraftFrom(c).travelFee || TwoDecimals(NumberOf(d.travelFee.value).value))
      && (FeeTaken(c, body.travelFee) ==>
            ProposedFee(c, body) == if Empty(d.travelFee.value) then c.travel.value else NumberOf(d.travelFee.value))
  {
    if !Empty(d.travelFee.value) && TwoDecimals(NumberOf(d.travelFee.value).value) {
      RoundTwoDecimals(NumberOf(d.travelFee.value).value);
    }
  }

  lemma RoundTwoDecimals(x: real)
    requires TwoDecimals(x)
    ensures Round2(x) == x
  {
    var k := (x * 100.0).Floor;
    assert x == k as real / 100.0;
    CentsOfDollars(k);
  }

  /** 100,001 guests, or a fee of $10.000000001: valid in the editor, refused by the API. */
  lemma GuestsAndFeeCanBeRefused()
    ensures var c := Terms(None, None, None, None, [], [], Some(None));
      var many, fee := DraftFrom(c).(guests := Shown(100001.0)), DraftFrom(c).(travelFee := Some(Shown(10.000000001)));
      && DraftValid(many, true, []) && !GuestsTaken(Payload(many, DraftFrom(c), []).guests)
      && DraftValid(fee, false, []) && !FeeTaken(c, Payload(fee, DraftFrom(c), []).travelFee)
  {
  }
}
