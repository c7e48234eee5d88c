/** Which days a calendar greys out (`isOpenDay` in Front-End/lib/working-hours.ts), and its memory of them. */
module OpenDays {
  import opened Wrappers
  import opened WorkingHours
  import opened HoursProofs

  const STEP := 30

  /** Worked out afresh. */
  predicate IsOpen(h: Hours, device: Device, date: Day) {
    if OtherZone(h, device).Some? then StartTimes(h, device, date, STEP, STEP) != []
    else OpeningOn(h, date).Some?
  }

  // ----- what the wall clock alone decides -----

  /** A device with a given wall clock and no zone of its own: it reads all hours that have a zone as another's. */
  function Clock(offset: int): Device {
    Device(None, offset)
  }

  lemma {:induction false} FittingByClock(h: Hours, z: Zone, a: Device, b: Device, date: Day, at: int, to: int, step: nat, minMinutes: int)
    requires step > 0 && a.offset == b.offset
    ensures Fitting(h, z, at, to, step, StartTrial(a, date, minMinutes)) == Fitting(h, z, at, to, step, StartTrial(b, date, minMinutes))
    decreases if at > to then 0 else to - at + 1
  {
    if at <= to { FittingByClock(h, z, a, b, date, at + step, to, step, minMinutes); }
  }

  /** Two devices that read hours as another zone's, with the same wall clock, offer the same starts. */
  lemma StartsByClock(h: Hours, a: Device, b: Device, date: Day, step: nat, minMinutes: int)
    requires step > 0 && a.offset == b.offset && OtherZone(h, a).Some? && OtherZone(h, b).Some?
    ensures StartTimes(h, a, date, step, minMinutes) == StartTimes(h, b, date, step, minMinutes)
  {
    FittingByClock(h, h.timezone.value, a, b, date, 0, DAY - step, step, minMinutes);
  }

  // ----- the memory -----

  type Key = (string, Day)
  type Memory = map<Hours, map<Key, bool>>

  predicate Remembered(m: Memory, h: Hours, key: Key) {
    h in m && key in m[h]
  }

  /** What a look at the memory answers: what it remembers, or else what this device works out. */
  function Answer(m: Memory, h: Hours, device: Device, date: Day): bool {
    var tz := OtherZone(h, device);
    if tz.Some? && Remembered(m, h, (tz.value.name, date)) then m[h][(tz.value.name, date)] else IsOpen(h, device, date)
  }

  function Learnt(m: Memory, h: Hours, device: Device, date: Day): Memory {
    var tz := OtherZone(h, device);
    if tz.None? then m
    else (if h in m then m else m[h := map[]])[h := (if h in m then m[h] else map[])[(tz.value.name, date) := Answer(m, h, device, date)]]
  }

  /** Everything remembered is what any device with this wall clock would work out now. */
  ghost predicate Agrees(m: Memory, offset: int) {
    forall h: Hours, date: Day :: h.timezone.Some? && Remembered(m, h, (h.timezone.value.name, date)) ==>
      m[h][(h.timezone.value.name, date)] == IsOpen(h, Clock(offset), date)
  }

  /** A memory that agrees with the wall clock answers as if afresh, whatever the device's zone is called, and goes on agreeing. */
  lemma AgreesIsFresh(m: Memory, h: Hours, device: Device, date: Day)
    requires Agrees(m, device.offset)
    ensures Answer(m, h, device, date) == IsOpen(h, device, date)
    ensures Agrees(Learnt(m, h, device, date), device.offset)
  {
    if OtherZone(h, device).Some? { StartsByClock(h, device, Clock(device.offset), date, STEP, STEP); }
  }

  class Calendar {
    var openDays: Memory

    constructor ()
      ensures openDays == map[]
    {
      openDays := map[];
    }

    method IsOpenDay(hours: Option<Hours>, device: Device, date: Day) returns (open: bool)
      modifies this
      ensures hours.None? ==> open && openDays == old(openDays)
      ensures hours.Some? ==> open == Answer(old(openDays), hours.value, device, date)
      ensures hours.Some? ==> openDays == Learnt(old(openDays), hours.value, device, date)
      ensures old(Agrees(openDays, device.offset)) ==>
                Agrees(openDays, device.offset) && open == (hours.None? || IsOpen(hours.value, device, date))
    {
      if hours.None? { return true; }
      var h := hours.value;
      var tz := OtherZone(h, device);
      ghost var before := openDays;
      if Agrees(before, device.offset) { AgreesIsFresh(before, h, device, date); }
      if tz.Some? {
        if h !in openDays { openDays := openDays[h := map[]]; }
        var key := (tz.value.name, date);
        if key !in openDays[h] {
          var times := StartTimesOn(hours, device, Some(date), STEP, STEP);
          if times.Some? { openDays := openDays[h := openDays[h][key := |times.value| > 0]]; }
        }
        if key in openDays[h] {
          assert openDays[h] == (if h in before then before[h] else map[])[key := openDays[h][key]];
          return openDays[h][key];
        }
      }
      return OpeningOn(h, date).Some?;
    }
  }

  datatype Query = Query(hours: Option<Hours>, device: Device, date: Day)

  /** Any list of questions is answered as if nothing had been remembered, as long as the wall clock stays where it is. */
  method AskAll(c: Calendar, offset: int, qs: seq<Query>) returns (answers: seq<bool>)
    requires Agrees(c.openDays, offset)
    requires forall q | q in qs :: q.device.offset == offset
    modifies c
    ensures Agrees(c.openDays, offset) && |answers| == |qs|
    ensures forall i | 0 <= i < |qs| ::
              answers[i] == (qs[i].hours.None? || IsOpen(qs[i].hours.value, qs[i].device, qs[i].date))
  {
    answers := [];
    for k := 0 to |qs|
      invariant Agrees(c.openDays, offset) && |answers| == k
      invariant forall i | 0 <= i < k ::
                  answers[i] == (qs[i].hours.None? || IsOpen(qs[i].hours.value, qs[i].device, qs[i].date))
    {
      assert qs[k] in qs;
      var open := c.IsOpenDay(qs[k].hours, qs[k].device, qs[k].date);
      answers := answers + [open];
    }
  }

  /** A day greyed out has no start to offer; a day left open has one, unless an opening shorter than a step is read as it is. */
  lemma GreyMeansNothingFits(h: Hours, device: Device, date: Day)
    ensures !IsOpen(h, device, date) ==> StartTimes(h, device, date, STEP, STEP) == []
    ensures IsOpen(h, device, date) ==>
      (StartTimes(h, device, date, STEP, STEP) != []
       <==> OtherZone(h, device).Some? || OpeningOn(h, date).value.open + STEP <= OpeningOn(h, date).value.close)
  {
    var o := OpeningOn(h, date);
    if o.Some? {
      StepsAre(o.value.open, o.value.close - STEP, STEP);
    }
  }

  /** Hours from 9:00 to 9:15 on the device's own clock: the day is open, and has no start. */
  lemma ShortOpeningHasNoStart(device: Device)
    ensures var h := Hours([Some(Opening(540, 555)), None, None, None, None, None, None], None);
      IsOpen(h, device, MONDAY) && StartTimes(h, device, MONDAY, STEP, STEP) == []
  {
  }

  // ----- when the wall clock changes -----

  const MONDAY: Day := 4

  /** Six days. Wall clocks on earth are never much more than one apart. */
  const APART := 8640

  /** Open for half an hour on Mondays from midnight, in a zone `offset` ahead. */
  function HalfHour(name: string, offset: int): Hours {
    Hours([Some(Opening(0, STEP)), None, None, None, None, None, None], Some(Zone(name, offset, true)))
  }

  lemma OpenWhereItIs(name: string, device: Device)
    requires device.zone != Some(name)
    ensures IsOpen(HalfHour(name, device.offset), device, MONDAY)
  {
    var h := HalfHour(name, device.offset);
    var start := LocalMoment(device, MONDAY, 0);
    ConvertedStartsAreExact(h, device, MONDAY, STEP, STEP, 0);
    assert InsideOpening(h, h.timezone.value, MONDAY, start, Some(start + STEP));
    assert OnGrid(0, 0, STEP);
    assert 0 in StartTimes(h, device, MONDAY, STEP, STEP);
  }

  lemma NothingFitsBehind(name: string, ahead: int, device: Device, t: int, d: Day)
    requires device.offset < ahead <= device.offset + APART && 0 <= t < DAY
    ensures var h := HalfHour(name, ahead);
      var start := LocalMoment(device, MONDAY, t);
      !InsideOpening(h, h.timezone.value, d, start, Some(start + STEP))
  {
    assert Weekday(d) == 0 ==> d <= MONDAY - 7 || d == MONDAY || d >= MONDAY + 7;
  }

  lemma ClosedBehind(name: string, ahead: int, device: Device)
    requires device.zone != Some(name) && device.offset < ahead <= device.offset + APART
    ensures !IsOpen(HalfHour(name, ahead), device, MONDAY)
  {
    var h := HalfHour(name, ahead);
    var times := StartTimes(h, device, MONDAY, STEP, STEP);
    if times != [] {
      var t := times[0];
      var start := LocalMoment(device, MONDAY, t);
      ConvertedStartsAreExact(h, device, MONDAY, STEP, STEP, t);
      var z, end := h.timezone.value, Some(start + STEP);
      forall d ensures !InsideOpening(h, z, d, start, end) {
        NothingFitsBehind(name, ahead, device, t, d);
      }
    }
  }

  /** What one device remembers is right for another, about all hours of other zones, exactly when their clocks agree. */
  lemma MemoryIsSharedByClock(a: Device, b: Device)
    requires -APART <= a.offset - b.offset <= APART
    ensures (forall h, date | OtherZone(h, a).Some? && OtherZone(h, b).Some? :: IsOpen(h, a, date) == IsOpen(h, b, date))
       <==> a.offset == b.offset
  {
    if a.offset == b.offset {
      forall h, date | OtherZone(h, a).Some? && OtherZone(h, b).Some? ensures IsOpen(h, a, date) == IsOpen(h, b, date) {
        StartsByClock(h, a, b, date, STEP, STEP);
      }
    } else {
      var name := NewName(a, b);
      var (ahead, behind) := if a.offset > b.offset then (a, b) else (b, a);
      OpenWhereItIs(name, ahead);
      ClosedBehind(name, ahead.offset, behind);
      assert OtherZone(HalfHour(name, ahead.offset), a).Some? && OtherZone(HalfHour(name, ahead.offset), b).Some?;
    }
  }

  /** A zone neither device is in. */
  function NewName(a: Device, b: Device): (name: string)
    ensures a.zone != Some(name) && b.zone != Some(name)
  {
    var elsewhere := (name: string) => a.zone != Some(name) && b.zone != Some(name);
    if elsewhere("A") then "A" else if elsewhere("B") then "B" else "C"
  }

  /** A page that lives through a move to another clock repeats the answer of the place it left. */
  method StaleAfterTravel(home: Device, away: Device) returns (h: Hours, there: bool, here: bool)
    requires home.offset != away.offset && -APART <= home.offset - away.offset <= APART
    ensures there == here == IsOpen(h, home, MONDAY) && here != IsOpen(h, away, MONDAY)
  {
    var name := NewName(home, away);
    var (ahead, behind) := if home.offset > away.offset then (home, away) else (away, home);
    h := HalfHour(name, ahead.offset);
    OpenWhereItIs(name, ahead);
    ClosedBehind(name, ahead.offset, behind);
    var c := new Calendar();
    there := c.IsOpenDay(Some(h), home, MONDAY);
    here := c.IsOpenDay(Some(h), away, MONDAY);
  }
}
