/**
  A vendor's weekly hours and the times they offer a customer (Front-End/lib/working-hours.ts).
  Times of day are minutes after midnight (24:00 is 1440), days are day numbers, moments are minutes
  on the absolute time line; a zone is a fixed number of minutes ahead of it.
 */
module WorkingHours {
  import opened Wrappers

  type Day = int
  type Moment = int

  const DAY := 1440

  datatype Opening = Opening(open: int, close: int)

  /** `known`: whether this device can convert moments into the zone. */
  datatype Zone = Zone(name: string, offset: int, known: bool)

  datatype Hours' = Hours(week: seq<Option<Opening>>, timezone: Option<Zone>)

  /** Seven days from Monday, opening times within a day, as the API checks them. */
  type Hours = h: Hours' |
    |h.week| == 7 && forall d | 0 <= d < 7 && h.week[d].Some? :: 0 <= h.week[d].value.open && h.week[d].value.close <= DAY
    witness Hours([None, None, None, None, None, None, None], None)

  /** The viewer's device: its zone's name, when it knows one, and where its wall clock is. */
  datatype Device = Device(zone: Option<string>, offset: int)

  /** Day 0 is a Thursday. */
  function Weekday(d: Day): nat {
    (d + 3) % 7
  }

  function OpeningOn(h: Hours, d: Day): Option<Opening> {
    h.week[Weekday(d)]
  }

  /** The zone to convert into; None when no conversion is needed. */
  function OtherZone(h: Hours, device: Device): Option<Zone> {
    if h.timezone.Some? && device.zone != Some(h.timezone.value.name) then h.timezone else None
  }

  /** `t` minutes into a day on the device's clock. */
  function LocalMoment(device: Device, date: Day, t: int): Moment {
    date * DAY + t - device.offset
  }

  datatype Parts = Parts(day: Day, minutes: int)

  function PartsIn(at: Moment, z: Zone): Option<Parts> {
    if z.known then Some(Parts((at + z.offset) / DAY, (at + z.offset) % DAY)) else None
  }

  /** Both ends are looked up day by day on the vendor's clock. None: no conversion into the zone. */
  function FitsIn(h: Hours, z: Zone, start: Moment, end: Option<Moment>): Option<bool> {
    match PartsIn(start, z)
    case None => None
    case Some(s) =>
      match OpeningOn(h, s.day)
      case None => Some(false)
      case Some(o) =>
        if s.minutes < o.open || s.minutes >= o.close then Some(false)
        else if end.Some? && end.value > start then
          match PartsIn(end.value, z)
          case None => None
          case Some(e) =>
            var sameDay := e.day == s.day && e.minutes <= o.close;
            var atMidnight := o.close == DAY && e.day == s.day + 1 && e.minutes == 0;
            Some(sameDay || atMidnight)
        else Some(true)
  }

  /** On the vendor's clock: a day whose opening holds the start, and the end up to closing. */
  ghost predicate InsideOpening(h: Hours, z: Zone, d: Day, start: Moment, end: Option<Moment>) {
    match OpeningOn(h, d)
    case None => false
    case Some(o) =>
      && d * DAY + o.open <= start + z.offset < d * DAY + o.close
      && (end.Some? && end.value > start ==> end.value + z.offset <= d * DAY + o.close)
  }

  /** The day-by-day test is containment in one opening interval on the time line. */
  lemma FitsIsContainment(h: Hours, z: Zone, start: Moment, end: Option<Moment>)
    requires z.known
    ensures FitsIn(h, z, start, end) == Some(exists d :: InsideOpening(h, z, d, start, end))
  {
    var s := PartsIn(start, z).value;
    forall d | InsideOpening(h, z, d, start, end) ensures d == s.day {
    }
    assert FitsIn(h, z, start, end).value <==> InsideOpening(h, z, s.day, start, end);
  }

  // ----- lists of times -----

  predicate Fits(h: Hours, z: Zone, trial: int -> (Moment, Moment), t: int) {
    var (start, end) := trial(t);
    FitsIn(h, z, start, Some(end)) == Some(true)
  }

  /** The times of a grid whose trial booking fits. */
  function Fitting(h: Hours, z: Zone, at: int, to: int, step: nat, trial: int -> (Moment, Moment)): seq<int>
    requires step > 0
    decreases if at > to then 0 else to - at + 1
  {
    if at > to then []
    else (if Fits(h, z, trial, at) then [at] else []) + Fitting(h, z, at + step, to, step, trial)
  }

  lemma FittingStep(h: Hours, z: Zone, at: int, to: int, step: nat, trial: int -> (Moment, Moment), out: seq<int>)
    requires step > 0 && at <= to
    ensures out + Fitting(h, z, at, to, step, trial)
         == (if Fits(h, z, trial, at) then out + [at] else out) + Fitting(h, z, at + step, to, step, trial)
  {
  }

  /** `from`, `from + step`, … up to `to`. */
  function Steps(at: int, to: int, step: nat): seq<int>
    requires step > 0
    decreases if at > to then 0 else to - at + 1
  {
    if at > to then [] else [at] + Steps(at + step, to, step)
  }

  function Converted(h: Hours, device: Device, at: int, to: int, step: nat, trial: int -> (Moment, Moment)): Option<seq<int>>
    requires step > 0
  {
    var z := OtherZone(h, device);
    if z.None? || (!z.value.known && at <= to) then None else Some(Fitting(h, z.value, at, to, step, trial))
  }

  method ConvertedTimes(h: Hours, device: Device, at: int, to: int, step: nat, trial: int -> (Moment, Moment))
    returns (times: Option<seq<int>>)
    requires step > 0
    ensures times == Converted(h, device, at, to, step, trial)
  {
    var tz := OtherZone(h, device);
    if tz.None? { return None; }
    var z := tz.value;
    var out: seq<int> := [];
    var m := at;
    while m <= to
      invariant z.known || m == at
      invariant out + Fitting(h, z, m, to, step, trial) == Fitting(h, z, at, to, step, trial)
    {
      var (start, end) := trial(m);
      var ok := FitsIn(h, z, start, Some(end));
      if ok.None? { return None; }
      FittingStep(h, z, m, to, step, trial, out);
      if ok.value { out := out + [m]; }
      m := m + step;
    }
    assert out == out + Fitting(h, z, m, to, step, trial);
    return Some(out);
  }

  function StartTrial(device: Device, date: Day, minMinutes: int): int -> (Moment, Moment) {
    (t: int) => (LocalMoment(device, date, t), LocalMoment(device, date, t) + minMinutes)
  }

  function EndTrial(device: Device, date: Day, start: int): int -> (Moment, Moment) {
    (t: int) => (LocalMoment(device, date, start), LocalMoment(device, date, t))
  }

  function LocalStarts(h: Hours, date: Day, step: nat, minMinutes: int): seq<int>
    requires step > 0
  {
    var o := OpeningOn(h, date);
    if o.None? then [] else Steps(o.value.open, o.value.close - minMinutes, step)
  }

  function StartTimes(h: Hours, device: Device, date: Day, step: nat, minMinutes: int): seq<int>
    requires step > 0
  {
    var converted := Converted(h, device, 0, DAY - step, step, StartTrial(device, date, minMinutes));
    if converted.Some? then converted.value else LocalStarts(h, date, step, minMinutes)
  }

  function EndTimes(h: Hours, device: Device, date: Day, start: int, step: nat): seq<int>
    requires step > 0
  {
    var converted := Converted(h, device, start + step, DAY, step, EndTrial(device, date, start));
    if converted.Some? then converted.value
    else
      var o := OpeningOn(h, date);
      if o.None? then [] else Steps(start + step, o.value.close, step)
  }

  method LocalLoop(at: int, to: int, step: nat) returns (out: seq<int>)
    requires step > 0
    ensures out == Steps(at, to, step)
  {
    out := [];
    var m := at;
    while m <= to
      invariant out + Steps(m, to, step) == Steps(at, to, step)
    {
      out := out + [m];
      m := m + step;
    }
  }

  /** None: any time will do, or there is no day yet to choose times for. */
  method StartTimesOn(hours: Option<Hours>, device: Device, date: Option<Day>, step: nat, minMinutes: int)
    returns (times: Option<seq<int>>)
    requires step > 0
    ensures times == if hours.None? || date.None? then None
                     else Some(StartTimes(hours.value, device, date.value, step, minMinutes))
  {
    if hours.None? || date.None? { return None; }
    var h := hours.value;
    times := ConvertedTimes(h, device, 0, DAY - step, step, StartTrial(device, date.value, minMinutes));
    if times.Some? { return; }
    var day := OpeningOn(h, date.value);
    if day.None? { return Some([]); }
    var out := LocalLoop(day.value.open, day.value.close - minMinutes, step);
    return Some(out);
  }

  method EndTimesOn(hours: Option<Hours>, device: Device, date: Option<Day>, start: Option<int>, step: nat)
    returns (times: Option<seq<int>>)
    requires step > 0
    ensures times == if hours.None? || date.None? then None
                     else if start.None? then Some([])
                     else Some(EndTimes(hours.value, device, date.value, start.value, step))
  {
    if hours.None? || date.None? { return None; }
    var h := hours.value;
    if start.Some? {
      times := ConvertedTimes(h, device, start.value + step, DAY, step, EndTrial(device, date.value, start.value));
      if times.Some? { return; }
    }
    var day := OpeningOn(h, date.value);
    if day.None? || start.None? { return Some([]); }
    var out := LocalLoop(start.value + step, day.value.close, step);
    return Some(out);
  }
}
