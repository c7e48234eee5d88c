/** What the offered times promise, and when the two ways of computing them agree. */
module HoursProofs {
  import opened Wrappers
  import opened Arithmetic
  import opened WorkingHours

  ghost predicate Increasing(ts: seq<int>) {
    forall i, j | 0 <= i < j < |ts| :: ts[i] < ts[j]
  }

  /** On the grid that starts at `at`. */
  predicate OnGrid(t: int, at: int, step: nat)
    requires step > 0
  {
    at <= t && (t - at) % step == 0
  }

  lemma NextOnGrid(t: int, at: int, step: nat)
    requires step > 0
    ensures OnGrid(t, at, step) <==> t == at || OnGrid(t, at + step, step)
  {
    if t >= at + step {
      assert (t - at) % step == (t - (at + step)) % step by { ModStep(t - (at + step), step); }
    } else if t >= at {
      assert 0 <= t - at < step;
    }
  }

  lemma ModStep(x: int, step: nat)
    requires step > 0
    ensures (x + step) % step == x % step
  {
    var q, r := x / step, x % step;
    assert x + step == (q + 1) * step + r;
    RemainderIs(x + step, q + 1, r, step);
  }

  lemma Prepend(t: int, ts: seq<int>)
    requires Increasing(ts) && forall u | u in ts :: t < u
    ensures Increasing([t] + ts)
  {
    forall i, j | 0 <= i < j < |[t] + ts| ensures ([t] + ts)[i] < ([t] + ts)[j] {
      assert ts[j - 1] in ts;
    }
  }

  lemma {:induction false} StepsAre(at: int, to: int, step: nat)
    requires step > 0
    ensures Increasing(Steps(at, to, step))
    ensures forall t :: t in Steps(at, to, step) <==> OnGrid(t, at, step) && t <= to
    decreases if at > to then 0 else to - at + 1
  {
    if at <= to {
      StepsAre(at + step, to, step);
      Prepend(at, Steps(at + step, to, step));
      forall t ensures t in Steps(at, to, step) <==> OnGrid(t, at, step) && t <= to {
        NextOnGrid(t, at, step);
      }
    }
  }

  lemma {:induction false} FittingAre(h: Hours, z: Zone, at: int, to: int, step: nat, trial: int -> (Moment, Moment))
    requires step > 0
    ensures Increasing(Fitting(h, z, at, to, step, trial))
    ensures forall t :: t in Fitting(h, z, at, to, step, trial) <==> OnGrid(t, at, step) && t <= to && Fits(h, z, trial, t)
    decreases if at > to then 0 else to - at + 1
  {
    if at <= to {
      var rest := Fitting(h, z, at + step, to, step, trial);
      FittingAre(h, z, at + step, to, step, trial);
      Prepend(at, rest);
      assert Fitting(h, z, at, to, step, trial) == if Fits(h, z, trial, at) then [at] + rest else rest;
      forall t
        ensures t in Fitting(h, z, at, to, step, trial) <==> OnGrid(t, at, step) && t <= to && Fits(h, z, trial, t)
      {
        NextOnGrid(t, at, step);
      }
    }
  }

  /** The converting path offers exactly the grid times whose booking lies in one of the vendor's openings. */
  lemma ConvertedStartsAreExact(h: Hours, device: Device, date: Day, step: nat, minMinutes: int, t: int)
    requires step > 0 && OtherZone(h, device).Some? && OtherZone(h, device).value.known
    ensures var z := OtherZone(h, device).value;
      var start := LocalMoment(device, date, t);
      var end := Some(start + minMinutes);
      t in StartTimes(h, device, date, step, minMinutes)
      <==> OnGrid(t, 0, step) && t + step <= DAY && exists d :: InsideOpening(h, z, d, start, end)
  {
    var z := OtherZone(h, device).value;
    var start := LocalMoment(device, date, t);
    FittingAre(h, z, 0, DAY - step, step, StartTrial(device, date, minMinutes));
    FitsIsContainment(h, z, start, Some(start + minMinutes));
  }

  /** The ends offered for a start are exactly those later on the grid, up to midnight, that keep it in an opening. */
  lemma ConvertedEndsAreExact(h: Hours, device: Device, date: Day, start: int, step: nat, t: int)
    requires step > 0 && OtherZone(h, device).Some? && OtherZone(h, device).value.known
    ensures var z := OtherZone(h, device).value;
      var end := Some(LocalMoment(device, date, t));
      t in EndTimes(h, device, date, start, step)
      <==> OnGrid(t, start + step, step) && t <= DAY && exists d :: InsideOpening(h, z, d, LocalMoment(device, date, start), end)
  {
    var z := OtherZone(h, device).value;
    FittingAre(h, z, start + step, DAY, step, EndTrial(device, date, start));
    FitsIsContainment(h, z, LocalMoment(device, date, start), Some(LocalMoment(device, date, t)));
  }

  /** Nothing to convert, or no way to: the day's own opening is used. */
  predicate LocalHours(h: Hours, device: Device) {
    OtherZone(h, device).None? || !OtherZone(h, device).value.known
  }

  /** On the local path a start is offered exactly on the grid from opening, when the shortest booking ends by closing. */
  lemma LocalStartsAreExact(h: Hours, device: Device, date: Day, step: nat, minMinutes: int, t: int)
    requires 0 < step <= DAY && LocalHours(h, device)
    ensures t in StartTimes(h, device, date, step, minMinutes)
       <==> OpeningOn(h, date).Some? && OnGrid(t, OpeningOn(h, date).value.open, step) && t + minMinutes <= OpeningOn(h, date).value.close
  {
    var o := OpeningOn(h, date);
    if o.Some? { StepsAre(o.value.open, o.value.close - minMinutes, step); }
  }

  /** On the local path an end is offered exactly on the grid after the start, up to closing. */
  lemma LocalEndsAreExact(h: Hours, device: Device, date: Day, start: int, step: nat, t: int)
    requires step > 0 && LocalHours(h, device) && start + step <= DAY
    ensures t in EndTimes(h, device, date, start, step)
       <==> OpeningOn(h, date).Some? && OnGrid(t, start + step, step) && t <= OpeningOn(h, date).value.close
  {
    var o := OpeningOn(h, date);
    if o.Some? { StepsAre(start + step, o.value.close, step); }
  }

  /** Whichever path: times come in order, none twice. */
  lemma TimesIncrease(h: Hours, device: Device, date: Day, start: int, step: nat, minMinutes: int)
    requires step > 0
    ensures Increasing(StartTimes(h, device, date, step, minMinutes)) && Increasing(EndTimes(h, device, date, start, step))
  {
    var z, o := OtherZone(h, device), OpeningOn(h, date);
    if z.Some? {
      FittingAre(h, z.value, 0, DAY - step, step, StartTrial(device, date, minMinutes));
      FittingAre(h, z.value, start + step, DAY, step, EndTrial(device, date, start));
    }
    if o.Some? {
      StepsAre(o.value.open, o.value.close - minMinutes, step);
      StepsAre(start + step, o.value.close, step);
    }
  }

  lemma {:induction false} SameMembers(a: seq<int>, b: seq<int>)
    requires Increasing(a) && Increasing(b) && forall t :: t in a <==> t in b
    ensures a == b
  {
    assert b != [] ==> b[0] in b;
    if a != [] {
      assert a[0] in a && a[0] in b;
      assert b[0] in b && b[0] in a;
      assert a[0] == b[0];
      forall t ensures t in a[1..] <==> t in b[1..] {
        assert t in a[1..] <==> t in a && t != a[0];
        assert t in b[1..] <==> t in b && t != b[0];
      }
      SameMembers(a[1..], b[1..]);
    }
  }

  /** The device's own clock under another name: conversion changes nothing. */
  predicate SameClock(h: Hours, device: Device) {
    OtherZone(h, device).Some? && OtherZone(h, device).value.known && OtherZone(h, device).value.offset == device.offset
  }

  lemma SameClockFits(h: Hours, device: Device, date: Day, minMinutes: int, t: int)
    requires SameClock(h, device) && 0 <= t < DAY && minMinutes > 0
    ensures Fits(h, OtherZone(h, device).value, StartTrial(device, date, minMinutes), t)
       <==> OpeningOn(h, date).Some? && OpeningOn(h, date).value.open <= t && t + minMinutes <= OpeningOn(h, date).value.close
  {
    var z := OtherZone(h, device).value;
    var start := LocalMoment(device, date, t);
    assert start + z.offset == date * DAY + t;
    var end := Some(start + minMinutes);
    FitsIsContainment(h, z, start, end);
    forall d | InsideOpening(h, z, d, start, end) ensures d == date {
    }
    assert InsideOpening(h, z, date, start, end) <==>
      OpeningOn(h, date).Some? && OpeningOn(h, date).value.open <= t && t + minMinutes <= OpeningOn(h, date).value.close;
  }

  /** On one clock, with opening on the grid, the converting path and the plain loop give one list. */
  lemma PathsAgree(h: Hours, device: Device, date: Day, step: nat, minMinutes: int)
    requires SameClock(h, device) && 0 < step <= minMinutes
    requires OpeningOn(h, date).Some? ==> OpeningOn(h, date).value.open % step == 0
    ensures StartTimes(h, device, date, step, minMinutes) == LocalStarts(h, date, step, minMinutes)
  {
    var z := OtherZone(h, device).value;
    var trial := StartTrial(device, date, minMinutes);
    var a, b := StartTimes(h, device, date, step, minMinutes), LocalStarts(h, date, step, minMinutes);
    FittingAre(h, z, 0, DAY - step, step, trial);
    var o := OpeningOn(h, date);
    if o.Some? { StepsAre(o.value.open, o.value.close - minMinutes, step); }
    forall t ensures t in a <==> t in b {
      if 0 <= t < DAY { SameClockFits(h, device, date, minMinutes, t); }
      if o.Some? && o.value.open <= t {
        SameResidue(t, o.value.open, step);
      }
    }
    SameMembers(a, b);
  }

  lemma SameClockEndFits(h: Hours, device: Device, date: Day, start: int, t: int)
    requires SameClock(h, device) && OpeningOn(h, date).Some? && start < t
    requires OpeningOn(h, date).value.open <= start < OpeningOn(h, date).value.close
    ensures Fits(h, OtherZone(h, device).value, EndTrial(device, date, start), t) <==> t <= OpeningOn(h, date).value.close
  {
    var z := OtherZone(h, device).value;
    var from, to := LocalMoment(device, date, start), Some(LocalMoment(device, date, t));
    assert from + z.offset == date * DAY + start;
    FitsIsContainment(h, z, from, to);
    forall d | InsideOpening(h, z, d, from, to) ensures d == date {
    }
    assert InsideOpening(h, z, date, from, to) <==> t <= OpeningOn(h, date).value.close;
  }

  /** On one clock, for a start inside the day's opening, both paths give the same ends. */
  lemma EndPathsAgree(h: Hours, device: Device, date: Day, start: int, step: nat)
    requires SameClock(h, device) && step > 0 && OpeningOn(h, date).Some?
    requires OpeningOn(h, date).value.open <= start < OpeningOn(h, date).value.close
    ensures EndTimes(h, device, date, start, step) == Steps(start + step, OpeningOn(h, date).value.close, step)
  {
    var z, close := OtherZone(h, device).value, OpeningOn(h, date).value.close;
    FittingAre(h, z, start + step, DAY, step, EndTrial(device, date, start));
    StepsAre(start + step, close, step);
    var a, b := EndTimes(h, device, date, start, step), Steps(start + step, close, step);
    forall t ensures t in a <==> t in b {
      if start < t { SameClockEndFits(h, device, date, start, t); }
    }
    SameMembers(a, b);
  }

  lemma SameResidue(t: int, open: int, step: nat)
    requires step > 0 && open % step == 0
    ensures (t - open) % step == t % step
  {
    var q, r := t / step, t % step;
    var p := open / step;
    assert open == p * step;
    assert t - open == (q - p) * step + r;
    RemainderIs(t - open, q - p, r, step);
  }

  lemma FittingStartHasEnd(h: Hours, z: Zone, device: Device, date: Day, step: nat, t: int)
    requires step > 0 && t in Fitting(h, z, 0, DAY - step, step, StartTrial(device, date, step))
    ensures t + step in Fitting(h, z, t + step, DAY, step, EndTrial(device, date, t))
  {
    FittingAre(h, z, 0, DAY - step, step, StartTrial(device, date, step));
    FittingAre(h, z, t + step, DAY, step, EndTrial(device, date, t));
    assert Fits(h, z, StartTrial(device, date, step), t) ==> Fits(h, z, EndTrial(device, date, t), t + step);
  }

  /** Every start offered with the default minimum has an end: one step later, at least. */
  lemma EveryStartHasAnEnd(h: Hours, device: Device, date: Day, step: nat, t: int)
    requires step > 0 && t in StartTimes(h, device, date, step, step)
    ensures t + step in EndTimes(h, device, date, t, step)
  {
    var z := OtherZone(h, device);
    if Converted(h, device, 0, DAY - step, step, StartTrial(device, date, step)).Some? {
      FittingStartHasEnd(h, z.value, device, date, step, t);
    } else {
      var o := OpeningOn(h, date).value;
      StepsAre(o.open, o.close - step, step);
      StepsAre(t + step, o.close, step);
    }
  }
}
