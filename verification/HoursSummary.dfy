/** A week of hours in one line, equal neighbouring days joined (`summariseHours` in Front-End/lib/working-hours.ts). */
module HoursSummary {
  import opened Wrappers
  import opened WorkingHours

  // ----- how times are written -----

  function Digit(n: int): (c: char)
    requires 0 <= n < 10
    ensures '0' <= c <= '9'
  {
    "0123456789"[n]
  }

  function TwoDigits(n: int): string
    requires 0 <= n < 100
  {
    [Digit(n / 10), Digit(n % 10)]
  }

  /** The hour on a twelve hour clock, without a leading zero. */
  function Hour(h: int): string {
    var h12 := if h % 12 == 0 then 12 else h % 12;
    if h12 < 10 then [Digit(h12)] else TwoDigits(h12)
  }

  function Minutes(t: int): string {
    if t % 60 == 0 then "" else ":" + TwoDigits(t % 60)
  }

  function HalfDay(t: int): string {
    if t / 60 < 12 then "am" else "pm"
  }

  /** "9am", "5:30pm", "midnight". */
  function FormatTime(t: int): string {
    var h := t / 60;
    if h == 24 then "midnight"
    else Hour(h) + Minutes(t) + HalfDay(t)
  }

  predicate TimeOfDay(t: int) {
    0 <= t <= DAY
  }

  // ----- and read back -----

  function Value(c: char): int {
    c as int - '0' as int
  }

  /** What somebody reads on a twelve hour clock: 12 comes before 1, "pm" adds half a day, and there is no hour 0 or 13. */
  function ReadTime(s: string): Option<int> {
    if s == "midnight" then Some(DAY)
    else if |s| < 3 then None
    else
      var n := |s|;
      var hour := if n == 3 || n == 6 then Value(s[0]) else Value(s[0]) * 10 + Value(s[1]);
      var minute := if n >= 6 then Value(s[n - 4]) * 10 + Value(s[n - 3]) else 0;
      if 1 <= hour <= 12 then Some((hour % 12 + if s[n - 2] == 'p' then 12 else 0) * 60 + minute) else None
  }

  lemma ReadsMinutes(hour: string, t: int)
    requires 0 <= t < DAY
    ensures var s := hour + Minutes(t) + HalfDay(t);
      && |s| == |hour| + (if t % 60 == 0 then 2 else 5)
      && (t % 60 != 0 ==> Value(s[|s| - 4]) * 10 + Value(s[|s| - 3]) == t % 60)
      && (s[|s| - 2] == 'p' <==> t / 60 >= 12)
  {
    var s := hour + Minutes(t) + HalfDay(t);
    assert s[|s| - 2] == HalfDay(t)[0];
    if t % 60 != 0 {
      assert s[|s| - 4] == Minutes(t)[1] && s[|s| - 3] == Minutes(t)[2];
    }
  }

  lemma ReadsHour(h: int, rest: string)
    requires 0 <= h < 24
    ensures var s := Hour(h) + rest;
      && 1 <= |Hour(h)| <= 2
      && (var hour := if |Hour(h)| == 1 then Value(s[0]) else Value(s[0]) * 10 + Value(s[1]); 1 <= hour <= 12 && hour % 12 == h % 12)
  {
    var s := Hour(h) + rest;
    assert s[0] == Hour(h)[0] && (|Hour(h)| == 2 ==> s[1] == Hour(h)[1]);
  }

  lemma ReadTimeIs(s: string, h: int, m: int)
    requires 3 <= |s| < 8 && 0 <= h < 24 && 0 <= m < 60
    requires var hour := if |s| == 3 || |s| == 6 then Value(s[0]) else Value(s[0]) * 10 + Value(s[1]); 1 <= hour <= 12 && hour % 12 == h % 12
    requires m == if |s| >= 6 then Value(s[|s| - 4]) * 10 + Value(s[|s| - 3]) else 0
    requires s[|s| - 2] == 'p' <==> h >= 12
    ensures ReadTime(s) == Some(h * 60 + m)
  {
    assert |"midnight"| == 8;
  }

  lemma ReadsBackInDay(t: int)
    requires 0 <= t < DAY
    ensures ReadTime(Hour(t / 60) + Minutes(t) + HalfDay(t)) == Some(t)
  {
    var h := t / 60;
    var s := Hour(h) + Minutes(t) + HalfDay(t);
    ReadsMinutes(Hour(h), t);
    ReadsHour(h, Minutes(t) + HalfDay(t));
    assert s == Hour(h) + (Minutes(t) + HalfDay(t));
    ReadTimeIs(s, h, t % 60);
  }

  /** Every time of day is written so that it reads back as itself, midnight at the end of the day included. */
  lemma FormatTimeReadsBack(t: int)
    requires TimeOfDay(t)
    ensures ReadTime(FormatTime(t)) == Some(t)
  {
    if t < DAY { ReadsBackInDay(t); }
  }

  /** So no two times of a day are written alike. */
  lemma FormatTimeInjective(s: int, t: int)
    requires TimeOfDay(s) && TimeOfDay(t) && FormatTime(s) == FormatTime(t)
    ensures s == t
  {
    FormatTimeReadsBack(s);
    FormatTimeReadsBack(t);
  }

  const DASH := '\U{2013}'

  /** Opening to closing; nothing for a day that is closed. */
  function LabelOf(o: Option<Opening>): string {
    if o.Some? then FormatTime(o.value.open) + [DASH] + FormatTime(o.value.close) else ""
  }

  lemma NoDashInTime(t: int)
    ensures DASH !in FormatTime(t)
  {
    assert DASH !in Hour(t / 60);
    assert DASH !in Minutes(t);
    assert DASH !in HalfDay(t);
  }

  /** What comes before a character that is in neither text is told by it. */
  lemma SplitAt(a: string, b: string, c: string, d: string, mark: char)
    requires a + [mark] + b == c + [mark] + d && mark !in a && mark !in c
    ensures a == c && b == d
  {
    var left, right := a + [mark] + b, c + [mark] + d;
    assert left[|a|] == mark && right[|c|] == mark;
    assert forall k | 0 <= k < |a| :: left[k] == a[k];
    assert forall k | 0 <= k < |c| :: right[k] == c[k];
    assert |a| == |c|;
    assert left[..|a|] == a && right[..|c|] == c;
    assert left[|a| + 1..] == b && right[|c| + 1..] == d;
  }

  predicate WithinDay(o: Option<Opening>) {
    o.Some? ==> TimeOfDay(o.value.open) && TimeOfDay(o.value.close)
  }

  lemma OpenHasLabel(o: Option<Opening>)
    ensures LabelOf(o) != "" <==> o.Some?
  {
    if o.Some? { assert DASH in LabelOf(o); }
  }

  /** A label tells the hours. */
  lemma LabelTellsHours(o: Option<Opening>, p: Option<Opening>)
    requires WithinDay(o) && WithinDay(p) && LabelOf(o) == LabelOf(p)
    ensures o == p
  {
    OpenHasLabel(o);
    OpenHasLabel(p);
    if o.Some? {
      NoDashInTime(o.value.open);
      NoDashInTime(p.value.open);
      SplitAt(FormatTime(o.value.open), FormatTime(o.value.close), FormatTime(p.value.open), FormatTime(p.value.close), DASH);
      FormatTimeInjective(o.value.open, p.value.open);
      FormatTimeInjective(o.value.close, p.value.close);
    }
  }

  /** A label reads back: opening before the dash, closing after it. */
  lemma LabelReadsBack(o: Opening)
    requires WithinDay(Some(o))
    ensures var text := LabelOf(Some(o));
      exists k :: 0 <= k < |text| && text[k] == DASH
        && ReadTime(text[..k]) == Some(o.open) && ReadTime(text[k + 1..]) == Some(o.close)
  {
    var text, k := LabelOf(Some(o)), |FormatTime(o.open)|;
    FormatTimeReadsBack(o.open);
    FormatTimeReadsBack(o.close);
    assert text[..k] == FormatTime(o.open) && text[k + 1..] == FormatTime(o.close);
  }

  // ----- the groups -----

  datatype Group = Group(first: int, last: int, text: string)

  function Labels(days: seq<Option<Opening>>): seq<string> {
    seq(|days|, k requires 0 <= k < |days| => LabelOf(days[k]))
  }

  /** Consecutive, disjoint, in order, covering the first `n` days, each with its label, neighbours differing. */
  ghost predicate Summarises(groups: seq<Group>, labels: seq<string>, n: nat)
    requires n <= |labels|
  {
    && (|groups| == 0 <==> n == 0)
    && (|groups| > 0 ==> groups[0].first == 0 && groups[|groups| - 1].last == n - 1)
    && (forall k | 0 <= k < |groups| :: 0 <= groups[k].first <= groups[k].last < n)
    && (forall k | 0 < k < |groups| ::
          groups[k].first == groups[k - 1].last + 1 && groups[k].text != groups[k - 1].text)
    && (forall k, d | 0 <= k < |groups| && groups[k].first <= d <= groups[k].last :: labels[d] == groups[k].text)
  }

  lemma DayJoins(groups: seq<Group>, labels: seq<string>, i: nat)
    requires i < |labels| && Summarises(groups, labels, i)
    requires |groups| > 0 && groups[|groups| - 1].text == labels[i]
    ensures Summarises(groups[|groups| - 1 := groups[|groups| - 1].(last := i)], labels, i + 1)
  {
  }

  lemma DayStarts(groups: seq<Group>, labels: seq<string>, i: nat)
    requires i < |labels| && Summarises(groups, labels, i)
    requires |groups| > 0 ==> groups[|groups| - 1].text != labels[i]
    ensures Summarises(groups + [Group(i, i, labels[i])], labels, i + 1)
  {
  }

  method GroupDays(days: seq<Option<Opening>>) returns (groups: seq<Group>)
    ensures Summarises(groups, Labels(days), |days|)
  {
    groups := [];
    for i := 0 to |days|
      invariant Summarises(groups, Labels(days), i)
    {
      var text := LabelOf(days[i]);
      var n := |groups|;
      if n > 0 && groups[n - 1].text == text && groups[n - 1].last == i - 1 {
        DayJoins(groups, Labels(days), i);
        groups := groups[n - 1 := groups[n - 1].(last := i)];
      } else {
        DayStarts(groups, Labels(days), i);
        groups := groups + [Group(i, i, text)];
      }
    }
  }

  /** The groups that are shown. */
  function Shown(groups: seq<Group>): seq<Group> {
    if groups == [] then []
    else Shown(groups[..|groups| - 1]) + if groups[|groups| - 1].text != "" then [groups[|groups| - 1]] else []
  }

  method SummariseHours(hours: Option<Hours>) returns (summary: Option<seq<Group>>)
    ensures summary.None? <==> hours.None?
    ensures hours.Some? ==> exists groups :: Summarises(groups, Labels(hours.value.week), 7) && summary.value == Shown(groups)
  {
    if hours.None? { return None; }
    var groups := GroupDays(hours.value.week);
    return Some(Shown(groups));
  }

  lemma {:induction false} ShownAreOpen(groups: seq<Group>)
    ensures forall g :: g in Shown(groups) <==> g in groups && g.text != ""
  {
    if groups != [] {
      var init := groups[..|groups| - 1];
      ShownAreOpen(init);
      assert groups == init + [groups[|groups| - 1]];
    }
  }

  /** They are shown in the order of the week. */
  lemma ShownInOrder(groups: seq<Group>, labels: seq<string>)
    requires Summarises(groups, labels, |labels|)
    ensures forall i, j | 0 <= i < j < |Shown(groups)| :: Shown(groups)[i].last < Shown(groups)[j].first
  {
    GroupsAscend(groups, labels);
    AscendingShown(groups);
  }

  ghost predicate Ascending(groups: seq<Group>) {
    forall i, j | 0 <= i < j < |groups| :: groups[i].last < groups[j].first
  }

  lemma {:induction false} BeforeLater(groups: seq<Group>, labels: seq<string>, i: nat, j: nat)
    requires Summarises(groups, labels, |labels|) && i < j < |groups|
    ensures groups[i].last < groups[j].first
    decreases j
  {
    if i < j - 1 { BeforeLater(groups, labels, i, j - 1); }
  }

  lemma GroupsAscend(groups: seq<Group>, labels: seq<string>)
    requires Summarises(groups, labels, |labels|)
    ensures Ascending(groups)
  {
    forall i, j | 0 <= i < j < |groups| ensures groups[i].last < groups[j].first {
      BeforeLater(groups, labels, i, j);
    }
  }

  lemma {:induction false} AscendingShown(groups: seq<Group>)
    requires Ascending(groups)
    ensures Ascending(Shown(groups))
  {
    if groups != [] {
      var init := groups[..|groups| - 1];
      AscendingShown(init);
      ShownAreOpen(init);
      assert forall k | 0 <= k < |Shown(init)| :: Shown(init)[k] in init;
    }
  }

  lemma {:induction false} DayHasGroup(groups: seq<Group>, labels: seq<string>, d: nat, k: nat)
    requires Summarises(groups, labels, |labels|) && k < |groups| && d <= groups[k].last
    ensures exists j :: 0 <= j <= k && groups[j].first <= d <= groups[j].last
  {
    if d < groups[k].first { DayHasGroup(groups, labels, d, k - 1); }
  }

  lemma ShownTellsLabel(groups: seq<Group>, labels: seq<string>, d: nat)
    requires Summarises(groups, labels, |labels|) && d < |labels|
    ensures labels[d] != "" <==> exists g :: g in Shown(groups) && g.first <= d <= g.last
    ensures forall g | g in Shown(groups) && g.first <= d <= g.last :: g.text == labels[d]
  {
    ShownAreOpen(groups);
    DayHasGroup(groups, labels, d, |groups| - 1);
    var j :| 0 <= j < |groups| && groups[j].first <= d <= groups[j].last;
    assert groups[j] in groups && labels[d] == groups[j].text;
    forall g | g in Shown(groups) && g.first <= d <= g.last ensures g.text == labels[d] {
      var k :| 0 <= k < |groups| && groups[k] == g;
    }
  }

  /** A day is open exactly when a group on show spans it, and that group has its hours written. */
  lemma ShownTellsDay(groups: seq<Group>, days: seq<Option<Opening>>, d: nat)
    requires Summarises(groups, Labels(days), |days|) && d < |days|
    ensures days[d].Some? <==> exists g :: g in Shown(groups) && g.first <= d <= g.last
    ensures forall g | g in Shown(groups) && g.first <= d <= g.last :: g.text == LabelOf(days[d])
  {
    ShownTellsLabel(groups, Labels(days), d);
    OpenHasLabel(days[d]);
  }

  /** The summary loses nothing: weeks with one summary are one week. */
  lemma SummaryTellsTheWeek(g1: seq<Group>, w1: Hours, g2: seq<Group>, w2: Hours)
    requires Summarises(g1, Labels(w1.week), 7) && Summarises(g2, Labels(w2.week), 7) && Shown(g1) == Shown(g2)
    requires forall d | 0 <= d < 7 && w1.week[d].Some? :: w1.week[d].value.open <= w1.week[d].value.close
    requires forall d | 0 <= d < 7 && w2.week[d].Some? :: w2.week[d].value.open <= w2.week[d].value.close
    ensures w1.week == w2.week
  {
    forall d | 0 <= d < 7 ensures w1.week[d] == w2.week[d] {
      ShownTellsDay(g1, w1.week, d);
      ShownTellsDay(g2, w2.week, d);
      if w1.week[d].Some? {
        var g :| g in Shown(g1) && g.first <= d <= g.last;
        LabelTellsHours(w1.week[d], w2.week[d]);
      }
    }
  }
}
