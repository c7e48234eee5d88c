/**
  What a customer picks in a package's customizations (Front-End/lib/package-options.ts), what is sent,
  and what the API's own check makes of it (Back-end/src/modules/add-ons/package-options.ts).
 */
module Choices {
  import opened Wrappers
  import opened PackageOptions

  /** By group, in the order they were clicked. A group never clicked has no entry. */
  type Picks = map<string, seq<string>>

  function Picked(picks: Picks, id: string): seq<string> {
    if id in picks then picks[id] else []
  }

  function Without(ids: seq<string>, id: string): seq<string> {
    if ids == [] then [] else (if ids[0] == id then [] else [ids[0]]) + Without(ids[1..], id)
  }

  /** A click on an option. A single choice is swapped or taken back; a multiple one grows and shrinks, and ignores a click when full. */
  function TogglePick(picks: Picks, g: Customization, option: string): Picks {
    var current := Picked(picks, g.id);
    if g.maxSelect <= 1 then picks[g.id := if current != [] && current[0] == option then [] else [option]]
    else if option in current then picks[g.id := Without(current, option)]
    else if |current| >= g.maxSelect then picks
    else picks[g.id := current + [option]]
  }

  /** What the form would ask for next. */
  function MissingChoice(groups: seq<Customization>, picks: Picks): Option<Customization> {
    if groups == [] then None
    else if groups[0].required && Picked(picks, groups[0].id) == [] then Some(groups[0])
    else MissingChoice(groups[1..], picks)
  }

  datatype Choice = Choice(group: string, options: seq<string>)

  /** The ids of the options picked, in the vendor's order. */
  function InOrder(options: seq<SavedOption>, picked: seq<string>): seq<string> {
    if options == [] then []
    else (if options[0].id in picked then [options[0].id] else []) + InOrder(options[1..], picked)
  }

  function ChoicesPayload(groups: seq<Customization>, picks: Picks): seq<Choice> {
    if groups == [] then []
    else
      var picked := Picked(picks, groups[0].id);
      (if picked != [] then [Choice(groups[0].id, InOrder(groups[0].options, picked))] else [])
        + ChoicesPayload(groups[1..], picks)
  }

  // ----- runs of toggles -----

  predicate Distinct(ids: seq<string>) {
    forall i, j | 0 <= i < j < |ids| :: ids[i] != ids[j]
  }

  predicate Offers(g: Customization, id: string) {
    exists k :: 0 <= k < |g.options| && g.options[k].id == id
  }

  predicate DistinctGroups(groups: seq<Customization>) {
    forall i, j | 0 <= i < j < |groups| :: groups[i].id != groups[j].id
  }

  predicate DistinctOptions(g: Customization) {
    forall i, j | 0 <= i < j < |g.options| :: g.options[i].id != g.options[j].id
  }

  /** What a group's picks should be: options it offers, each once, as many as its limit lets through. */
  predicate SoundPicks(g: Customization, picked: seq<string>) {
    && Distinct(picked)
    && (forall k | 0 <= k < |picked| :: Offers(g, picked[k]))
    && |picked| <= if g.maxSelect <= 1 then 1 else g.maxSelect
  }

  predicate Sound(groups: seq<Customization>, picks: Picks) {
    forall k | 0 <= k < |groups| :: SoundPicks(groups[k], Picked(picks, groups[k].id))
  }

  datatype Toggle = Toggle(group: nat, option: string)

  function AfterToggles(groups: seq<Customization>, picks: Picks, toggles: seq<Toggle>): Picks
    requires forall t | t in toggles :: t.group < |groups|
    decreases |toggles|
  {
    if toggles == [] then picks
    else AfterToggles(groups, TogglePick(picks, groups[toggles[0].group], toggles[0].option), toggles[1..])
  }

  lemma DistinctPrepend(x: string, ids: seq<string>)
    requires Distinct(ids) && x !in ids
    ensures Distinct([x] + ids)
  {
  }

  lemma {:induction false} WithoutIsSmaller(ids: seq<string>, id: string)
    requires Distinct(ids)
    ensures Distinct(Without(ids, id)) && |Without(ids, id)| <= |ids|
    ensures forall x :: x in Without(ids, id) <==> x in ids && x != id
  {
    if ids != [] {
      var rest := Without(ids[1..], id);
      WithoutIsSmaller(ids[1..], id);
      assert forall x :: x in ids <==> x == ids[0] || x in ids[1..];
      forall x | x in rest ensures x != ids[0] {
        var k :| 0 <= k < |ids[1..]| && ids[1..][k] == x;
        assert ids[k + 1] == x;
      }
      DistinctPrepend(ids[0], rest);
      assert Without(ids, id) == if ids[0] == id then rest else [ids[0]] + rest;
    }
  }

  /** What one toggle makes of its own group's picks. */
  function Toggled(g: Customization, current: seq<string>, option: string): seq<string> {
    Picked(TogglePick(map[g.id := current], g, option), g.id)
  }

  lemma ToggledIsSound(g: Customization, current: seq<string>, option: string)
    requires SoundPicks(g, current) && Offers(g, option)
    ensures SoundPicks(g, Toggled(g, current, option))
  {
    WithoutIsSmaller(current, option);
    var now := Toggled(g, current, option);
    forall i | 0 <= i < |now| ensures Offers(g, now[i]) {
      assert now[i] in now;
      if now[i] != option {
        var j :| 0 <= j < |current| && current[j] == now[i];
      }
    }
  }

  /** A toggle changes whether its option is picked, unless the group is full; of the others, only a single choice gives way. */
  lemma ToggleChangesItsOption(g: Customization, current: seq<string>, option: string)
    requires SoundPicks(g, current)
    ensures var now := Toggled(g, current, option);
      && (option in now <==> option !in current && (g.maxSelect <= 1 || |current| < g.maxSelect))
      && (forall x | x != option :: x in now <==> x in current && (g.maxSelect > 1 || option in current))
  {
    WithoutIsSmaller(current, option);
    assert |current| <= 1 || g.maxSelect > 1;
  }

  lemma ToggleKeepsSound(groups: seq<Customization>, picks: Picks, k: nat, option: string)
    requires DistinctGroups(groups) && Sound(groups, picks) && k < |groups| && Offers(groups[k], option)
    ensures Sound(groups, TogglePick(picks, groups[k], option))
    ensures forall id :: Picked(TogglePick(picks, groups[k], option), id)
                      == if id == groups[k].id then Toggled(groups[k], Picked(picks, id), option) else Picked(picks, id)
  {
    var g := groups[k];
    var after := TogglePick(picks, g, option);
    ToggledIsSound(g, Picked(picks, g.id), option);
    assert Picked(after, g.id) == Toggled(g, Picked(picks, g.id), option);
    forall i | 0 <= i < |groups| ensures SoundPicks(groups[i], Picked(after, groups[i].id)) {
      if i != k {
        assert groups[i].id != g.id;
        assert SoundPicks(groups[i], Picked(picks, groups[i].id));
      }
    }
  }

  /** From nothing picked, whatever is toggled: every group's picks stay distinct, its own, and within its limit. */
  lemma {:induction false} TogglesKeepSound(groups: seq<Customization>, picks: Picks, toggles: seq<Toggle>)
    requires DistinctGroups(groups) && Sound(groups, picks)
    requires forall t | t in toggles :: t.group < |groups| && Offers(groups[t.group], t.option)
    ensures Sound(groups, AfterToggles(groups, picks, toggles))
    decreases |toggles|
  {
    if toggles != [] {
      var t := toggles[0];
      assert t in toggles;
      ToggleKeepsSound(groups, picks, t.group, t.option);
      TogglesKeepSound(groups, TogglePick(picks, groups[t.group], t.option), toggles[1..]);
    }
  }

  // ----- what is sent -----

  predicate SamePicks(a: seq<string>, b: seq<string>) {
    (forall x | x in a :: x in b) && (forall x | x in b :: x in a)
  }

  lemma {:induction false} InOrderSame(options: seq<SavedOption>, a: seq<string>, b: seq<string>)
    requires SamePicks(a, b)
    ensures InOrder(options, a) == InOrder(options, b)
  {
    if options != [] { InOrderSame(options[1..], a, b); }
  }

  /** The order the customer toggled in does not show: the same picks are sent the same way. */
  lemma {:induction false} PayloadIgnoresOrder(groups: seq<Customization>, p: Picks, q: Picks)
    requires forall k | 0 <= k < |groups| :: SamePicks(Picked(p, groups[k].id), Picked(q, groups[k].id))
    ensures ChoicesPayload(groups, p) == ChoicesPayload(groups, q)
  {
    if groups != [] {
      var a, b := Picked(p, groups[0].id), Picked(q, groups[0].id);
      assert a == [] <==> b == [] by {
        assert a != [] ==> a[0] in a;
        assert b != [] ==> b[0] in b;
      }
      InOrderSame(groups[0].options, a, b);
      PayloadIgnoresOrder(groups[1..], p, q);
    }
  }

  lemma {:induction false} InOrderHolds(options: seq<SavedOption>, picked: seq<string>)
    ensures forall x :: x in InOrder(options, picked) <==> x in picked && exists k :: 0 <= k < |options| && options[k].id == x
    ensures (forall i, j | 0 <= i < j < |options| :: options[i].id != options[j].id) ==> Distinct(InOrder(options, picked))
  {
    if options != [] {
      InOrderHolds(options[1..], picked);
      forall x | x in picked && exists k :: 0 <= k < |options| && options[k].id == x
        ensures x in InOrder(options, picked)
      {
        var k :| 0 <= k < |options| && options[k].id == x;
        if k > 0 { assert options[1..][k - 1].id == x; }
      }
    }
  }

  /** Where an option stands in the vendor's list; past its end if it doesn't. */
  function Place(options: seq<SavedOption>, id: string): nat {
    if options == [] || options[0].id == id then 0 else 1 + Place(options[1..], id)
  }

  predicate InPlace(options: seq<SavedOption>, ids: seq<string>) {
    forall i, j | 0 <= i < j < |ids| :: Place(options, ids[i]) < Place(options, ids[j])
  }

  /** One more option in front changes no order; an option in front of all others comes first. */
  lemma StillInPlace(options: seq<SavedOption>, ids: seq<string>)
    requires options != [] && options[0].id !in ids && InPlace(options[1..], ids)
    ensures InPlace(options, ids) && InPlace(options, [options[0].id] + ids)
  {
    forall i | 0 <= i < |ids| ensures Place(options, ids[i]) == 1 + Place(options[1..], ids[i]) {
      assert ids[i] in ids;
    }
  }

  lemma {:induction false} InVendorsOrder(options: seq<SavedOption>, picked: seq<string>)
    requires forall i, j | 0 <= i < j < |options| :: options[i].id != options[j].id
    ensures InPlace(options, InOrder(options, picked))
  {
    if options != [] {
      var rest := InOrder(options[1..], picked);
      InVendorsOrder(options[1..], picked);
      InOrderHolds(options[1..], picked);
      assert forall k | 0 <= k < |options[1..]| :: options[1..][k] == options[k + 1];
      assert options[0].id !in rest;
      StillInPlace(options, rest);
      assert InOrder(options, picked) == if options[0].id in picked then [options[0].id] + rest else rest;
    }
  }

  /** A sound pick reaches the payload whole: the same options, each once, in the vendor's order. */
  lemma InOrderKeepsPicks(g: Customization, picked: seq<string>)
    requires SoundPicks(g, picked) && DistinctOptions(g)
    ensures var sent := InOrder(g.options, picked);
      && Distinct(sent) && SamePicks(sent, picked) && |sent| == |picked|
      && InPlace(g.options, sent)
  {
    var sent := InOrder(g.options, picked);
    InOrderHolds(g.options, picked);
    InVendorsOrder(g.options, picked);
    assert forall x | x in picked :: Offers(g, x);
    SameLength(sent, picked);
  }

  lemma SameLength(a: seq<string>, b: seq<string>)
    requires Distinct(a) && Distinct(b) && SamePicks(a, b)
    ensures |a| == |b|
  {
    AsSet(a);
    AsSet(b);
    assert (set x | x in a) == (set x | x in b);
  }

  lemma {:induction false} AsSet(a: seq<string>)
    requires Distinct(a)
    ensures |set x | x in a| == |a|
  {
    if a != [] {
      AsSet(a[1..]);
      assert (set x | x in a) == {a[0]} + (set x | x in a[1..]);
    }
  }

  // ----- the API's check -----

  /** The answer a list of choices gives to one group. */
  function AnswerTo(choices: seq<Choice>, id: string): seq<string> {
    if choices == [] then [] else if choices[0].group == id then choices[0].options else AnswerTo(choices[1..], id)
  }

  /** What `priceOptionChoices` takes: its own groups, each answered once, with its own options, within its limit. */
  predicate ServerTakes(groups: seq<Customization>, choices: seq<Choice>) {
    && (forall c | c in choices :: exists k :: 0 <= k < |groups| && groups[k].id == c.group)
    && AnsweredOnce(choices)
    && (forall k | 0 <= k < |groups| ::
          var ids := AnswerTo(choices, groups[k].id);
          && (groups[k].required ==> ids != [])
          && (forall x | x in ids :: Offers(groups[k], x))
          && (ids != [] ==> |set x | x in ids| <= groups[k].maxSelect))
  }

  lemma {:induction false} PayloadFromGroups(groups: seq<Customization>, picks: Picks)
    ensures forall c | c in ChoicesPayload(groups, picks) :: exists k :: 0 <= k < |groups| && groups[k].id == c.group
  {
    if groups != [] {
      PayloadFromGroups(groups[1..], picks);
      forall c | c in ChoicesPayload(groups[1..], picks) ensures exists k :: 0 <= k < |groups| && groups[k].id == c.group {
        var k :| 0 <= k < |groups[1..]| && groups[1..][k].id == c.group;
        assert groups[k + 1].id == c.group;
      }
      assert groups[0].id == groups[0].id;
    }
  }

  predicate AnsweredOnce(choices: seq<Choice>) {
    forall i, j | 0 <= i < j < |choices| :: choices[i].group != choices[j].group
  }

  lemma AnswerFirst(c: Choice, rest: seq<Choice>)
    requires AnsweredOnce(rest) && forall d | d in rest :: d.group != c.group
    ensures AnsweredOnce([c] + rest)
  {
  }

  lemma {:induction false} PayloadGroupsDistinct(groups: seq<Customization>, picks: Picks)
    requires DistinctGroups(groups)
    ensures AnsweredOnce(ChoicesPayload(groups, picks))
  {
    if groups != [] {
      var rest := ChoicesPayload(groups[1..], picks);
      PayloadGroupsDistinct(groups[1..], picks);
      PayloadFromGroups(groups[1..], picks);
      forall c | c in rest ensures c.group != groups[0].id {
        var k :| 0 <= k < |groups[1..]| && groups[1..][k].id == c.group;
        assert groups[k + 1].id == c.group;
      }
      var picked := Picked(picks, groups[0].id);
      AnswerFirst(Choice(groups[0].id, InOrder(groups[0].options, picked)), rest);
      assert picked == [] ==> ChoicesPayload(groups, picks) == rest;
    }
  }

  lemma {:induction false} PayloadAnswers(groups: seq<Customization>, picks: Picks, k: nat)
    requires DistinctGroups(groups) && k < |groups|
    ensures AnswerTo(ChoicesPayload(groups, picks), groups[k].id)
         == if Picked(picks, groups[k].id) == [] then [] else InOrder(groups[k].options, Picked(picks, groups[k].id))
  {
    var rest := ChoicesPayload(groups[1..], picks);
    if k > 0 {
      PayloadAnswers(groups[1..], picks, k - 1);
      var head := ChoicesPayload(groups, picks);
      assert head == rest || (|head| > 0 && head[0].group == groups[0].id && head[1..] == rest);
    } else if Picked(picks, groups[0].id) == [] {
      NotAnswered(groups[1..], picks, groups[0].id);
      assert ChoicesPayload(groups, picks) == rest;
    }
  }

  lemma {:induction false} NotAnswered(groups: seq<Customization>, picks: Picks, id: string)
    requires forall k | 0 <= k < |groups| :: groups[k].id != id
    ensures AnswerTo(ChoicesPayload(groups, picks), id) == []
  {
    if groups != [] {
      NotAnswered(groups[1..], picks, id);
      var rest := ChoicesPayload(groups[1..], picks);
      var head := ChoicesPayload(groups, picks);
      assert head == rest || (|head| > 0 && head[0].group == groups[0].id && head[1..] == rest);
    }
  }

  /** The group asked for is the first required one without a pick. */
  lemma {:induction false} MissingIsFirst(groups: seq<Customization>, picks: Picks)
    ensures MissingChoice(groups, picks).Some? ==>
      exists k :: 0 <= k < |groups| && MissingChoice(groups, picks) == Some(groups[k])
        && groups[k].required && Picked(picks, groups[k].id) == []
        && forall j | 0 <= j < k && groups[j].required :: Picked(picks, groups[j].id) != []
  {
    if groups != [] && !(groups[0].required && Picked(picks, groups[0].id) == []) && MissingChoice(groups, picks).Some? {
      MissingIsFirst(groups[1..], picks);
      var k :| 0 <= k < |groups[1..]| && MissingChoice(groups[1..], picks) == Some(groups[1..][k])
        && groups[1..][k].required && Picked(picks, groups[1..][k].id) == []
        && forall j | 0 <= j < k && groups[1..][j].required :: Picked(picks, groups[1..][j].id) != [];
      assert groups[k + 1] == groups[1..][k];
      forall j | 0 <= j < k + 1 && groups[j].required ensures Picked(picks, groups[j].id) != [] {
        if j > 0 { assert groups[j] == groups[1..][j - 1]; }
      }
    }
  }

  /** Answers come in the order of the groups. */
  lemma {:induction false} PayloadOfBoth(a: seq<Customization>, b: seq<Customization>, picks: Picks)
    ensures ChoicesPayload(a + b, picks) == ChoicesPayload(a, picks) + ChoicesPayload(b, picks)
  {
    if a == [] {
      assert a + b == b;
    } else {
      assert (a + b)[1..] == a[1..] + b;
      PayloadOfBoth(a[1..], b, picks);
    }
  }

  /** Nothing is missing exactly when every required group is answered. */
  lemma {:induction false} MissingIsUnanswered(groups: seq<Customization>, picks: Picks)
    ensures MissingChoice(groups, picks).None?
       <==> forall k | 0 <= k < |groups| && groups[k].required :: Picked(picks, groups[k].id) != []
  {
    if groups != [] {
      MissingIsUnanswered(groups[1..], picks);
      assert forall k | 0 < k < |groups| :: groups[k] == groups[1..][k - 1];
    }
  }

  /** Of the picks, those the vendor still offers. */
  function StillOffered(g: Customization, picked: seq<string>): set<string> {
    set x | x in picked && Offers(g, x)
  }

  /** A required group has a pick still offered, and no group more of them than it allows. */
  predicate PicksFit(g: Customization, picked: seq<string>) {
    && (g.required ==> StillOffered(g, picked) != {})
    && (StillOffered(g, picked) != {} ==> |StillOffered(g, picked)| <= g.maxSelect)
  }

  /** A list of option ids that says just which picks are still offered. */
  predicate SaysWhatIsOffered(g: Customization, picked: seq<string>, ids: seq<string>) {
    && (set x | x in ids) == StillOffered(g, picked)
    && (ids == [] <==> StillOffered(g, picked) == {})
    && (forall x | x in ids :: Offers(g, x))
  }

  lemma InOrderSaysWhatIsOffered(g: Customization, picked: seq<string>)
    ensures SaysWhatIsOffered(g, picked, InOrder(g.options, picked))
  {
    var ids := InOrder(g.options, picked);
    InOrderHolds(g.options, picked);
    assert forall x :: x in ids <==> x in StillOffered(g, picked);
    assert ids != [] ==> ids[0] in StillOffered(g, picked);
  }

  lemma AnswerSaysWhatIsOffered(groups: seq<Customization>, picks: Picks, k: nat)
    requires DistinctGroups(groups) && k < |groups|
    ensures SaysWhatIsOffered(groups[k], Picked(picks, groups[k].id), AnswerTo(ChoicesPayload(groups, picks), groups[k].id))
  {
    PayloadAnswers(groups, picks, k);
    InOrderSaysWhatIsOffered(groups[k], Picked(picks, groups[k].id));
    assert StillOffered(groups[k], []) == {};
  }

  /** Whatever the picks, old ones of options withdrawn since included: the API takes what is sent exactly when they fit. */
  lemma PayloadTaken(groups: seq<Customization>, picks: Picks)
    requires DistinctGroups(groups)
    ensures ServerTakes(groups, ChoicesPayload(groups, picks))
       <==> forall k | 0 <= k < |groups| :: PicksFit(groups[k], Picked(picks, groups[k].id))
  {
    var choices := ChoicesPayload(groups, picks);
    PayloadFromGroups(groups, picks);
    PayloadGroupsDistinct(groups, picks);
    forall k | 0 <= k < |groups|
      ensures SaysWhatIsOffered(groups[k], Picked(picks, groups[k].id), AnswerTo(choices, groups[k].id))
    {
      AnswerSaysWhatIsOffered(groups, picks, k);
    }
  }

  /**
    End to end: with picks any run of toggles can reach, the API takes what is sent exactly when
    nothing required is missing.
   */
  lemma SentChoicesTaken(groups: seq<Customization>, picks: Picks)
    requires DistinctGroups(groups) && Sound(groups, picks)
    requires forall k | 0 <= k < |groups| :: groups[k].maxSelect >= 1
    ensures ServerTakes(groups, ChoicesPayload(groups, picks)) <==> MissingChoice(groups, picks).None?
  {
    PayloadTaken(groups, picks);
    MissingIsUnanswered(groups, picks);
    forall k | 0 <= k < |groups|
      ensures PicksFit(groups[k], Picked(picks, groups[k].id))
         <==> (groups[k].required ==> Picked(picks, groups[k].id) != [])
    {
      SoundPicksFit(groups[k], Picked(picks, groups[k].id));
    }
  }

  lemma SoundPicksFit(g: Customization, picked: seq<string>)
    requires SoundPicks(g, picked) && g.maxSelect >= 1
    ensures PicksFit(g, picked) <==> (g.required ==> picked != [])
  {
    AsSet(picked);
    forall x | x in picked ensures Offers(g, x) {
      var k :| 0 <= k < |picked| && picked[k] == x;
    }
    assert StillOffered(g, picked) == set x | x in picked;
    assert picked != [] ==> picked[0] in StillOffered(g, picked);
  }

  /** A required choice of an option withdrawn since: the form has nothing to ask for, and the API refuses. */
  lemma WithdrawnChoiceRefused()
    ensures var g := Customization("style", "Style", true, 1, [SavedOption("new", "New", 0.0, Flat)]);
      var picks := map["style" := ["old"]];
      MissingChoice([g], picks).None? && !ServerTakes([g], ChoicesPayload([g], picks))
  {
    var g := Customization("style", "Style", true, 1, [SavedOption("new", "New", 0.0, Flat)]);
    var picks: Picks := map["style" := ["old"]];
    PayloadTaken([g], picks);
    assert StillOffered(g, ["old"]) == {};
    assert !PicksFit([g][0], Picked(picks, "style"));
  }
}
