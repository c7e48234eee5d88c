/**
  The API's side of customizations (Back-end/src/modules/add-ons/package-options.ts): how it tidies what
  a vendor saves, and why it takes whatever the form lets through.
 */
module ServerOptions {
  import opened Wrappers
  import opened Rounding
  import opened Text
  import opened PackageOptions

  datatype CleanOption = CleanOption(id: Option<string>, text: string, price: real, mode: Mode)
  datatype CleanGroup = CleanGroup(id: Option<string>, title: string, required: bool, maxSelect: int, options: seq<CleanOption>)

  /** Items tidied one by one, each against those before it, up to the first refusal. */
  function TidyAll<I, O>(tidy: (seq<O>, I) -> Option<O>, items: seq<I>, n: nat): Option<seq<O>>
    requires n <= |items|
  {
    if n == 0 then Some([])
    else
      var done := TidyAll(tidy, items, n - 1);
      if done.None? then None
      else
        var next := tidy(done.value, items[n - 1]);
        if next.None? then None else Some(done.value + [next.value])
  }

  /** If each item passes after good ones and is good itself, they all pass and are good. */
  lemma {:induction false} AllPass<I, O(!new)>(tidy: (seq<O>, I) -> Option<O>, items: seq<I>, n: nat, good: (nat, O) -> bool)
    requires n <= |items|
    requires forall done: seq<O> | |done| < |items| && (forall h | 0 <= h < |done| :: good(h, done[h])) ::
               tidy(done, items[|done|]).Some? && good(|done|, tidy(done, items[|done|]).value)
    ensures var all := TidyAll(tidy, items, n);
      all.Some? && |all.value| == n && forall i | 0 <= i < n :: good(i, all.value[i])
  {
    if n > 0 {
      AllPass(tidy, items, n - 1, good);
      var done := TidyAll(tidy, items, n - 1).value;
      assert tidy(done, items[|done|]).Some?;
    }
  }

  /** One option against those before it; None is refused. */
  function TidyOption(done: seq<CleanOption>, o: OptionInput): Option<CleanOption> {
    var text := Trim(o.text);
    var price := Round2(if o.price.Some? then o.price.value else 0.0);
    if text == "" || |text| > MAX_OPTION_LABEL then None
    else if exists i :: 0 <= i < |done| && Same(done[i].text, text) then None
    else if !(0.0 <= price <= MAX_OPTION_PRICE) then None
    else Some(CleanOption(IdToSend(o.id), text, price, o.mode))
  }

  /** A limit that is missing, unreadable or 0 is 1; others lose their fraction. */
  function TidyMax(m: Option<real>): int {
    if m.None? || m.value == 0.0 then 1 else m.value.Floor
  }

  function TidyGroup(done: seq<CleanGroup>, g: GroupInput): Option<CleanGroup> {
    var title := Trim(g.title);
    if title == "" || |title| > MAX_GROUP_TITLE then None
    else if exists i :: 0 <= i < |done| && Same(done[i].title, title) then None
    else
      var options := TidyAll(TidyOption, g.options, |g.options|);
      if options.None? then None
      else if !(1 <= |options.value| <= MAX_OPTIONS_PER_GROUP) then None
      else
        var max := TidyMax(g.maxSelect);
        if max < 1 || (max > 1 && max > |options.value|) then None
        else Some(CleanGroup(IdToSend(g.id), title, g.required, max, options.value))
  }

  function CleanOptionGroups(groups: seq<GroupInput>): Option<seq<CleanGroup>> {
    if |groups| > MAX_OPTION_GROUPS then None else TidyAll(TidyGroup, groups, |groups|)
  }

  // ----- nothing unclean is kept -----

  /** What is kept of each item is good next to what was kept before it. */
  lemma {:induction false} AllTidied<I(!new), O(!new)>(tidy: (seq<O>, I) -> Option<O>, items: seq<I>, n: nat, good: (seq<O>, O) -> bool)
    requires n <= |items|
    requires forall done, i :: tidy(done, i).Some? ==> good(done, tidy(done, i).value)
    ensures var all := TidyAll(tidy, items, n);
      all.Some? ==> |all.value| == n && forall k | 0 <= k < n :: good(all.value[..k], all.value[k])
  {
    if n > 0 && TidyAll(tidy, items, n).Some? {
      AllTidied(tidy, items, n - 1, good);
      var done := TidyAll(tidy, items, n - 1).value;
      var all := TidyAll(tidy, items, n).value;
      assert all[..n - 1] == done;
      assert forall k | 0 <= k < n - 1 :: all[..k] == done[..k];
      assert tidy(done, items[n - 1]).Some?;
    }
  }

  predicate GoodOption(done: seq<CleanOption>, o: CleanOption) {
    && Trim(o.text) == o.text && 1 <= |o.text| <= MAX_OPTION_LABEL
    && (forall i | 0 <= i < |done| :: !Same(done[i].text, o.text))
    && 0.0 <= o.price <= MAX_OPTION_PRICE && o.price == Round2(o.price)
  }

  predicate GoodGroup(done: seq<CleanGroup>, g: CleanGroup) {
    && Trim(g.title) == g.title && 1 <= |g.title| <= MAX_GROUP_TITLE
    && (forall i | 0 <= i < |done| :: !Same(done[i].title, g.title))
    && 1 <= |g.options| <= MAX_OPTIONS_PER_GROUP
    && (forall k | 0 <= k < |g.options| :: GoodOption(g.options[..k], g.options[k]))
    && 1 <= g.maxSelect && (g.maxSelect > 1 ==> g.maxSelect <= |g.options|)
  }

  lemma RoundTwice(x: real)
    ensures Round2(Round2(x)) == Round2(x)
  {
    CentsOfDollars(Round(x * 100.0));
  }

  lemma TidyOptionIsGood(done: seq<CleanOption>, o: OptionInput)
    ensures TidyOption(done, o).Some? ==> GoodOption(done, TidyOption(done, o).value)
  {
    TrimTwice(o.text);
    RoundTwice(if o.price.Some? then o.price.value else 0.0);
  }

  lemma TidyGroupIsGood(done: seq<CleanGroup>, g: GroupInput)
    ensures TidyGroup(done, g).Some? ==> GoodGroup(done, TidyGroup(done, g).value)
  {
    TrimTwice(g.title);
    forall done, o ensures TidyOption(done, o).Some? ==> GoodOption(done, TidyOption(done, o).value) {
      TidyOptionIsGood(done, o);
    }
    AllTidied(TidyOption, g.options, |g.options|, GoodOption);
  }

  /** Whatever is sent, what the API keeps is clean: every bound held, titles and labels told apart, as many groups as came. */
  lemma OnlyCleanIsKept(groups: seq<GroupInput>)
    ensures var clean := CleanOptionGroups(groups);
      clean.Some? ==>
        && |clean.value| == |groups| <= MAX_OPTION_GROUPS
        && forall k | 0 <= k < |groups| :: GoodGroup(clean.value[..k], clean.value[k])
  {
    forall done, g ensures TidyGroup(done, g).Some? ==> GoodGroup(done, TidyGroup(done, g).value) {
      TidyGroupIsGood(done, g);
    }
    AllTidied(TidyGroup, groups, |groups|, GoodGroup);
  }

  /** Rounding to the cent keeps a price between its bounds. */
  lemma PriceStaysInBounds(price: real)
    requires 0.0 <= price <= MAX_OPTION_PRICE
    ensures 0.0 <= Round2(price) <= MAX_OPTION_PRICE
  {
    RoundMonotone(0.0, price * 100.0);
    RoundMonotone(price * 100.0, 10000000.0);
  }

  /** The option as the API keeps it: its name trimmed, its price to the cent; counted per unit only where the package counts units. */
  predicate KeptAs(clean: CleanOption, draft: OptionDraft, counted: bool) {
    && clean.id == IdToSend(draft.id) && clean.text == Trim(draft.text)
    && NumberOf(draft.price).Some? && clean.price == Round2(NumberOf(draft.price).value)
    && clean.mode == if counted && draft.mode == PerUnit then PerUnit else Flat
  }

  lemma ValidOptionTaken(options: seq<OptionDraft>, counted: bool, done: seq<CleanOption>)
    requires |done| < |options| && OptionValid(options, |done|)
    requires forall h | 0 <= h < |done| :: KeptAs(done[h], options[h], counted)
    ensures var tidy := TidyOption(done, OptionToInput(options[|done|], counted));
      tidy.Some? && KeptAs(tidy.value, options[|done|], counted)
  {
    var o := options[|done|];
    PriceStaysInBounds(NumberOf(o.price).value);
    TrimTwice(o.text);
    forall h | 0 <= h < |done| ensures !Same(done[h].text, Trim(o.text)) {
      TrimTwice(options[h].text);
    }
  }

  lemma ValidOptionsTaken(options: seq<OptionDraft>, counted: bool)
    requires forall j | 0 <= j < |options| :: OptionValid(options, j)
    ensures var inputs := seq(|options|, k requires 0 <= k < |options| => OptionToInput(options[k], counted));
      var tidy := TidyAll(TidyOption, inputs, |inputs|);
      tidy.Some? && |tidy.value| == |options| && forall j | 0 <= j < |options| :: KeptAs(tidy.value[j], options[j], counted)
  {
    var inputs := seq(|options|, k requires 0 <= k < |options| => OptionToInput(options[k], counted));
    var good := (h: nat, o: CleanOption) => h < |options| && KeptAs(o, options[h], counted);
    forall done: seq<CleanOption> | |done| < |inputs| && (forall h | 0 <= h < |done| :: good(h, done[h]))
      ensures TidyOption(done, inputs[|done|]).Some? && good(|done|, TidyOption(done, inputs[|done|]).value)
    {
      ValidOptionTaken(options, counted, done);
    }
    AllPass(TidyOption, inputs, |inputs|, good);
  }

  /** The draft as the API keeps it: its title trimmed, every counted option, and its own limit, which the options can meet. */
  predicate TakenAs(clean: CleanGroup, draft: GroupDraft, counted: bool) {
    var options := Counted(draft.options);
    && clean.id == IdToSend(draft.id) && clean.title == Trim(draft.title) && clean.required == draft.required
    && |clean.options| == |options| && (forall j | 0 <= j < |options| :: KeptAs(clean.options[j], options[j], counted))
    && 1 <= clean.maxSelect <= |clean.options|
    && Some(clean.maxSelect as real) == if draft.multi then NumberOf(draft.max) else Some(1.0)
  }

  lemma ValidGroupTaken(drafts: seq<GroupDraft>, counted: bool, i: nat, done: seq<CleanGroup>)
    requires Valid(drafts) && i < |drafts|
    requires |done| == i && forall h | 0 <= h < i :: TakenAs(done[h], drafts[h], counted)
    ensures var tidy := TidyGroup(done, DraftToInput(drafts[i], counted));
      tidy.Some? && TakenAs(tidy.value, drafts[i], counted)
  {
    var options := Counted(drafts[i].options);
    assert GroupValid(drafts, i);
    ValidGroupSentWhole(drafts, i, counted);
    ValidOptionsTaken(options, counted);
    TrimTwice(drafts[i].title);
    forall h | 0 <= h < i ensures !Same(done[h].title, Trim(drafts[i].title)) {
      TrimTwice(drafts[h].title);
    }
  }

  /** The API takes every set of drafts the form lets through, keeping every counted option and a limit that fits. */
  lemma ValidDraftsTaken(drafts: seq<GroupDraft>, counted: bool)
    requires Valid(drafts)
    ensures var clean := CleanOptionGroups(DraftsToInput(drafts, counted));
      clean.Some? && |clean.value| == |drafts| && forall i | 0 <= i < |drafts| :: TakenAs(clean.value[i], drafts[i], counted)
  {
    var inputs := DraftsToInput(drafts, counted);
    var good := (h: nat, c: CleanGroup) => h < |drafts| && TakenAs(c, drafts[h], counted);
    forall done: seq<CleanGroup> | |done| < |inputs| && (forall h | 0 <= h < |done| :: good(h, done[h]))
      ensures TidyGroup(done, inputs[|done|]).Some? && good(|done|, TidyGroup(done, inputs[|done|]).value)
    {
      assert forall h | 0 <= h < |done| :: good(h, done[h]) && TakenAs(done[h], drafts[h], counted);
      assert inputs[|done|] == DraftToInput(drafts[|done|], counted);
      ValidGroupTaken(drafts, counted, |done|, done);
    }
    AllPass(TidyGroup, inputs, |inputs|, good);
  }
}
