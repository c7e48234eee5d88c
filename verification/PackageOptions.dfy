/**
  The groups of options a customer can choose from in a package, in the vendor's form
  (Front-End/lib/package-options.ts): drafts, their validator, and what is sent.
 */
module PackageOptions {
  import opened Wrappers
  import opened Text

  const MAX_OPTION_GROUPS := 10
  const MAX_OPTIONS_PER_GROUP := 30
  const MAX_GROUP_TITLE := 60
  const MAX_OPTION_LABEL := 80
  const MAX_OPTION_PRICE := 100000.0

  datatype Mode = Flat | PerUnit

  /** What is saved. */
  datatype SavedOption = SavedOption(id: string, text: string, price: real, mode: Mode)
  datatype Customization = Customization(id: string, title: string, required: bool, maxSelect: int, options: seq<SavedOption>)

  /** What the form holds: numbers are fields, and a new entry has no id. */
  datatype OptionDraft = OptionDraft(id: Option<string>, text: string, price: Entry, mode: Mode)
  datatype GroupDraft = GroupDraft(
    id: Option<string>, title: string, required: bool, multi: bool, max: Entry, options: seq<OptionDraft>)

  /** What saving sends; None is a number that could not be read. */
  datatype OptionInput = OptionInput(id: Option<string>, text: string, price: Option<real>, mode: Mode)
  datatype GroupInput = GroupInput(
    id: Option<string>, title: string, required: bool, maxSelect: Option<real>, options: seq<OptionInput>)

  function OptionFrom(o: SavedOption): OptionDraft {
    OptionDraft(Some(o.id), o.text, if o.price == 0.0 then Blank else Shown(o.price), o.mode)
  }

  function DraftFrom(g: Customization): GroupDraft {
    GroupDraft(Some(g.id), g.title, g.required, g.maxSelect > 1,
               Shown((if g.maxSelect > 1 then g.maxSelect else 2) as real),
               seq(|g.options|, k requires 0 <= k < |g.options| => OptionFrom(g.options[k])))
  }

  function DraftsFrom(groups: seq<Customization>): seq<GroupDraft> {
    seq(|groups|, k requires 0 <= k < |groups| => DraftFrom(groups[k]))
  }

  predicate Named(o: OptionDraft) {
    Trim(o.text) != ""
  }

  /** The options that are not simply left empty. */
  function Counted(options: seq<OptionDraft>): seq<OptionDraft> {
    if options == [] then []
    else (if Named(options[0]) || !options[0].price.Blank? then [options[0]] else []) + Counted(options[1..])
  }

  function WithNames(options: seq<OptionDraft>): seq<OptionDraft> {
    if options == [] then []
    else (if Named(options[0]) then [options[0]] else []) + WithNames(options[1..])
  }

  /** An empty id is left out. */
  function IdToSend(id: Option<string>): Option<string> {
    if id == Some("") then None else id
  }

  function OptionToInput(o: OptionDraft, counted: bool): OptionInput {
    OptionInput(IdToSend(o.id), Trim(o.text), NumberOf(o.price), if counted then o.mode else Flat)
  }

  function DraftToInput(g: GroupDraft, counted: bool): GroupInput {
    var named := WithNames(g.options);
    GroupInput(IdToSend(g.id), Trim(g.title), g.required, if g.multi then NumberOf(g.max) else Some(1.0),
               seq(|named|, k requires 0 <= k < |named| => OptionToInput(named[k], counted)))
  }

  function DraftsToInput(drafts: seq<GroupDraft>, counted: bool): seq<GroupInput> {
    seq(|drafts|, k requires 0 <= k < |drafts| => DraftToInput(drafts[k], counted))
  }

  // ----- the validator -----

  predicate PriceValid(e: Entry) {
    NumberOf(e).Some? && 0.0 <= NumberOf(e).value <= MAX_OPTION_PRICE
  }

  predicate OptionValid(options: seq<OptionDraft>, j: nat)
    requires j < |options|
  {
    var o := options[j];
    && Named(o)
    && |Trim(o.text)| <= MAX_OPTION_LABEL
    && (forall i | 0 <= i < j :: !Same(options[i].text, o.text))
    && PriceValid(o.price)
  }

  predicate MaxValid(g: GroupDraft) {
    g.multi ==> IsInteger(NumberOf(g.max)) && 2.0 <= NumberOf(g.max).value <= |Counted(g.options)| as real
  }

  predicate GroupValid(drafts: seq<GroupDraft>, i: nat)
    requires i < |drafts|
  {
    var g := drafts[i];
    var options := Counted(g.options);
    && Trim(g.title) != "" && |Trim(g.title)| <= MAX_GROUP_TITLE
    && (forall h | 0 <= h < i :: !Same(drafts[h].title, g.title))
    && 1 <= |options| <= MAX_OPTIONS_PER_GROUP
    && (forall j | 0 <= j < |options| :: OptionValid(options, j))
    && MaxValid(g)
  }

  /** Titles, and options within a group, pairwise distinct; every bound held. */
  predicate Valid(drafts: seq<GroupDraft>) {
    |drafts| <= MAX_OPTION_GROUPS && forall i | 0 <= i < |drafts| :: GroupValid(drafts, i)
  }

  /** `n` is a group's number and `j` an option's, both from 1. */
  datatype Problem =
    | TooManyGroups
    | NoTitle(n: nat) | TitleTooLong(n: nat) | TitleTwice(n: nat)
    | NoOptions(n: nat) | TooManyOptions(n: nat)
    | OptionUnnamed(n: nat, j: nat) | OptionTooLong(n: nat, j: nat) | OptionTwice(n: nat, j: nat) | BadPrice(n: nat, j: nat)
    | BadMax(n: nat) | MaxTooBig(n: nat)

  predicate NameTaken(options: seq<OptionDraft>, j: nat)
    requires j < |options|
  {
    exists i :: 0 <= i < j && Same(options[i].text, options[j].text)
  }

  predicate TitlePasses(drafts: seq<GroupDraft>, i: nat)
    requires i < |drafts|
  {
    && Trim(drafts[i].title) != "" && |Trim(drafts[i].title)| <= MAX_GROUP_TITLE
    && forall h | 0 <= h < i :: !Same(drafts[h].title, drafts[i].title)
  }

  /** Option `j`, from 1, is there, and those before it are right. */
  predicate RightBefore(options: seq<OptionDraft>, j: nat) {
    1 <= j <= |options| && forall i | 0 <= i < j - 1 :: OptionValid(options, i)
  }

  predicate NamePasses(o: OptionDraft) {
    Named(o) && |Trim(o.text)| <= MAX_OPTION_LABEL
  }

  /** What a complaint about an option says is wrong, the options and rules before it being right. */
  predicate OptionComplains(p: Problem, options: seq<OptionDraft>) {
    match p
    case OptionUnnamed(_, j) => RightBefore(options, j) && !Named(options[j - 1])
    case OptionTooLong(_, j) => RightBefore(options, j) && |Trim(options[j - 1].text)| > MAX_OPTION_LABEL
    case OptionTwice(_, j) => RightBefore(options, j) && NamePasses(options[j - 1]) && NameTaken(options, j - 1)
    case BadPrice(_, j) =>
      RightBefore(options, j) && NamePasses(options[j - 1]) && !NameTaken(options, j - 1) && !PriceValid(options[j - 1].price)
    case _ => false
  }

  /** What a complaint says is wrong: of its group it is the first thing, in the order the rules are checked. */
  predicate Complains(p: Problem, drafts: seq<GroupDraft>) {
    if p.TooManyGroups? then |drafts| > MAX_OPTION_GROUPS
    else if !(1 <= p.n <= |drafts|) then false
    else
      var g := drafts[p.n - 1];
      var options := Counted(g.options);
      var fits := TitlePasses(drafts, p.n - 1) && 1 <= |options| <= MAX_OPTIONS_PER_GROUP;
      match p
      case NoTitle(_) => Trim(g.title) == ""
      case TitleTooLong(_) => |Trim(g.title)| > MAX_GROUP_TITLE
      case TitleTwice(n) => 1 <= |Trim(g.title)| <= MAX_GROUP_TITLE && exists h :: 0 <= h < n - 1 && Same(drafts[h].title, g.title)
      case NoOptions(_) => TitlePasses(drafts, p.n - 1) && options == []
      case TooManyOptions(_) => TitlePasses(drafts, p.n - 1) && |options| > MAX_OPTIONS_PER_GROUP
      case BadMax(_) =>
        && fits && (forall j | 0 <= j < |options| :: OptionValid(options, j))
        && g.multi && !(IsInteger(NumberOf(g.max)) && NumberOf(g.max).value >= 2.0)
      case MaxTooBig(_) =>
        && fits && (forall j | 0 <= j < |options| :: OptionValid(options, j))
        && g.multi && IsInteger(NumberOf(g.max)) && NumberOf(g.max).value > |options| as real
      case _ => fits && OptionComplains(p, options)
  }

  method TitleTaken(drafts: seq<GroupDraft>, i: nat, title: string) returns (taken: bool)
    requires i <= |drafts|
    ensures taken <==> exists h :: 0 <= h < i && Same(drafts[h].title, title)
  {
    for h := 0 to i
      invariant forall k | 0 <= k < h :: !Same(drafts[k].title, title)
    {
      if Same(drafts[h].title, title) { return true; }
    }
    return false;
  }

  method OptionTaken(options: seq<OptionDraft>, j: nat, text: string) returns (taken: bool)
    requires j <= |options|
    ensures taken <==> exists i :: 0 <= i < j && Same(options[i].text, text)
  {
    for i := 0 to j
      invariant forall k | 0 <= k < i :: !Same(options[k].text, text)
    {
      if Same(options[i].text, text) { return true; }
    }
    return false;
  }

  method OptionsError(options: seq<OptionDraft>, n: nat) returns (e: Option<Problem>)
    ensures e.None? <==> forall j | 0 <= j < |options| :: OptionValid(options, j)
    ensures e.Some? ==> OptionComplains(e.value, options) && e.value.n == n
  {
    for j := 0 to |options|
      invariant forall i | 0 <= i < j :: OptionValid(options, i)
    {
      var o := options[j];
      var text := Trim(o.text);
      assert OptionValid(options, j) ==> Named(o);
      if text == "" { return Some(OptionUnnamed(n, j + 1)); }
      if |text| > MAX_OPTION_LABEL { return Some(OptionTooLong(n, j + 1)); }
      TrimTwice(o.text);
      var taken := OptionTaken(options, j, text);
      if taken { return Some(OptionTwice(n, j + 1)); }
      if !PriceValid(o.price) { return Some(BadPrice(n, j + 1)); }
    }
    return None;
  }

  method GroupError(drafts: seq<GroupDraft>, i: nat) returns (e: Option<Problem>)
    requires i < |drafts|
    ensures e.None? <==> GroupValid(drafts, i)
    ensures e.Some? ==> !e.value.TooManyGroups? && e.value.n == i + 1 && Complains(e.value, drafts)
  {
    var g := drafts[i];
    var title := Trim(g.title);
    if title == "" { return Some(NoTitle(i + 1)); }
    if |title| > MAX_GROUP_TITLE { return Some(TitleTooLong(i + 1)); }
    TrimTwice(g.title);
    var taken := TitleTaken(drafts, i, title);
    if taken { return Some(TitleTwice(i + 1)); }
    var options := Counted(g.options);
    if |options| == 0 { return Some(NoOptions(i + 1)); }
    if |options| > MAX_OPTIONS_PER_GROUP { return Some(TooManyOptions(i + 1)); }
    e := OptionsError(options, i + 1);
    if e.Some? { return; }
    if g.multi {
      var n := NumberOf(g.max);
      if !IsInteger(n) || n.value < 2.0 { return Some(BadMax(i + 1)); }
      if n.value > |options| as real { return Some(MaxTooBig(i + 1)); }
    }
    return None;
  }

  /** Null exactly for valid drafts; otherwise the first thing wrong with the first group that has something wrong. */
  method CustomizationsError(drafts: seq<GroupDraft>) returns (e: Option<Problem>)
    ensures e.None? <==> Valid(drafts)
    ensures e.Some? ==> Complains(e.value, drafts)
    ensures e.Some? && !e.value.TooManyGroups? ==> forall i | 0 <= i < e.value.n - 1 :: GroupValid(drafts, i)
  {
    if |drafts| > MAX_OPTION_GROUPS { return Some(TooManyGroups); }
    for i := 0 to |drafts|
      invariant forall h | 0 <= h < i :: GroupValid(drafts, h)
    {
      e := GroupError(drafts, i);
      if e.Some? { return; }
    }
    return None;
  }

  // ----- what reaches the API -----

  lemma {:induction false} CountedWithNames(options: seq<OptionDraft>)
    ensures WithNames(Counted(options)) == WithNames(options)
  {
    if options != [] {
      var rest := Counted(options[1..]);
      CountedWithNames(options[1..]);
      assert Counted(options) == rest || Counted(options) == [options[0]] + rest;
      assert ([options[0]] + rest)[1..] == rest;
    }
  }

  lemma {:induction false} AllNamed(options: seq<OptionDraft>)
    requires forall j | 0 <= j < |options| :: Named(options[j])
    ensures WithNames(options) == options
  {
    if options != [] {
      AllNamed(options[1..]);
      assert options == [options[0]] + options[1..];
    }
  }

  /** Exactly the options with a name or a price count, in the order of the form: a row left empty anywhere changes nothing. */
  lemma {:induction false} CountedOfBoth(a: seq<OptionDraft>, b: seq<OptionDraft>)
    ensures Counted(a + b) == Counted(a) + Counted(b)
  {
    if a == [] {
      assert a + b == b;
    } else {
      var head := if Named(a[0]) || !a[0].price.Blank? then [a[0]] else [];
      assert (a + b)[1..] == a[1..] + b && (a + b)[0] == a[0];
      CountedOfBoth(a[1..], b);
      assert head + (Counted(a[1..]) + Counted(b)) == head + Counted(a[1..]) + Counted(b);
    }
  }

  lemma {:induction false} CountedHas(options: seq<OptionDraft>)
    ensures forall o :: o in Counted(options) <==> o in options && (Named(o) || !o.price.Blank?)
  {
    if options != [] { CountedHas(options[1..]); }
  }

  /** A price without a name is never let through. */
  lemma PriceNeedsName(drafts: seq<GroupDraft>, i: nat, o: OptionDraft)
    requires i < |drafts| && o in drafts[i].options && !Named(o) && !o.price.Blank?
    ensures !Valid(drafts)
  {
    var options := Counted(drafts[i].options);
    CountedHas(drafts[i].options);
    var j :| 0 <= j < |options| && options[j] == o;
    assert !OptionValid(options, j);
    assert !GroupValid(drafts, i);
  }

  /** Sending a valid group drops no option the validator counted, and its limit fits its options. */
  lemma ValidGroupSentWhole(drafts: seq<GroupDraft>, i: nat, counted: bool)
    requires Valid(drafts) && i < |drafts|
    ensures var input := DraftsToInput(drafts, counted)[i];
      && WithNames(drafts[i].options) == Counted(drafts[i].options)
      && |input.options| == |Counted(drafts[i].options)|
      && IsInteger(input.maxSelect) && 1.0 <= input.maxSelect.value <= |input.options| as real
  {
    assert GroupValid(drafts, i);
    var options := Counted(drafts[i].options);
    forall j | 0 <= j < |options| ensures Named(options[j]) {
      assert OptionValid(options, j);
    }
    CountedWithNames(drafts[i].options);
    AllNamed(options);
  }

  /** A saved customization, as it would be sent unchanged. */
  function AsInput(g: Customization): GroupInput {
    GroupInput(Some(g.id), g.title, g.required, Some(g.maxSelect as real),
               seq(|g.options|, k requires 0 <= k < |g.options| =>
                 OptionInput(Some(g.options[k].id), g.options[k].text, Some(g.options[k].price), g.options[k].mode)))
  }

  predicate WellSaved(g: Customization) {
    && g.id != "" && Trim(g.title) == g.title && g.maxSelect >= 1
    && forall k | 0 <= k < |g.options| ::
         g.options[k].id != "" && g.options[k].text != "" && Trim(g.options[k].text) == g.options[k].text
  }

  lemma {:induction false} NamesOnly(options: seq<OptionDraft>)
    ensures |WithNames(options)| <= |options|
    ensures |WithNames(options)| == |options| ==> forall j | 0 <= j < |options| :: Named(options[j])
  {
    if options != [] {
      NamesOnly(options[1..]);
      forall j | 0 <= j < |options| && |WithNames(options)| == |options| ensures Named(options[j]) {
        if j > 0 { assert options[j] == options[1..][j - 1]; }
      }
    }
  }

  /** Opening the form and saving it unchanged gives back exactly the well-formed customizations. */
  lemma FormRoundTrip(g: Customization)
    ensures DraftToInput(DraftFrom(g), true) == AsInput(g) <==> WellSaved(g)
  {
    var d := DraftFrom(g);
    var input := DraftToInput(d, true);
    NamesOnly(d.options);
    if WellSaved(g) {
      AllNamed(d.options);
      assert input.options == AsInput(g).options;
    } else if input == AsInput(g) {
      assert |WithNames(d.options)| == |d.options|;
      AllNamed(d.options);
      assert input.maxSelect == Some(g.maxSelect as real);
      forall k | 0 <= k < |g.options|
        ensures g.options[k].id != "" && g.options[k].text != "" && Trim(g.options[k].text) == g.options[k].text
      {
        assert input.options[k] == AsInput(g).options[k];
        assert Named(d.options[k]);
      }
    }
  }

  /** The whole form: saved unchanged it sends back the list it was opened on, if and only if each entry is well formed. */
  lemma FormRoundTripOfAll(gs: seq<Customization>)
    ensures DraftsToInput(DraftsFrom(gs), true) == seq(|gs|, k requires 0 <= k < |gs| => AsInput(gs[k]))
       <==> forall k | 0 <= k < |gs| :: WellSaved(gs[k])
  {
    var sent, saved := DraftsToInput(DraftsFrom(gs), true), seq(|gs|, k requires 0 <= k < |gs| => AsInput(gs[k]));
    forall k | 0 <= k < |gs| ensures sent[k] == saved[k] <==> WellSaved(gs[k]) {
      FormRoundTrip(gs[k]);
    }
  }

  lemma {:induction false} AllCounted(options: seq<OptionDraft>)
    requires forall j | 0 <= j < |options| :: Named(options[j])
    ensures Counted(options) == options
  {
    if options != [] {
      AllCounted(options[1..]);
      assert options == [options[0]] + options[1..];
    }
  }

  /** A well-saved choice switched to "several" is ready to save: at its own limit, or 2 if it had been one. */
  lemma SwitchedToSeveral(g: Customization)
    requires WellSaved(g) && |g.options| >= 2 && g.maxSelect <= |g.options|
    ensures var d := DraftFrom(g).(multi := true);
      MaxValid(d) && DraftToInput(d, true).maxSelect == Some((if g.maxSelect == 1 then 2 else g.maxSelect) as real)
  {
    AllCounted(DraftFrom(g).options);
  }
}
