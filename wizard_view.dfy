/**
 * What the wizard's render offers (components/Wizard.tsx:44-292): the step titles, the
 * review screen's defaults, and which controls exist at each step. A user can only
 * act through the controls on screen; the lemmas here say what that keeps true.
 */
module WizardView {
  import opened Wrappers
  import opened Seqs
  import opened Catalog
  import opened Wizard

  /** The price brackets offered at the "Market" step. */
  const PRICE_RANGES: seq<string> := ["$100 - $500", "$500 - $1,500", "$1,500+"]

  /** The title next to "Step n of 6"; blank for a step outside 1..6. */
  function StepTitle(step: int): (r: string)
    ensures r != "" <==> 1 <= step <= 6
    ensures step == 6 ==> r == "Review"
  {
    if step == 1 then "Upload"
    else if step == 2 then "Details"
    else if step == 3 then "Designer"
    else if step == 4 then "Tags"
    else if step == 5 then "Market"
    else if step == 6 then "Review"
    else ""
  }

  /** The summary shown at the review step. */
  datatype Review = Review(collection: string, designer: string, assetCount: nat, tags: seq<string>)

  /** The review summary: a blank name falls back to "Untitled" / "Anonymous", so no line is ever blank. */
  function ReviewOf(s: WizardState): (r: Review)
    ensures r.collection != "" && r.designer != ""
    ensures s.collectionName != "" ==> r.collection == s.collectionName
    ensures s.designerName != "" ==> r.designer == s.designerName
    ensures s.collectionName == "" ==> r.collection == "Untitled"
    ensures s.designerName == "" ==> r.designer == "Anonymous"
    ensures r.assetCount == |s.images| && r.tags == s.styleTags
  {
    Review(
      if s.collectionName != "" then s.collectionName else "Untitled",
      if s.designerName != "" then s.designerName else "Anonymous",
      |s.images|,
      s.styleTags)
  }

  /** The component's two pieces of state: the record and the `isSubmitted` flag. */
  datatype Screen = Screen(state: WizardState, submitted: bool)

  const START: Screen := Screen(INITIAL_STATE, false)

  /** One user gesture on a control the page renders. */
  datatype Action =
    | ClickBack
    | ClickNext
    | ClickPublish
    | ClickSubmitAnother
    | ChooseFiles(files: Option<seq<FileRef>>)
    | ClickRemove(idx: int)
    | TypeInto(field: Field, text: string)
    | ClickTag(tag: string)
    | ClickPrice(range: string)

  /** The text inputs present at a step: title and manifesto at 2, name and email at 3. */
  predicate TextInputAt(step: int, f: Field)
  {
    (step == 2 && (f == CollectionName || f == Description))
    || (step == 3 && (f == DesignerName || f == Email))
  }

  /** Back is rendered at every step but disabled at step 1. */
  predicate BackEnabled(sc: Screen)
  {
    !sc.submitted && sc.state.step != 1
  }

  /** Next is rendered while the step is below 6, Publish in its place otherwise. */
  predicate NextShown(sc: Screen)
  {
    !sc.submitted && sc.state.step < 6
  }

  /** The control the action uses is on screen and enabled. */
  predicate Enabled(sc: Screen, a: Action)
  {
    var step := sc.state.step;
    match a
    case ClickSubmitAnother => sc.submitted
    case ClickBack => BackEnabled(sc)
    case ClickNext => NextShown(sc)
    case ClickPublish => !sc.submitted && !(step < 6)
    case ChooseFiles(_) => !sc.submitted && step == 1
    case ClickRemove(idx) => !sc.submitted && step == 1 && 0 <= idx < |sc.state.images|
    case TypeInto(f, _) => !sc.submitted && TextInputAt(step, f)
    case ClickTag(t) => !sc.submitted && step == 4 && t in STYLE_TAGS
    case ClickPrice(p) => !sc.submitted && step == 5 && p in PRICE_RANGES
  }

  /**
   * The handler each control runs. Publish sets the flag at once (the one-second timer is
   * not modelled); Submit Another puts back INITIAL_STATE and clears the flag.
   */
  function Apply(sc: Screen, a: Action): Screen
  {
    match a
    case ClickSubmitAnother => START
    case ClickBack => sc.(state := PrevStep(sc.state))
    case ClickNext => sc.(state := NextStep(sc.state))
    case ClickPublish => sc.(submitted := true)
    case ChooseFiles(files) => sc.(state := AddFiles(sc.state, files))
    case ClickRemove(idx) => sc.(state := RemoveImage(sc.state, idx))
    case TypeInto(f, text) =>
      if Fits(f, Text(text)) then sc.(state := SetField(sc.state, f, Text(text))) else sc
    case ClickTag(t) => sc.(state := ToggleTag(sc.state, t))
    case ClickPrice(p) => sc.(state := SetField(sc.state, PriceRange, Text(p)))
  }

  /** Every action in turn uses a control that is on screen when it happens. */
  predicate Allowed(sc: Screen, actions: seq<Action>)
    decreases |actions|
  {
    actions == [] || (Enabled(sc, actions[0]) && Allowed(Apply(sc, actions[0]), actions[1..]))
  }

  function Run(sc: Screen, actions: seq<Action>): Screen
    decreases |actions|
  {
    if actions == [] then sc else Run(Apply(sc, actions[0]), actions[1..])
  }

  /**
   * What holds on every screen the page can reach: the step is one of the six, the tags
   * are distinct words of the vocabulary, the price is blank or a bracket on offer, and the
   * profile keys the wizard never asks for are still undefined.
   */
  predicate Inv(sc: Screen)
  {
    var s := sc.state;
    && 1 <= s.step <= 6
    && NoDup(s.styleTags)
    && (forall t :: t in s.styleTags ==> t in STYLE_TAGS)
    && (s.priceRange == "" || s.priceRange in PRICE_RANGES)
    && s.location.None? && s.bio.None? && s.website.None? && s.socialHandle.None?
  }

  /** Each enabled control keeps the invariant. */
  lemma {:induction false} ApplyKeepsInv(sc: Screen, a: Action)
    requires Inv(sc) && Enabled(sc, a)
    ensures Inv(Apply(sc, a))
  {
    match a
    case ClickTag(t) =>
      ToggleKeepsNoDup(sc.state, t);
    case ClickNext =>
    case ClickBack =>
    case ChooseFiles(_) =>
    case ClickRemove(_) =>
    case TypeInto(f, text) =>
    case ClickPrice(_) =>
    case ClickPublish =>
    case ClickSubmitAnother =>
  }

  /** Any sequence of on-screen gestures keeps the invariant. */
  lemma {:induction false} RunKeepsInv(sc: Screen, actions: seq<Action>)
    requires Inv(sc) && Allowed(sc, actions)
    ensures Inv(Run(sc, actions))
    decreases |actions|
  {
    if actions != [] {
      ApplyKeepsInv(sc, actions[0]);
      RunKeepsInv(Apply(sc, actions[0]), actions[1..]);
    }
  }

  /**
   * Although `nextStep` clamps at 7, a user who starts at step 1 and uses only the controls
   * on screen never leaves 1..6, and every step they see has a title.
   */
  lemma StepStaysInRange(actions: seq<Action>)
    requires Allowed(START, actions)
    ensures 1 <= Run(START, actions).state.step <= 6
    ensures StepTitle(Run(START, actions).state.step) != ""
  {
    RunKeepsInv(START, actions);
  }

  /** `n` presses of Next. */
  function Presses(n: nat): (r: seq<Action>)
    ensures |r| == n && forall i :: 0 <= i < n ==> r[i] == ClickNext
  {
    seq(n, _ => ClickNext)
  }

  /**
   * Next is never gated on the fields: from any step it can be pressed until step 6, each
   * press adds exactly one, and nothing but the step changes.
   */
  lemma {:induction false} NextIsUngated(sc: Screen, n: nat)
    requires !sc.submitted && 1 <= sc.state.step && sc.state.step + n <= 6
    ensures Allowed(sc, Presses(n))
    ensures Run(sc, Presses(n)) == Screen(sc.state.(step := sc.state.step + n), false)
    decreases n
  {
    if n > 0 {
      var next := Apply(sc, ClickNext);
      assert Presses(n)[1..] == Presses(n - 1);
      SameFieldsSameState(next.state, sc.state.(step := sc.state.step + 1));
      NextIsUngated(next, n - 1);
    } else {
      assert sc.state.(step := sc.state.step) == sc.state;
    }
  }

  /** An untouched draft reaches the review step with five presses of Next and can be published. */
  lemma EmptyDraftCanBePublished()
    ensures Allowed(START, Presses(5) + [ClickPublish])
    ensures Run(START, Presses(5) + [ClickPublish]) == Screen(INITIAL_STATE.(step := 6), true)
  {
    NextIsUngated(START, 5);
    AllowedAppend(START, Presses(5), ClickPublish);
  }

  /** One more enabled gesture after an allowed run is an allowed run. */
  lemma {:induction false} AllowedAppend(sc: Screen, actions: seq<Action>, a: Action)
    requires Allowed(sc, actions) && Enabled(Run(sc, actions), a)
    ensures Allowed(sc, actions + [a])
    ensures Run(sc, actions + [a]) == Apply(Run(sc, actions), a)
    decreases |actions|
  {
    if actions == [] {
      assert actions + [a] == [a];
      assert [a][1..] == [];
    } else {
      assert (actions + [a])[0] == actions[0];
      assert (actions + [a])[1..] == actions[1..] + [a];
      AllowedAppend(Apply(sc, actions[0]), actions[1..], a);
    }
  }

  /** Back steps down by exactly one wherever it is enabled on a reachable screen, so it never goes below 1. */
  lemma BackStepsDownOne(sc: Screen)
    requires Inv(sc) && Enabled(sc, ClickBack)
    ensures Apply(sc, ClickBack).state.step == sc.state.step - 1 >= 1
  {
  }

  /** Publish only raises the flag; Submit Another gives back the empty record at step 1 with the flag down. */
  lemma SubmitThenReset(sc: Screen)
    requires Enabled(sc, ClickPublish)
    ensures Apply(sc, ClickPublish) == Screen(sc.state, true)
    ensures Enabled(Apply(sc, ClickPublish), ClickSubmitAnother)
    ensures var r := Apply(Apply(sc, ClickPublish), ClickSubmitAnother);
      && !r.submitted && r.state.step == 1 && r.state.images == [] && r.state.styleTags == []
      && r.state.collectionName == r.state.description == r.state.designerName == r.state.email == r.state.priceRange == ""
  {
  }
}
