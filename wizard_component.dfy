/**
 * The Wizard component itself (components/Wizard.tsx:17-42, 55): the record held by
 * `useState` and the `isSubmitted` flag, replaced in turn by the event handlers.
 */
module WizardComponent {
  import opened Wrappers
  import opened Wizard
  import opened WizardView

  class WizardPage {
    var state: WizardState
    var isSubmitted: bool

    ghost function Current(): Screen
      reads this
    {
      Screen(state, isSubmitted)
    }

    /** The page as a user can have left it. */
    ghost predicate Valid()
      reads this
    {
      Inv(Current())
    }

    /** Mounting: INITIAL_STATE and the flag down. */
    constructor ()
      ensures state == INITIAL_STATE && !isSubmitted
      ensures state.step == 1 && state.images == [] && state.styleTags == []
      ensures Valid()
    {
      state := INITIAL_STATE;
      isSubmitted := false;
    }

    method OnNext()
      modifies this
      ensures state == NextStep(old(state)) && isSubmitted == old(isSubmitted)
      ensures state.step == if old(state.step) < 7 then old(state.step) + 1 else 7
    {
      state := NextStep(state);
    }

    method OnBack()
      modifies this
      ensures state == PrevStep(old(state)) && isSubmitted == old(isSubmitted)
      ensures state.step == if old(state.step) > 1 then old(state.step) - 1 else 1
    {
      state := PrevStep(state);
    }

    method HandleInputChange(f: Field, v: Value)
      requires Fits(f, v)
      modifies this
      ensures state == SetField(old(state), f, v) && isSubmitted == old(isSubmitted)
      ensures Get(state, f) == v && forall g :: g != f ==> Get(state, g) == Get(old(state), g)
    {
      state := SetField(state, f, v);
    }

    method HandleTagToggle(tag: string)
      modifies this
      ensures state == ToggleTag(old(state), tag) && isSubmitted == old(isSubmitted)
      ensures tag in state.styleTags <==> tag !in old(state.styleTags)
    {
      state := ToggleTag(state, tag);
    }

    method OnFilesChosen(files: Option<seq<FileRef>>)
      modifies this
      ensures state == AddFiles(old(state), files) && isSubmitted == old(isSubmitted)
      ensures files.Some? ==> state.images == old(state.images) + files.value
    {
      state := AddFiles(state, files);
    }

    method OnRemoveImage(idx: int)
      modifies this
      ensures state == RemoveImage(old(state), idx) && isSubmitted == old(isSubmitted)
    {
      state := RemoveImage(state, idx);
    }

    /** `handleSubmit`: only ever raises the flag; the record stays as it was. */
    method HandleSubmit()
      modifies this`isSubmitted
      ensures isSubmitted
    {
      isSubmitted := true;
    }

    /** The "Submit Another" button. */
    method SubmitAnother()
      modifies this
      ensures state == INITIAL_STATE && !isSubmitted
    {
      state := INITIAL_STATE;
      isSubmitted := false;
    }

    /** A gesture on a control the page shows runs that control's handler and keeps the page valid. */
    method Dispatch(a: Action)
      requires Valid() && Enabled(Current(), a)
      modifies this
      ensures Current() == Apply(old(Current()), a)
      ensures Valid()
    {
      ApplyKeepsInv(Current(), a);
      match a
      case ClickSubmitAnother => SubmitAnother();
      case ClickBack => OnBack();
      case ClickNext => OnNext();
      case ClickPublish => HandleSubmit();
      case ChooseFiles(files) => OnFilesChosen(files);
      case ClickRemove(idx) => OnRemoveImage(idx);
      case TypeInto(f, text) => HandleInputChange(f, Text(text));
      case ClickTag(t) => HandleTagToggle(t);
      case ClickPrice(p) => HandleInputChange(PriceRange, Text(p));
    }
  }
}
