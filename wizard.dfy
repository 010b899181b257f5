/**
 * The submission wizard's record and the transitions its event handlers apply to it
 * (components/Wizard.tsx). Every handler replaces the whole record with a new one
 * built by spread syntax, so each transition is a function from the old record to the new.
 */
module Wizard {
  import opened Wrappers
  import opened Seqs

  /** A browser `File` handle; the wizard reads nothing of it but its display name. */
  datatype FileRef = FileRef(handle: nat, name: string)

  /**
   * The wizard's record (types.ts:23-41). `location`, `bio`, `website` and `socialHandle`
   * are declared as strings but left out of INITIAL_STATE, so at run time they are
   * `undefined` until something sets them: they are `Option`s here.
   */
  datatype WizardState = WizardState(
    step: int,
    images: seq<FileRef>,
    collectionName: string,
    description: string,
    designerName: string,
    email: string,
    location: Option<string>,
    bio: Option<string>,
    website: Option<string>,
    socialHandle: Option<string>,
    styleTags: seq<string>,
    priceRange: string)

  const INITIAL_STATE: WizardState :=
    WizardState(1, [], "", "", "", "", None, None, None, None, [], "")

  /** `keyof WizardState`. */
  datatype Field =
    | Step | Images | CollectionName | Description | DesignerName | Email
    | Location | Bio | Website | SocialHandle | StyleTags | PriceRange

  /** The values a key can hold; `Missing` is `undefined`. */
  datatype Value =
    | Number(n: int)
    | Files(files: seq<FileRef>)
    | Text(text: string)
    | Missing
    | Tags(tags: seq<string>)

  /** `s[f]`. */
  function Get(s: WizardState, f: Field): Value
  {
    match f
    case Step => Number(s.step)
    case Images => Files(s.images)
    case CollectionName => Text(s.collectionName)
    case Description => Text(s.description)
    case DesignerName => Text(s.designerName)
    case Email => Text(s.email)
    case Location => OptionalText(s.location)
    case Bio => OptionalText(s.bio)
    case Website => OptionalText(s.website)
    case SocialHandle => OptionalText(s.socialHandle)
    case StyleTags => Tags(s.styleTags)
    case PriceRange => Text(s.priceRange)
  }

  function OptionalText(o: Option<string>): Value
  {
    match o
    case Some(t) => Text(t)
    case None => Missing
  }

  /** The value is of the type that types.ts declares for the key (or `undefined` for the keys INITIAL_STATE omits). */
  predicate Fits(f: Field, v: Value)
  {
    match f
    case Step => v.Number?
    case Images => v.Files?
    case StyleTags => v.Tags?
    case Location | Bio | Website | SocialHandle => v.Text? || v.Missing?
    case _ => v.Text?
  }

  /** Two records that agree on every key are the same record. */
  lemma SameFieldsSameState(a: WizardState, b: WizardState)
    requires forall f :: Get(a, f) == Get(b, f)
    ensures a == b
  {
    assert Get(a, Step) == Get(b, Step) && Get(a, Images) == Get(b, Images);
    assert Get(a, CollectionName) == Get(b, CollectionName) && Get(a, Description) == Get(b, Description);
    assert Get(a, DesignerName) == Get(b, DesignerName) && Get(a, Email) == Get(b, Email);
    assert Get(a, Location) == Get(b, Location) && Get(a, Bio) == Get(b, Bio);
    assert Get(a, Website) == Get(b, Website) && Get(a, SocialHandle) == Get(b, SocialHandle);
    assert Get(a, StyleTags) == Get(b, StyleTags) && Get(a, PriceRange) == Get(b, PriceRange);
  }

  /** `handleInputChange(f, v)`: `{ ...prev, [f]: v }`: key `f` now holds `v`, every other key is untouched. */
  function SetField(s: WizardState, f: Field, v: Value): (r: WizardState)
    requires Fits(f, v)
    ensures Get(r, f) == v
    ensures forall g :: g != f ==> Get(r, g) == Get(s, g)
  {
    match f
    case Step => s.(step := v.n)
    case Images => s.(images := v.files)
    case CollectionName => s.(collectionName := v.text)
    case Description => s.(description := v.text)
    case DesignerName => s.(designerName := v.text)
    case Email => s.(email := v.text)
    case Location => s.(location := if v.Text? then Some(v.text) else None)
    case Bio => s.(bio := if v.Text? then Some(v.text) else None)
    case Website => s.(website := if v.Text? then Some(v.text) else None)
    case SocialHandle => s.(socialHandle := if v.Text? then Some(v.text) else None)
    case StyleTags => s.(styleTags := v.tags)
    case PriceRange => s.(priceRange := v.text)
  }

  /** Writing the value a key already holds changes nothing. */
  lemma {:induction false} SetFieldSameValue(s: WizardState, f: Field)
    requires Fits(f, Get(s, f))
    ensures SetField(s, f, Get(s, f)) == s
  {
    SameFieldsSameState(SetField(s, f, Get(s, f)), s);
  }

  /** A later write to the same key overrides an earlier one. */
  lemma {:induction false} SetFieldTwice(s: WizardState, f: Field, v: Value, w: Value)
    requires Fits(f, v) && Fits(f, w)
    ensures SetField(SetField(s, f, v), f, w) == SetField(s, f, w)
  {
    SameFieldsSameState(SetField(SetField(s, f, v), f, w), SetField(s, f, w));
  }

  /** `nextStep`: `Math.min(prev.step + 1, 7)`; no field is checked first. */
  function NextStep(s: WizardState): (r: WizardState)
    ensures r.step <= 7
    ensures s.step < 7 ==> r.step == s.step + 1
    ensures s.step >= 7 ==> r.step == 7
    ensures forall g :: g != Step ==> Get(r, g) == Get(s, g)
  {
    SetField(s, Step, Number(if s.step + 1 < 7 then s.step + 1 else 7))
  }

  /** `prevStep`: `Math.max(prev.step - 1, 1)`. */
  function PrevStep(s: WizardState): (r: WizardState)
    ensures r.step >= 1
    ensures s.step > 1 ==> r.step == s.step - 1
    ensures s.step <= 1 ==> r.step == 1
    ensures forall g :: g != Step ==> Get(r, g) == Get(s, g)
  {
    SetField(s, Step, Number(if s.step - 1 > 1 then s.step - 1 else 1))
  }

  /** Back undoes Next wherever Next really advanced from a step of at least 1. */
  lemma PrevUndoesNext(s: WizardState)
    requires 1 <= s.step < 7
    ensures PrevStep(NextStep(s)) == s
  {
    SameFieldsSameState(PrevStep(NextStep(s)), s);
  }

  /**
   * `handleTagToggle(tag)`: a tag already chosen is filtered out, any other tag is appended;
   * the tag's membership flips and every other tag keeps its membership.
   */
  function ToggleTag(s: WizardState, tag: string): (r: WizardState)
    ensures tag in r.styleTags <==> tag !in s.styleTags
    ensures forall u :: u != tag ==> (u in r.styleTags <==> u in s.styleTags)
    ensures tag !in s.styleTags ==> r.styleTags == s.styleTags + [tag]
    ensures forall g :: g != StyleTags ==> Get(r, g) == Get(s, g)
  {
    var current := s.styleTags;
    if tag in current then SetField(s, StyleTags, Tags(Without(current, tag)))
    else SetField(s, StyleTags, Tags(current + [tag]))
  }

  /** A tag that was not chosen: toggling it twice gives back the same record, order included. */
  lemma ToggleTwiceRestores(s: WizardState, tag: string)
    requires tag !in s.styleTags
    ensures ToggleTag(ToggleTag(s, tag), tag) == s
  {
    var once := ToggleTag(s, tag);
    WithoutAppend(s.styleTags, [tag], tag);
    assert Without([tag], tag) == [] by { assert [tag][1..] == []; }
    SameFieldsSameState(ToggleTag(once, tag), s);
  }

  /** A chosen tag of a duplicate-free list: removing it deletes just its position, so the other tags keep their order. */
  lemma ToggleRemovesOnePosition(s: WizardState, i: nat)
    requires NoDup(s.styleTags) && i < |s.styleTags|
    ensures ToggleTag(s, s.styleTags[i]).styleTags == s.styleTags[..i] + s.styleTags[i + 1..]
  {
    WithoutAt(s.styleTags, i);
  }

  /** A chosen tag toggled twice moves to the end of the list rather than back to its place. */
  lemma ToggleTwiceMovesToEnd(s: WizardState, i: nat)
    requires NoDup(s.styleTags) && i < |s.styleTags|
    ensures ToggleTag(ToggleTag(s, s.styleTags[i]), s.styleTags[i]).styleTags
            == s.styleTags[..i] + s.styleTags[i + 1..] + [s.styleTags[i]]
  {
    ToggleRemovesOnePosition(s, i);
  }

  /** The one case where a chosen tag toggled twice gives back the same record: it was already last. */
  lemma LastTagRestores(s: WizardState)
    requires NoDup(s.styleTags) && |s.styleTags| > 0
    ensures ToggleTag(ToggleTag(s, s.styleTags[|s.styleTags| - 1]), s.styleTags[|s.styleTags| - 1]) == s
  {
    var i := |s.styleTags| - 1;
    ToggleTwiceMovesToEnd(s, i);
    assert s.styleTags[..i] + s.styleTags[i + 1..] + [s.styleTags[i]] == s.styleTags;
    SameFieldsSameState(ToggleTag(ToggleTag(s, s.styleTags[i]), s.styleTags[i]), s);
  }

  /** Toggling keeps a duplicate-free tag list duplicate-free. */
  lemma ToggleKeepsNoDup(s: WizardState, tag: string)
    requires NoDup(s.styleTags)
    ensures NoDup(ToggleTag(s, tag).styleTags)
  {
    if tag in s.styleTags {
      WithoutKeepsNoDup(s.styleTags, tag);
    } else {
      var r := s.styleTags + [tag];
      forall i, j | 0 <= i < j < |r| ensures r[i] != r[j] {
        if j == |s.styleTags| { assert r[i] in s.styleTags; }
      }
    }
  }

  /**
   * The file input's `onChange`: when the browser hands over a file list, its files are
   * appended after the images already chosen; with no list the record is unchanged.
   */
  function AddFiles(s: WizardState, files: Option<seq<FileRef>>): (r: WizardState)
    ensures |s.images| <= |r.images| && r.images[..|s.images|] == s.images
    ensures files.Some? ==> r.images[|s.images|..] == files.value
    ensures files.None? ==> r == s
    ensures forall g :: g != Images ==> Get(r, g) == Get(s, g)
  {
    if files.Some? then SetField(s, Images, Files(s.images + files.value)) else s
  }

  /** The remove button of image `idx`: exactly that position is deleted, the others close up in order. */
  function RemoveImage(s: WizardState, idx: int): (r: WizardState)
    ensures 0 <= idx < |s.images| ==> |r.images| == |s.images| - 1
    ensures 0 <= idx < |s.images| ==> r.images == s.images[..idx] + s.images[idx + 1..]
    ensures !(0 <= idx < |s.images|) ==> r == s
    ensures forall g :: g != Images ==> Get(r, g) == Get(s, g)
  {
    var r := SetField(s, Images, Files(RemoveAt(s.images, idx)));
    assert !(0 <= idx < |s.images|) ==> r == s by {
      if !(0 <= idx < |s.images|) { SameFieldsSameState(r, s); }
    }
    r
  }
}
