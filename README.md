# Submission wizard and designer profile, modelled in Dafny

This project models the two pieces of logic in a fashion-studio web site:

- **The submission wizard** (`components/Wizard.tsx`). It is a six-step form. It holds a record
  (`WizardState`: step, images, collection and designer text, style tags, price range) and an
  `isSubmitted` flag. Its event handlers replace the record: Next and Back move the step, an input
  overwrites one key, a tag button toggles a tag, the file input appends images, an image's remove
  button deletes it, Publish raises the flag and "Submit Another" starts over.
- **The designer page's data resolution** (`pages/DesignerProfile.tsx`). Wizard data handed over in
  navigation state wins. Otherwise the route id is looked up in the mock designer table. Otherwise
  the page shows "Designer Not Found". The collection grid shows either placeholders for the
  handed-over images or the first three mock collections.

Files:

- `wrappers.dfy`: `Option`, standing for JavaScript's `undefined`.
- `seqs.dfy`: the array operations used, which are filter by value, filter by index and `slice(0, n)`.
- `catalog.dfy`: the record types of `types.ts` and the tables of `constants.ts`.
- `wizard.dfy`: the wizard record and its transitions, as functions.
- `wizard_view.dfy`: what the render offers at each step, and the invariants that any sequence of
  on-screen gestures keeps.
- `wizard_component.dfy`: the component as a class whose fields the handlers reassign.
- `designer_profile.dfy`: profile resolution, the not-found branch and the grid.

Modelling choices:

- `File` objects are opaque. They are `FileRef(handle, name)`.
- `INITIAL_STATE` leaves out `location`, `bio`, `website` and `socialHandle`, although the record type
  declares them. They are therefore `undefined` at run time, and they are `Option<string>` here,
  starting as `None`.
- `handleInputChange(field, value)` takes any key and any value. It is `SetField(s, f, v)` with
  `requires Fits(f, v)`, meaning the value has the key's declared type. Its contract is given through
  `Get(s, f)` (`s[f]`): key `f` holds `v` and every other key is unchanged.
- Navigation state (`location.state`) and the route id (`useParams`) are parameters:
  `Option<Payload>` and `Option<string>`.

Points where the code does less than a six-step form suggests:

- There is no per-step validation. Next is offered at every step below 6, whatever the fields hold
  (`WizardView.NextIsUngated`, `WizardView.EmptyDraftCanBePublished`).
- `nextStep` clamps at 7, not 6. Only the render keeps the step in 1..6, by showing Next only while
  the step is below 6 (`WizardView.StepStaysInRange`).
- Step 3 offers inputs only for the designer name and the email. Location, bio, website and social
  handle are never set by any control, so they stay undefined on every reachable screen (`WizardView.Inv`).
- The step-1 text says "(Max 10)", but the file input appends any number of files
  (`Wizard.AddFiles`); no limit is enforced.
- Submission keeps the record and only raises a flag. "Submit Another" restores `INITIAL_STATE`.
- Toggling a chosen tag twice moves it to the end of the list (`Wizard.ToggleTwiceMovesToEnd`), so
  the list comes back only when the tag was not chosen (`Wizard.ToggleTwiceRestores`) or was already
  last (`Wizard.LastTagRestores`).
- The designer lookup is commented as defaulting to 'd1' when the route has no id. As written,
  the `find` predicate instead matches every designer when the id is 'd1', and with no id nothing
  matches, so the page shows "Designer Not Found" (`DesignerProfile.NoIdNotFound`).
- No code shown here navigates to the designer page with wizard data. `DesignerProfile.PayloadOf`
  states what such a hand-over would carry. Moreover the route table sends `/designers/:id` to a
  placeholder page (App.tsx:27), so the designer page is not rendered by the shipped app at all.

## Model

| member | source | states |
|---|---|---|
| `Seqs.Without` | components/Wizard.tsx:31 | filtering a tag out removes every occurrence of it, keeps every other value, and leaves the multiset otherwise equal |
| `Seqs.WithoutAppend` | components/Wizard.tsx:31 | filtering distributes over concatenation, so the kept elements keep their order |
| `Seqs.WithoutKeepsNoDup` | components/Wizard.tsx:31 | filtering a duplicate-free list leaves it duplicate-free |
| `Seqs.WithoutAt` | components/Wizard.tsx:31 | in a duplicate-free list, filtering out the value at position i deletes exactly position i |
| `Seqs.RemoveAt` | components/Wizard.tsx:115 | filtering by index deletes exactly position idx (length drops by one) when idx is in range and changes nothing otherwise |
| `Seqs.Take` | pages/DesignerProfile.tsx:124 | `slice(0, n)` is a prefix of length min(n, length) |
| `Wizard.SameFieldsSameState` | types.ts:23-41 | a wizard record is determined by the values of its keys |
| `Wizard.SetField` | components/Wizard.tsx:24-26 | `handleInputChange(f, v)` makes key f hold v and leaves every other key, the step included, unchanged |
| `Wizard.SetFieldSameValue` | components/Wizard.tsx:24-26 | writing the value a key already holds leaves the record unchanged |
| `Wizard.SetFieldTwice` | components/Wizard.tsx:24-26 | the later of two writes to one key wins |
| `Wizard.NextStep` | components/Wizard.tsx:21 | next is min(step+1, 7): one more below 7, never above 7, and only the step changes |
| `Wizard.PrevStep` | components/Wizard.tsx:22 | back is max(step-1, 1): one less above 1, never below 1, and only the step changes |
| `Wizard.PrevUndoesNext` | components/Wizard.tsx:21-22 | from any step in 1..6, Back after Next gives back the same record |
| `Wizard.ToggleTag` | components/Wizard.tsx:28-35 | the toggled tag is present afterwards iff it was absent, every other tag keeps its presence, an absent tag is appended at the end, and only the tag list changes |
| `Wizard.ToggleTwiceRestores` | components/Wizard.tsx:30-34 | toggling an absent tag twice gives back the same record, order included |
| `Wizard.ToggleRemovesOnePosition` | components/Wizard.tsx:30-31 | in a duplicate-free list, toggling a present tag deletes exactly its position and keeps the rest in order |
| `Wizard.ToggleTwiceMovesToEnd` | components/Wizard.tsx:28-35 | toggling a present tag twice moves it to the end of the list |
| `Wizard.LastTagRestores` | components/Wizard.tsx:30-34 | a chosen tag that is already last, toggled twice, gives back the same record |
| `Wizard.ToggleKeepsNoDup` | components/Wizard.tsx:28-35 | toggling keeps a duplicate-free tag list duplicate-free |
| `Wizard.AddFiles` | components/Wizard.tsx:99-103 | chosen files are appended after the existing images, which keep their positions; with no file list nothing changes |
| `Wizard.RemoveImage` | components/Wizard.tsx:115 | removing image idx deletes exactly that position and keeps the rest in order; an index out of range changes nothing |
| `WizardView.StepTitle` | components/Wizard.tsx:71-76 | a step has a title iff it is in 1..6, and step 6 is "Review" |
| `WizardView.ReviewOf` | components/Wizard.tsx:236-256 | a blank collection name shows as "Untitled" and a blank designer name as "Anonymous", filled-in names show as typed, so no line is blank; the image count and the tags are shown |
| `WizardView.ApplyKeepsInv` | components/Wizard.tsx:89-289 | `Enabled` gives the controls the render offers (the step-1 file input and remove buttons, the step-2/3 text inputs, the step-4 tag buttons from the vocabulary, the step-5 price buttons, Back disabled at step 1, Next below step 6 and Publish otherwise, only Submit Another once submitted) and `Apply` the handler each one runs; every control that is on screen and enabled keeps the invariant: step in 1..6, tags distinct and from the vocabulary, price blank or an offered bracket, unasked profile keys undefined |
| `WizardView.RunKeepsInv` | components/Wizard.tsx:264-289 | any sequence of on-screen gestures keeps that invariant |
| `WizardView.StepStaysInRange` | components/Wizard.tsx:275 | from the initial screen, using only the controls shown, the step never leaves 1..6 and always has a title, although next clamps at 7 |
| `WizardView.NextIsUngated` | components/Wizard.tsx:275-281 | Next is offered below step 6 whatever the fields hold; n presses add exactly n to the step and change nothing else |
| `WizardView.EmptyDraftCanBePublished` | components/Wizard.tsx:275-289 | an untouched draft reaches the review step after five presses of Next and can be published |
| `WizardView.BackStepsDownOne` | components/Wizard.tsx:265-267 | where Back is enabled on a reachable screen it steps down by exactly one and stays at least 1 |
| `WizardView.SubmitThenReset` | components/Wizard.tsx:37-55 | Publish only raises the flag and keeps the record; Submit Another then gives step 1, no images or tags, blank text and the flag down |
| `WizardComponent.WizardPage.constructor` | components/Wizard.tsx:6-19 | the component mounts with INITIAL_STATE and the flag down, in a valid state |
| `WizardComponent.WizardPage.OnNext` | components/Wizard.tsx:21 | the record becomes NextStep of the old one; the flag is unchanged |
| `WizardComponent.WizardPage.OnBack` | components/Wizard.tsx:22 | the record becomes PrevStep of the old one; the flag is unchanged |
| `WizardComponent.WizardPage.HandleInputChange` | components/Wizard.tsx:24-26 | key f now holds v and every other key is as before |
| `WizardComponent.WizardPage.HandleTagToggle` | components/Wizard.tsx:28-35 | the record's tags are toggled and the tag's membership flips |
| `WizardComponent.WizardPage.OnFilesChosen` | components/Wizard.tsx:99-103 | the chosen files are appended to the images |
| `WizardComponent.WizardPage.OnRemoveImage` | components/Wizard.tsx:115 | the image at idx is removed |
| `WizardComponent.WizardPage.HandleSubmit` | components/Wizard.tsx:37-42 | only the flag changes, and it becomes true |
| `WizardComponent.WizardPage.SubmitAnother` | components/Wizard.tsx:55 | the record is INITIAL_STATE again and the flag is down |
| `WizardComponent.WizardPage.Dispatch` | components/Wizard.tsx:264-289 | a gesture on a shown control runs that control's handler and keeps the page valid |
| `DesignerProfile.Specialty` | pages/DesignerProfile.tsx:24 | the specialty is either "Emerging Talent" or the first tag; it is the first tag when that tag is non-blank, "Emerging Talent" when the list is empty or missing, and never blank (so a blank first tag also falls back) |
| `DesignerProfile.FromWizard` | pages/DesignerProfile.tsx:19-28 | a wizard-derived profile copies name, location, bio, email, website and social handle, uses the placeholder portrait and is marked new |
| `DesignerProfile.FromDesigner` | pages/DesignerProfile.tsx:29 | the `: mockDesigner` arm: a mock designer's keys are shown as they are, its undefined optional keys (badge included) stay undefined |
| `DesignerProfile.FirstMatch` | pages/DesignerProfile.tsx:16 | with `Matches` the `find` predicate (the id names the designer, or the id is 'd1'), the index found is the first designer that matches, or the table length when none does |
| `DesignerProfile.FindDesigner` | pages/DesignerProfile.tsx:16 | the lookup fails iff no designer matches; a result is a matching designer of the table |
| `DesignerProfile.D1FindsFirst` | pages/DesignerProfile.tsx:16 | with route id 'd1' the lookup gives the first designer of a non-empty table, whatever its id |
| `DesignerProfile.OtherIdFindsFirstWithId` | pages/DesignerProfile.tsx:16 | any other id gives the first designer carrying exactly that id |
| `DesignerProfile.MockLookupIffD1` | pages/DesignerProfile.tsx:16 | with the shipped designer table the lookup succeeds iff the route id is 'd1' |
| `DesignerProfile.Resolve` | pages/DesignerProfile.tsx:19-29 | wizard data, when present, gives the wizard-derived profile; otherwise the profile is the mock designer found, if any |
| `DesignerProfile.Render` | pages/DesignerProfile.tsx:31-59 | "Designer Not Found" exactly when no profile resolves; otherwise the resolved profile and the grid, with the "New Arrival" badge iff the profile is flagged new, which is iff wizard data was handed over |
| `DesignerProfile.Gallery` | pages/DesignerProfile.tsx:115-133 | `HasUploads` is `wizardData?.images?.length > 0`; with a non-empty handed-over image list, the grid holds one placeholder per image, numbered 1..n in order; otherwise it links to the first three mock collections |
| `DesignerProfile.NotFoundIff` | pages/DesignerProfile.tsx:31-37 | "Designer Not Found" is shown iff there is no wizard data and the route id is not 'd1' |
| `DesignerProfile.NoIdNotFound` | pages/DesignerProfile.tsx:16 | with no route id and no wizard data the page shows "Designer Not Found"; there is no default to 'd1' |
| `DesignerProfile.WizardDataWins` | pages/DesignerProfile.tsx:19-29 | wizard data wins over any route id, and its profile carries the "New Arrival" badge |
| `DesignerProfile.MockProfileForD1` | pages/DesignerProfile.tsx:16-29 | route id 'd1' without wizard data shows the mock designer without the badge, with three collection links starting at "eye-spy" |
| `DesignerProfile.WizardPreview` | pages/DesignerProfile.tsx:115-121 | a wizard record with images and a first tag shows its name, email and first tag with the badge, and one placeholder per image numbered 1..n in order |

## Left out

- The one-second `setTimeout` before the flag is raised (components/Wizard.tsx:39-41). Publish raises the flag at once. A second Publish inside that second, which would schedule a second timer, is not modelled.
- The progress bar's width `(step / 6) * 100` and the "Step n of 6" text: floating point and display only.
- The handlers for tags and images read the `state` of the last render rather than the `prev` of the state updater. The model applies every handler to the current record, so it does not capture React's batching of several updates within one render.
- `File` contents and everything the browser does with them. Only a handle and a name are kept.
- `useParams`, `useLocation` and routing (react-router is not part of this model). They become parameters. Navigation state other than "absent" or "an object with the wizard's keys" is not modelled, and neither is a `styleTags` key that is not an array.
- All JSX, CSS and animation, the home page's scroll parallax, the layout's menu, the collections page and the route table. They hold no logic beyond display.
