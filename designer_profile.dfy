/**
 * How the designer page picks what to show (pages/DesignerProfile.tsx): data handed over
 * in navigation state wins, else a designer from MOCK_DESIGNERS, else "Designer Not Found";
 * and the collection grid shows the handed-over images or the first mock collections.
 */
module DesignerProfile {
  import opened Wrappers
  import opened Seqs
  import opened Catalog
  import opened Wizard

  /** The navigation state, read with the keys of the wizard's record; any key may be absent. */
  datatype Payload = Payload(
    designerName: Option<string>,
    location: Option<string>,
    bio: Option<string>,
    email: Option<string>,
    website: Option<string>,
    socialHandle: Option<string>,
    styleTags: Option<seq<string>>,
    images: Option<seq<FileRef>>)

  /** A wizard record passed as navigation state: every key it has is present. */
  function PayloadOf(s: WizardState): Payload
  {
    Payload(Some(s.designerName), s.location, s.bio, Some(s.email), s.website, s.socialHandle,
      Some(s.styleTags), Some(s.images))
  }

  /** The fields of `profile` the page reads. */
  datatype Profile = Profile(
    name: Option<string>,
    location: Option<string>,
    bio: Option<string>,
    imageUrl: string,
    specialty: string,
    email: Option<string>,
    website: Option<string>,
    social: Option<string>,
    isNew: Option<bool>)

  const PLACEHOLDER_PORTRAIT: string :=
    "https://images.unsplash.com/photo-1506794778202-cad84cf45f1d?auto=format&fit=crop&q=80&w=800"

  const EMERGING_TALENT: string := "Emerging Talent"

  /** `styleTags?.[0] || 'Emerging Talent'`: the first tag when there is one and it is not blank. */
  function Specialty(tags: Option<seq<string>>): (r: string)
    ensures tags.Some? && |tags.value| > 0 && tags.value[0] != "" ==> r == tags.value[0]
    ensures tags.None? || tags.value == [] ==> r == EMERGING_TALENT
    ensures r == EMERGING_TALENT || (tags.Some? && |tags.value| > 0 && r == tags.value[0])
    ensures r != ""
  {
    if tags.Some? && |tags.value| > 0 && tags.value[0] != "" then tags.value[0] else EMERGING_TALENT
  }

  /** The normalised profile built from handed-over wizard data. */
  function FromWizard(w: Payload): (r: Profile)
    ensures r.isNew == Some(true) && r.imageUrl == PLACEHOLDER_PORTRAIT
    ensures r.name == w.designerName && r.location == w.location && r.bio == w.bio
    ensures r.email == w.email && r.website == w.website && r.social == w.socialHandle
    ensures r.specialty == Specialty(w.styleTags)
  {
    Profile(w.designerName, w.location, w.bio, PLACEHOLDER_PORTRAIT, Specialty(w.styleTags),
      w.email, w.website, w.socialHandle, Some(true))
  }

  /** A mock designer shown as it is: its keys carried over, its optional keys left as they are. */
  function FromDesigner(d: Designer): (r: Profile)
    ensures r.name == Some(d.name) && r.location == Some(d.location) && r.bio == Some(d.bio)
    ensures r.imageUrl == d.imageUrl && r.specialty == d.specialty
    ensures r.email == d.email && r.website == d.website && r.social == d.social && r.isNew == d.isNew
  {
    Profile(Some(d.name), Some(d.location), Some(d.bio), d.imageUrl, d.specialty,
      d.email, d.website, d.social, d.isNew)
  }

  /** The `find` predicate: the route id names the designer, or the route id is 'd1' whatever the designer. */
  predicate Matches(d: Designer, id: Option<string>)
  {
    id == Some(d.id) || id == Some("d1")
  }

  /** `findIndex`: the first position whose designer matches, or `|ds|` when none does. */
  function FirstMatch(ds: seq<Designer>, id: Option<string>): (k: nat)
    ensures k <= |ds|
    ensures k < |ds| ==> Matches(ds[k], id)
    ensures forall j :: 0 <= j < k ==> !Matches(ds[j], id)
  {
    if ds == [] then 0
    else if Matches(ds[0], id) then 0
    else 1 + FirstMatch(ds[1..], id)
  }

  /** `ds.find(d => d.id === id || id === 'd1')`. */
  function FindDesigner(ds: seq<Designer>, id: Option<string>): (r: Option<Designer>)
    ensures r.None? <==> forall j :: 0 <= j < |ds| ==> !Matches(ds[j], id)
    ensures r.Some? ==> r.value in ds && Matches(r.value, id)
  {
    var k := FirstMatch(ds, id);
    if k < |ds| then Some(ds[k]) else None
  }

  /** With id 'd1' the lookup answers the first designer in the table, whatever its id. */
  lemma D1FindsFirst(ds: seq<Designer>)
    requires |ds| > 0
    ensures FindDesigner(ds, Some("d1")) == Some(ds[0])
  {
  }

  /** Any other id finds the first designer with exactly that id. */
  lemma OtherIdFindsFirstWithId(ds: seq<Designer>, id: string, k: nat)
    requires id != "d1" && k < |ds| && ds[k].id == id
    requires forall j :: 0 <= j < k ==> ds[j].id != id
    ensures FindDesigner(ds, Some(id)) == Some(ds[k])
  {
    assert Matches(ds[k], Some(id));
    assert forall j :: 0 <= j < k ==> !Matches(ds[j], Some(id));
  }

  /** With the shipped table the lookup succeeds exactly for the route id 'd1'. */
  lemma MockLookupIffD1(id: Option<string>)
    ensures FindDesigner(MOCK_DESIGNERS, id).Some? <==> id == Some("d1")
  {
    assert MOCK_DESIGNERS[0].id == "d1";
  }

  /** The `profile` expression: wizard data first, else the mock lookup, else nothing. */
  function Resolve(wizardData: Option<Payload>, id: Option<string>): (r: Option<Profile>)
    ensures wizardData.Some? ==> r == Some(FromWizard(wizardData.value))
    ensures wizardData.None? ==>
      r == (match FindDesigner(MOCK_DESIGNERS, id)
            case Some(d) => Some(FromDesigner(d))
            case None => None)
  {
    if wizardData.Some? then Some(FromWizard(wizardData.value))
    else match FindDesigner(MOCK_DESIGNERS, id)
      case Some(d) => Some(FromDesigner(d))
      case None => None
  }

  /** A tile of the "Latest Collections" grid. */
  datatype Tile =
    | UploadedAsset(number: nat)
    | CollectionLink(path: string, imageUrl: string)

  function LinkTo(c: Collection): Tile
  {
    CollectionLink("/collections/" + c.id, c.imageUrl)
  }

  /** `wizardData?.images?.length > 0`. */
  predicate HasUploads(wizardData: Option<Payload>)
  {
    wizardData.Some? && wizardData.value.images.Some? && |wizardData.value.images.value| > 0
  }

  /**
   * The grid: one placeholder per handed-over image, numbered from 1 in order, or else a link
   * to each of the first three mock collections.
   */
  function Gallery(wizardData: Option<Payload>): (r: seq<Tile>)
    ensures HasUploads(wizardData) ==>
      |r| == |wizardData.value.images.value| && forall i :: 0 <= i < |r| ==> r[i] == UploadedAsset(i + 1)
    ensures !HasUploads(wizardData) ==>
      |r| == 3 && forall i :: 0 <= i < 3 ==> r[i] == LinkTo(MOCK_COLLECTIONS[i])
  {
    if HasUploads(wizardData) then
      seq(|wizardData.value.images.value|, i requires 0 <= i => UploadedAsset(i + 1))
    else
      var shown := Take(MOCK_COLLECTIONS, 3);
      seq(|shown|, i requires 0 <= i < |shown| => LinkTo(shown[i]))
  }

  /** What the page renders. */
  datatype Page =
    | NotFound
    | ProfilePage(profile: Profile, newBadge: bool, grid: seq<Tile>)

  /**
   * The page: "Designer Not Found" when no profile resolves, else the profile with the
   * "New Arrival" badge when it is flagged new, and the grid.
   */
  function Render(wizardData: Option<Payload>, id: Option<string>): (r: Page)
    ensures r.NotFound? <==> Resolve(wizardData, id).None?
    ensures r.ProfilePage? ==> r.profile == Resolve(wizardData, id).value && r.grid == Gallery(wizardData)
    ensures r.ProfilePage? ==> (r.newBadge <==> r.profile.isNew == Some(true))
    ensures r.ProfilePage? ==> (r.newBadge <==> wizardData.Some?)
  {
    match Resolve(wizardData, id)
    case None => NotFound
    case Some(p) => ProfilePage(p, p.isNew == Some(true), Gallery(wizardData))
  }

  /** "Designer Not Found" is shown exactly when there is no wizard data and the route id is not 'd1'. */
  lemma NotFoundIff(wizardData: Option<Payload>, id: Option<string>)
    ensures Render(wizardData, id).NotFound? <==> wizardData.None? && id != Some("d1")
  {
    MockLookupIffD1(id);
  }

  /**
   * Without a route id and without wizard data no designer matches, so the page shows
   * "Designer Not Found" rather than falling back to the designer 'd1'.
   */
  lemma NoIdNotFound()
    ensures Render(None, None).NotFound?
  {
    NotFoundIff(None, None);
  }

  /** Wizard data wins over the route id: the page shows its profile with the "New Arrival" badge. */
  lemma WizardDataWins(w: Payload, id: Option<string>)
    ensures Render(Some(w), id) == ProfilePage(FromWizard(w), true, Gallery(Some(w)))
  {
  }

  /** The mock designer is shown for 'd1' without the badge, and with the three collection links. */
  lemma MockProfileForD1()
    ensures Render(None, Some("d1")) == ProfilePage(FromDesigner(MOCK_DESIGNERS[0]), false, Gallery(None))
    ensures |Gallery(None)| == 3 && Gallery(None)[0] == CollectionLink("/collections/eye-spy", MOCK_COLLECTIONS[0].imageUrl)
  {
    MockLookupIffD1(Some("d1"));
  }

  /**
   * A preview of a wizard record: the designer's name and email carry over, the specialty is
   * the first chosen tag, and the grid holds one numbered placeholder per uploaded image.
   */
  lemma WizardPreview(s: WizardState, id: Option<string>)
    requires |s.images| > 0 && |s.styleTags| > 0 && s.styleTags[0] != ""
    ensures var page := Render(Some(PayloadOf(s)), id);
      && page.ProfilePage? && page.newBadge
      && page.profile.name == Some(s.designerName) && page.profile.email == Some(s.email)
      && page.profile.specialty == s.styleTags[0]
      && |page.grid| == |s.images| && forall i :: 0 <= i < |s.images| ==> page.grid[i] == UploadedAsset(i + 1)
  {
  }
}
