/** The record shapes of types.ts and the static tables of constants.ts that the two components read. */
module Catalog {
  import opened Wrappers

  /** A collection card (types.ts:1-8). */
  datatype Collection = Collection(
    id: string,
    title: string,
    designer: string,
    season: string,
    imageUrl: string,
    description: string)

  /** A designer record (types.ts:10-21); the optional keys are `Option`s. */
  datatype Designer = Designer(
    id: string,
    name: string,
    location: string,
    bio: string,
    imageUrl: string,
    specialty: string,
    email: Option<string>,
    website: Option<string>,
    social: Option<string>,
    isNew: Option<bool>)

  const MOCK_COLLECTIONS: seq<Collection> := [
    Collection("eye-spy", "Eye Spy", "Andrew Majtenyi", "Current",
      "https://images.unsplash.com/photo-1539109136881-3be0616acf4b?auto=format&fit=crop&q=80&w=800",
      "Black Shiny Dive Dress"),
    Collection("madame", "Madame de Pizan", "Andrew Majtenyi", "Archive",
      "https://images.unsplash.com/photo-1500917293891-ef795e70e1f6?auto=format&fit=crop&q=80&w=800",
      "Historical reimagining."),
    Collection("romanov", "Romanov Women", "Andrew Majtenyi", "Archive",
      "https://images.unsplash.com/photo-1550614000-4b9519e0031c?auto=format&fit=crop&q=80&w=800",
      "Imperial aesthetics."),
    Collection("shipping", "Modern Shipping", "Andrew Majtenyi", "Archive",
      "https://images.unsplash.com/photo-1515886657613-9f3515b0c78f?auto=format&fit=crop&q=80&w=800",
      "Nautical structure."),
    Collection("europa", "Ice Moon of Europa", "Andrew Majtenyi", "Archive",
      "https://images.unsplash.com/photo-1539008835657-9e8e9680c956?auto=format&fit=crop&q=80&w=800",
      "Futuristic cold.")
  ]

  const MOCK_DESIGNERS: seq<Designer> := [
    Designer("d1", "Andrew Majtenyi", "London, UK",
      "Merging traditional craftsmanship with cinematic storytelling.",
      "https://images.unsplash.com/photo-1506794778202-cad84cf45f1d?auto=format&fit=crop&q=80&w=800",
      "Couture", None, None, None, None)
  ]

  /** The tag vocabulary offered at the "Aesthetics" step. */
  const STYLE_TAGS: seq<string> :=
    ["Minimalist", "Avant-Garde", "Sustainable", "Vintage", "Cyberpunk", "Bohemian", "Structural"]
}
