/** The storage keys, the theme table and the tag catalogue of constants.ts. */
module Constants {
  import opened Types

  const HistoryKey: string := "shelfSense_history_v1"
  const ThemeKey: string := "shelfSense_theme_v1"
  const GlobalPrefsKey: string := "shelfSense_global_prefs_v1"

  /** `THEMES`: one configuration per theme identifier. */
  function Themes(id: ThemeId): (config: ThemeConfig)
  {
    match id
    case Default => ThemeConfig(Default, "ShelfSense (Default)", "violet", "bg-[#F8FAFC]", "bg-white/80", "text-slate-900", "bg-white", "border-slate-100")
    case Dark => ThemeConfig(Dark, "Midnight (Dark)", "violet", "bg-slate-950", "bg-slate-900/80", "text-slate-50", "bg-slate-900", "border-slate-800")
    case Berry => ThemeConfig(Berry, "Berry", "pink", "bg-pink-50", "bg-white/80", "text-slate-900", "bg-white", "border-pink-100")
    case Ocean => ThemeConfig(Ocean, "Ocean", "blue", "bg-blue-50", "bg-white/80", "text-slate-900", "bg-white", "border-blue-100")
  }

  /** The key of each `THEMES` entry, which is also the text stored under `ThemeKey`. */
  function ThemeIdName(id: ThemeId): string
  {
    match id
    case Default => "default"
    case Dark => "dark"
    case Berry => "berry"
    case Ocean => "ocean"
  }

  /** `AVAILABLE_TAGS`: the dietary tags offered in settings, by category. */
  const AvailableTags: seq<(string, seq<string>)> := [
    ("Dietary Style", ["Vegan", "Vegetarian", "Keto", "Paleo", "Pescatarian", "Whole30", "Mediterranean"]),
    ("Free From", ["Gluten-Free", "Dairy-Free", "Nut-Free", "Soy-Free", "Egg-Free", "Lactose-Free", "Grain-Free"]),
    ("Health Goals", ["Low Sodium", "Low Sugar", "No Added Sugar", "Sugar-Free", "High Protein", "Low Carb", "Low Fat", "Heart Healthy", "Diabetic Friendly"]),
    ("Sourcing & Ethics", ["Organic", "Non-GMO", "Fair Trade", "Locally Grown", "Sustainable"]),
    ("Religious", ["Kosher", "Halal"])
  ]

  /** A tag offered in one of the catalogue's categories. */
  ghost predicate CatalogueTag(t: string)
  {
    exists c :: 0 <= c < |AvailableTags| && t in AvailableTags[c].1
  }

  /** No tag of "Dietary Style" contains a comma. */
  lemma NoCommaInDietaryStyle(t: string)
    requires t in ["Vegan", "Vegetarian", "Keto", "Paleo", "Pescatarian", "Whole30", "Mediterranean"]
    ensures ',' !in t
  {
  }

  /** No tag of "Free From" contains a comma. */
  lemma NoCommaInFreeFrom(t: string)
    requires t in ["Gluten-Free", "Dairy-Free", "Nut-Free", "Soy-Free", "Egg-Free", "Lactose-Free", "Grain-Free"]
    ensures ',' !in t
  {
  }

  /** No tag of "Health Goals" contains a comma. */
  lemma NoCommaInHealthGoals(t: string)
    requires t in ["Low Sodium", "Low Sugar", "No Added Sugar", "Sugar-Free", "High Protein", "Low Carb", "Low Fat", "Heart Healthy", "Diabetic Friendly"]
    ensures ',' !in t
  {
  }

  /** No tag of "Sourcing & Ethics" contains a comma. */
  lemma NoCommaInSourcingEthics(t: string)
    requires t in ["Organic", "Non-GMO", "Fair Trade", "Locally Grown", "Sustainable"]
    ensures ',' !in t
  {
  }

  /** No tag of "Religious" contains a comma. */
  lemma NoCommaInReligious(t: string)
    requires t in ["Kosher", "Halal"]
    ensures ',' !in t
  {
  }

  /** No catalogue tag contains a comma, so a profile of catalogue tags is unambiguous. */
  lemma CatalogueTagsHaveNoComma(t: string)
    requires CatalogueTag(t)
    ensures ',' !in t
  {
    var c :| 0 <= c < |AvailableTags| && t in AvailableTags[c].1;
    if c == 0 {
      NoCommaInDietaryStyle(t);
    } else if c == 1 {
      NoCommaInFreeFrom(t);
    } else if c == 2 {
      NoCommaInHealthGoals(t);
    } else if c == 3 {
      NoCommaInSourcingEthics(t);
    } else if c == 4 {
      NoCommaInReligious(t);
    }
  }

  /** Every `THEMES` entry's `id` is its own key, and distinct keys name distinct themes. */
  lemma ThemeTableConsistent(a: ThemeId, b: ThemeId)
    ensures Themes(a).id == a
    ensures ThemeIdName(a) == ThemeIdName(b) <==> a == b
  {
  }
}
