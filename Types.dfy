/** The record shapes and closed enumerations of types.ts. */
module Types {
  import opened Wrappers

  /** The four theme identifiers (types.ts, `ThemeId`). */
  datatype ThemeId = Default | Dark | Berry | Ocean

  /** A theme's presentation settings (types.ts, `ThemeConfig`). */
  datatype ThemeConfig = ThemeConfig(
    id: ThemeId,
    name: string,
    primary: string,
    bg: string,
    headerBg: string,
    text: string,
    cardBg: string,
    borderColor: string)

  /** How to re-identify an item on the shelf; all three descriptors are mandatory. */
  datatype VisualCues = VisualCues(color: string, labelDetails: string, shelfPosition: string)

  /** Percentages of the image height (y) and width (x), top-left origin. */
  datatype BoundingBox = BoundingBox(ymin: real, xmin: real, ymax: real, xmax: real)

  /** The shape shared by the primary result and every supplementary item. */
  datatype ShelfItemLocation = ShelfItemLocation(
    productName: string,
    reasoning: string,
    locationDescription: string,
    visualCues: VisualCues,
    boundingBox: Option<BoundingBox>)

  /** The closed set of match classifications. */
  datatype MatchType = ExactMatch | Substitute | FunctionalAlternative | WrongAisle

  /** A citation attached from the search grounding metadata. */
  datatype Source = Source(uri: string, title: string)

  /** A product the model considered and rejected. */
  datatype RejectedCandidate = RejectedCandidate(name: string, reasonExcluded: string)

  /**
   * The analysis result. It carries every field of `ShelfItemLocation` (the `extends`
   * of types.ts) followed by its own fields; `verifiedSources` and `supplementaryItems`
   * are the two optional ones.
   */
  datatype Recommendation = Recommendation(
    productName: string,
    reasoning: string,
    locationDescription: string,
    visualCues: VisualCues,
    boundingBox: Option<BoundingBox>,
    matchType: MatchType,
    matchScore: real,
    healthHighlights: seq<string>,
    nutritionalComparison: string,
    verifiedSources: Option<seq<Source>>,
    detectedItemCount: int,
    otherCandidates: seq<RejectedCandidate>,
    supplementaryItems: Option<seq<ShelfItemLocation>>)
  {
    /** The recommendation seen through its `ShelfItemLocation` base shape. */
    function AsLocation(): (loc: ShelfItemLocation)
      ensures loc.productName == productName && loc.reasoning == reasoning
      ensures loc.locationDescription == locationDescription
      ensures loc.visualCues == visualCues && loc.boundingBox == boundingBox
    {
      ShelfItemLocation(productName, reasoning, locationDescription, visualCues, boundingBox)
    }
  }

  /** The denormalised part of a history entry used to render the list without `fullData`. */
  datatype Summary = Summary(productName: string, matchType: MatchType, locationDescription: string)

  /** One stored scan. */
  datatype ScanHistoryItem = ScanHistoryItem(
    id: string,
    timestamp: int,
    summary: Summary,
    fullData: Recommendation)

  /** The four states of the application (types.ts, `AppState`). */
  datatype AppState = Idle | Analyzing | ResultShown | Error

  /** The text value of each `AppState` member. */
  function AppStateName(s: AppState): string
  {
    match s
    case Idle => "IDLE"
    case Analyzing => "ANALYZING"
    case ResultShown => "RESULT"
    case Error => "ERROR"
  }

  /** The string literal each match type has in the source and in the schema's enum. */
  function MatchTypeName(m: MatchType): string
  {
    match m
    case ExactMatch => "EXACT_MATCH"
    case Substitute => "SUBSTITUTE"
    case FunctionalAlternative => "FUNCTIONAL_ALTERNATIVE"
    case WrongAisle => "WRONG_AISLE"
  }

  /** Reads a match-type literal; any other text is not a match type. */
  function ParseMatchType(s: string): (r: Option<MatchType>)
    ensures r.Some? ==> MatchTypeName(r.value) == s
  {
    if s == "EXACT_MATCH" then Some(ExactMatch)
    else if s == "SUBSTITUTE" then Some(Substitute)
    else if s == "FUNCTIONAL_ALTERNATIVE" then Some(FunctionalAlternative)
    else if s == "WRONG_AISLE" then Some(WrongAisle)
    else None
  }

  /** The match-type union is closed: exactly four names, each read back as itself. */
  lemma MatchTypeClosed(m: MatchType)
    ensures ParseMatchType(MatchTypeName(m)) == Some(m)
    ensures MatchTypeName(m) in {"EXACT_MATCH", "SUBSTITUTE", "FUNCTIONAL_ALTERNATIVE", "WRONG_AISLE"}
  {
  }

  /** The enumeration values of `AppState` are pairwise distinct, so the four states are four. */
  lemma AppStateNamesDistinct(a: AppState, b: AppState)
    ensures AppStateName(a) == AppStateName(b) <==> a == b
  {
  }
}
