/**
 * components/RecommendationCard.tsx: what the result card shows for a recommendation, the
 * selected item index (-1 for the main item) and whether a shelf image is available.
 */
module RecommendationCard {
  import opened Wrappers
  import opened Types

  /** The index that stands for the main item. */
  const MainIndex: int := -1

  /** The supplementary item at `index`, if the list is present and the index falls inside it. */
  function SupplementAt(data: Recommendation, index: int): (r: Option<ShelfItemLocation>)
  {
    match data.supplementaryItems
    case Some(items) => if 0 <= index < |items| then Some(items[index]) else None
    case None => None
  }

  /**
   * `activeItem`: the main item for index -1; otherwise the indexed supplement when there is
   * one, and the main item as the fallback for a missing list or an index outside it.
   */
  function ActiveItem(data: Recommendation, index: int): (item: ShelfItemLocation)
    ensures index == MainIndex ==> item == data.AsLocation()
    ensures index != MainIndex && data.supplementaryItems.Some? && 0 <= index < |data.supplementaryItems.value|
      ==> item == data.supplementaryItems.value[index]
    ensures index != MainIndex && SupplementAt(data, index).None? ==> item == data.AsLocation()
  {
    if index == MainIndex then data.AsLocation()
    else match SupplementAt(data, index)
      case Some(item) => item
      case None => data.AsLocation()
  }

  /** `isViewingMain`. */
  predicate ViewingMain(index: int)
  {
    index == MainIndex
  }

  /** The status badge text. */
  function StatusLabel(data: Recommendation, index: int): string
  {
    if !ViewingMain(index) then "Supplementary Item"
    else if data.matchType == WrongAisle then "Location Alert"
    else if data.matchType == ExactMatch then "Exact Match"
    else "Smart Substitute"
  }

  /** The pill on the bounding box. */
  function PillText(data: Recommendation, index: int): string
  {
    if !ViewingMain(index) then "ALSO FOUND"
    else if data.matchType == ExactMatch then "FOUND IT"
    else "BEST MATCH"
  }

  /** The "N% Match" figure, when it is shown. */
  function ScoreShown(data: Recommendation, index: int): (r: Option<real>)
  {
    if data.matchType != WrongAisle && ViewingMain(index) then Some(data.matchScore) else None
  }

  /** The card's heading. */
  function Title(data: Recommendation, index: int): string
  {
    if data.matchType == WrongAisle then "Wrong Aisle Detected" else ActiveItem(data, index).productName
  }

  /** The shelf image is drawn when there is one and the aisle is not the wrong one. */
  predicate ImageShown(data: Recommendation, hasImage: bool)
  {
    hasImage && data.matchType != WrongAisle
  }

  /** The CSS placement of the locator box, in percent of the image. */
  datatype BoxStyle = BoxStyle(top: real, left: real, height: real, width: real)

  /** The locator box: drawn on the image for an active item that has a bounding box. */
  function LocatorBox(data: Recommendation, index: int, hasImage: bool): (r: Option<BoxStyle>)
    ensures r.Some? <==> ImageShown(data, hasImage) && ActiveItem(data, index).boundingBox.Some?
    ensures r.Some? ==>
      var b := ActiveItem(data, index).boundingBox.value;
      r.value.top + r.value.height == b.ymax && r.value.left + r.value.width == b.xmax
  {
    if ImageShown(data, hasImage) then
      match ActiveItem(data, index).boundingBox
      case Some(b) => Some(BoxStyle(b.ymin, b.xmin, b.ymax - b.ymin, b.xmax - b.xmin))
      case None => None
    else None
  }

  /** The two visual-cue chips (colour, shelf position), hidden in the wrong aisle. */
  function CueChips(data: Recommendation, index: int): (r: Option<(string, string)>)
  {
    if data.matchType != WrongAisle then
      var cues := ActiveItem(data, index).visualCues;
      Some((cues.color, cues.shelfPosition))
    else None
  }

  /** The "Verified Online" link target: the first verified source, main view only. */
  function VerifiedLink(data: Recommendation, index: int): (r: Option<string>)
  {
    if ViewingMain(index) && data.verifiedSources.Some? && |data.verifiedSources.value| > 0
       && data.matchType != WrongAisle
    then Some(data.verifiedSources.value[0].uri)
    else None
  }

  /** The selection marks of the switcher: the main button first, then one per supplement. */
  function SwitcherMarks(data: Recommendation, index: int): (r: Option<seq<bool>>)
  {
    match data.supplementaryItems
    case Some(items) =>
      if |items| > 0 then Some([ViewingMain(index)] + seq(|items|, k => index == k)) else None
    case None => None
  }

  /** The number of marked buttons. */
  function CountMarked(marks: seq<bool>): nat
  {
    if marks == [] then 0 else (if marks[0] then 1 else 0) + CountMarked(marks[1..])
  }

  /** Counting marks over a concatenation. */
  lemma {:induction false} CountMarkedAppend(a: seq<bool>, b: seq<bool>)
    ensures CountMarked(a + b) == CountMarked(a) + CountMarked(b)
    decreases |a|
  {
    if a == [] {
      assert a + b == b;
    } else {
      assert (a + b)[1..] == a[1..] + b;
      CountMarkedAppend(a[1..], b);
    }
  }

  /** A list with exactly one true entry, at `j`, counts one mark; one without any counts none. */
  lemma {:induction false} CountMarkedSingle(marks: seq<bool>, j: int)
    requires forall k :: 0 <= k < |marks| ==> (marks[k] <==> k == j)
    ensures CountMarked(marks) == if 0 <= j < |marks| then 1 else 0
    decreases |marks|
  {
    if marks != [] {
      CountMarkedSingle(marks[1..], j - 1);
    }
  }

  /**
   * The switcher appears only for a non-empty supplement list; it has one button per item and
   * marks exactly one of them when the index is -1 or a supplement's index, none otherwise.
   */
  lemma SwitcherMarksOne(data: Recommendation, index: int)
    ensures SwitcherMarks(data, index).Some? <==>
      data.supplementaryItems.Some? && |data.supplementaryItems.value| > 0
    ensures SwitcherMarks(data, index).Some? ==>
      var marks := SwitcherMarks(data, index).value;
      |marks| == |data.supplementaryItems.value| + 1
      && CountMarked(marks) == (if -1 <= index < |data.supplementaryItems.value| then 1 else 0)
  {
    if SwitcherMarks(data, index).Some? {
      var marks := SwitcherMarks(data, index).value;
      CountMarkedSingle(marks, index + 1);
    }
  }

  /** Whether the analysis section shows the health tags (main view, at least one tag). */
  predicate HealthTagsShown(data: Recommendation, index: int, expanded: bool)
  {
    expanded && ViewingMain(index) && |data.healthHighlights| > 0
  }

  /** Whether the nutritional note is shown (main view, non-empty text). */
  predicate NutritionShown(data: Recommendation, index: int, expanded: bool)
  {
    expanded && ViewingMain(index) && data.nutritionalComparison != ""
  }

  /** The debug panel's two figures: items analysed and alternatives (both default to 0). */
  function DebugCounts(data: Recommendation, index: int, expanded: bool): (r: Option<(int, nat)>)
  {
    if expanded && ViewingMain(index) then Some((data.detectedItemCount, |data.otherCandidates|)) else None
  }

  /** Everything the card derives from its inputs. */
  datatype CardView = CardView(
    statusLabel: string,
    score: Option<real>,
    title: string,
    imageShown: bool,
    box: Option<BoxStyle>,
    pill: Option<string>,
    location: string,
    cues: Option<(string, string)>,
    verifiedLink: Option<string>,
    switcher: Option<seq<bool>>,
    reasoning: Option<string>,
    healthTags: Option<seq<string>>,
    nutrition: Option<string>,
    debug: Option<(int, nat)>,
    rejected: Option<seq<RejectedCandidate>>)

  /**
   * The card for `data`, the selected `index`, an image or none, and the analysis section open
   * or closed. A box is only drawn on a shown image and always carries its pill; the rejected
   * list only appears inside the debug panel.
   */
  function Render(data: Recommendation, index: int, hasImage: bool, expanded: bool): (v: CardView)
    ensures v.box.Some? ==> v.imageShown
    ensures v.pill.Some? <==> v.box.Some?
    ensures v.rejected.Some? ==> v.debug.Some?
  {
    var active := ActiveItem(data, index);
    var box := LocatorBox(data, index, hasImage);
    var debug := DebugCounts(data, index, expanded);
    CardView(
      StatusLabel(data, index),
      ScoreShown(data, index),
      Title(data, index),
      ImageShown(data, hasImage),
      box,
      if box.Some? then Some(PillText(data, index)) else None,
      active.locationDescription,
      CueChips(data, index),
      VerifiedLink(data, index),
      SwitcherMarks(data, index),
      if expanded then Some(active.reasoning) else None,
      if HealthTagsShown(data, index, expanded) then Some(data.healthHighlights) else None,
      if NutritionShown(data, index, expanded) then Some(data.nutritionalComparison) else None,
      debug,
      if debug.Some? && |data.otherCandidates| > 0 then Some(data.otherCandidates) else None)
  }

  /**
   * The status label by view and match type: the supplement view always says so; the main
   * view names the match type, with the two substitute kinds sharing one label.
   */
  lemma StatusLabelTable(data: Recommendation, index: int)
    ensures !ViewingMain(index) ==> StatusLabel(data, index) == "Supplementary Item"
    ensures ViewingMain(index) ==>
      StatusLabel(data, index) == (match data.matchType
        case WrongAisle => "Location Alert"
        case ExactMatch => "Exact Match"
        case Substitute => "Smart Substitute"
        case FunctionalAlternative => "Smart Substitute")
  {
  }

  /** The score is shown exactly in the main view of a result that is not a wrong aisle, and it is the score. */
  lemma ScoreVisibility(data: Recommendation, index: int, hasImage: bool, expanded: bool)
    ensures Render(data, index, hasImage, expanded).score.Some? <==>
      data.matchType != WrongAisle && index == MainIndex
    ensures Render(data, index, hasImage, expanded).score.Some? ==>
      Render(data, index, hasImage, expanded).score.value == data.matchScore
  {
  }

  /**
   * A wrong-aisle result relies on no item's location data: the title is fixed, no image, box
   * or chips are drawn and neither score nor verified link appears, whichever item is selected.
   */
  lemma WrongAisleSuppresses(data: Recommendation, index: int, hasImage: bool, expanded: bool)
    requires data.matchType == WrongAisle
    ensures var v := Render(data, index, hasImage, expanded);
      && v.title == "Wrong Aisle Detected"
      && !v.imageShown && v.box.None? && v.pill.None? && v.cues.None?
      && v.score.None? && v.verifiedLink.None?
      && v.statusLabel == (if index == MainIndex then "Location Alert" else "Supplementary Item")
  {
  }

  /** Main-view-only parts: out of the main view there is no link, health tags, nutrition note or debug panel. */
  lemma SupplementViewHidesMainOnly(data: Recommendation, index: int, hasImage: bool, expanded: bool)
    requires index != MainIndex
    ensures var v := Render(data, index, hasImage, expanded);
      v.verifiedLink.None? && v.healthTags.None? && v.nutrition.None? && v.debug.None? && v.rejected.None?
      && v.score.None? && v.statusLabel == "Supplementary Item"
  {
  }

  /** The verified link points at the first source, and needs the main view, a source and a real match. */
  lemma VerifiedLinkRule(data: Recommendation, index: int, hasImage: bool, expanded: bool)
    ensures Render(data, index, hasImage, expanded).verifiedLink.Some? <==>
      index == MainIndex && data.matchType != WrongAisle
      && data.verifiedSources.Some? && |data.verifiedSources.value| > 0
    ensures Render(data, index, hasImage, expanded).verifiedLink.Some? ==>
      Render(data, index, hasImage, expanded).verifiedLink.value == data.verifiedSources.value[0].uri
  {
  }

  /**
   * The box geometry: top and left are the minimum edges, height and width the spans; a box
   * with ordered edges inside 0..100 percent has a positive size and stays inside the image.
   */
  lemma BoxGeometry(data: Recommendation, index: int, hasImage: bool)
    requires LocatorBox(data, index, hasImage).Some?
    ensures var b := ActiveItem(data, index).boundingBox.value;
      var s := LocatorBox(data, index, hasImage).value;
      && s == BoxStyle(b.ymin, b.xmin, b.ymax - b.ymin, b.xmax - b.xmin)
      && (0.0 <= b.ymin < b.ymax <= 100.0 && 0.0 <= b.xmin < b.xmax <= 100.0 ==>
            s.height > 0.0 && s.width > 0.0 && s.top + s.height <= 100.0 && s.left + s.width <= 100.0)
  {
  }

  /** Selecting a supplement shows that supplement's name and location; the main result stands in for itself at -1. */
  lemma SelectionShowsItem(data: Recommendation, index: int, hasImage: bool, expanded: bool)
    requires data.matchType != WrongAisle
    ensures index == MainIndex ==>
      Render(data, index, hasImage, expanded).title == data.productName
      && Render(data, index, hasImage, expanded).location == data.locationDescription
    ensures SupplementAt(data, index).Some? ==>
      Render(data, index, hasImage, expanded).title == SupplementAt(data, index).value.productName
      && Render(data, index, hasImage, expanded).location == SupplementAt(data, index).value.locationDescription
  {
  }

  /** A substitute with score 82 shows the "Smart Substitute" badge and "82% Match". */
  lemma SubstituteScenario(data: Recommendation, hasImage: bool, expanded: bool)
    requires data.matchType == Substitute && data.matchScore == 82.0
    ensures Render(data, MainIndex, hasImage, expanded).statusLabel == "Smart Substitute"
    ensures Render(data, MainIndex, hasImage, expanded).score == Some(82.0)
  {
  }

  /**
   * The pill on a drawn box: "ALSO FOUND" for a supplement; in the main view "FOUND IT" for an
   * exact match and "BEST MATCH" for both substitute kinds. A wrong aisle draws no pill.
   */
  lemma PillTable(data: Recommendation, index: int, hasImage: bool, expanded: bool)
    ensures var v := Render(data, index, hasImage, expanded);
      v.pill.Some? <==> hasImage && data.matchType != WrongAisle && ActiveItem(data, index).boundingBox.Some?
    ensures var v := Render(data, index, hasImage, expanded);
      v.pill.Some? ==>
        v.pill.value == (if index != MainIndex then "ALSO FOUND" else match data.matchType
          case ExactMatch => "FOUND IT"
          case Substitute => "BEST MATCH"
          case FunctionalAlternative => "BEST MATCH"
          case WrongAisle => "BEST MATCH")
  {
  }

  /**
   * The shelf image is drawn iff there is one and the aisle is right; outside the wrong aisle
   * the two cue chips show the colour and shelf position of the selected item.
   */
  lemma ImageAndCuesRule(data: Recommendation, index: int, hasImage: bool, expanded: bool)
    ensures Render(data, index, hasImage, expanded).imageShown <==> hasImage && data.matchType != WrongAisle
    ensures Render(data, index, hasImage, expanded).cues.Some? <==> data.matchType != WrongAisle
    ensures index == MainIndex && data.matchType != WrongAisle ==>
      Render(data, index, hasImage, expanded).cues == Some((data.visualCues.color, data.visualCues.shelfPosition))
    ensures SupplementAt(data, index).Some? && data.matchType != WrongAisle ==>
      var cues := SupplementAt(data, index).value.visualCues;
      Render(data, index, hasImage, expanded).cues == Some((cues.color, cues.shelfPosition))
  {
  }

  /**
   * The collapsible analysis section: closed, it shows nothing. Open, it shows the selected
   * item's reasoning; the health tags, the nutrition note and the debug panel are main-view
   * only, the first two need content, the panel counts the items and the alternatives, and the
   * rejected list needs at least one candidate.
   */
  lemma AnalysisSection(data: Recommendation, index: int, hasImage: bool)
    ensures var closed := Render(data, index, hasImage, false);
      closed.reasoning.None? && closed.healthTags.None? && closed.nutrition.None?
      && closed.debug.None? && closed.rejected.None?
    ensures var open := Render(data, index, hasImage, true);
      && open.reasoning == Some(ActiveItem(data, index).reasoning)
      && (open.healthTags.Some? <==> index == MainIndex && |data.healthHighlights| > 0)
      && (open.healthTags.Some? ==> open.healthTags.value == data.healthHighlights)
      && (open.nutrition.Some? <==> index == MainIndex && data.nutritionalComparison != "")
      && (open.nutrition.Some? ==> open.nutrition.value == data.nutritionalComparison)
      && (open.debug.Some? <==> index == MainIndex)
      && (open.debug.Some? ==> open.debug.value == (data.detectedItemCount, |data.otherCandidates|))
      && (open.rejected.Some? <==> index == MainIndex && |data.otherCandidates| > 0)
      && (open.rejected.Some? ==> open.rejected.value == data.otherCandidates)
  {
  }

  /**
   * The card's own state: the selected item and whether the analysis section is open, kept
   * across renders, and the props of the latest render. React keeps this state when the same
   * card is rendered again with a new `data`.
   */
  class CardState {
    var selectedItemIndex: int
    var showAnalysis: bool
    var data: Recommendation
    var hasImage: bool

    /** The index is -1 or names one of the supplements of the current data. */
    ghost predicate Valid()
      reads this
    {
      selectedItemIndex == MainIndex || SupplementAt(data, selectedItemIndex).Some?
    }

    /** A freshly mounted card shows the main item with the analysis section closed. */
    constructor (data: Recommendation, hasImage: bool)
      ensures Valid()
      ensures selectedItemIndex == MainIndex && !showAnalysis
      ensures this.data == data && this.hasImage == hasImage
    {
      this.data := data;
      this.hasImage := hasImage;
      selectedItemIndex := MainIndex;
      showAnalysis := false;
    }

    /** A switcher button: -1 for the main item, or the index of a supplement. */
    method SelectItem(index: int)
      requires index == MainIndex || SupplementAt(data, index).Some?
      modifies this
      ensures Valid()
      ensures selectedItemIndex == index && showAnalysis == old(showAnalysis)
      ensures data == old(data) && hasImage == old(hasImage)
    {
      selectedItemIndex := index;
    }

    /** The analysis toggle. */
    method ToggleAnalysis()
      modifies this
      ensures selectedItemIndex == old(selectedItemIndex) && showAnalysis == !old(showAnalysis)
      ensures data == old(data) && hasImage == old(hasImage)
    {
      showAnalysis := !showAnalysis;
    }

    /**
     * A new render of the mounted card with other props, as the code is written: the
     * selection and the analysis flag are kept, even when the kept index names no supplement
     * of the new data.
     */
    method SetProps(data: Recommendation, hasImage: bool)
      modifies this
      ensures this.data == data && this.hasImage == hasImage
      ensures selectedItemIndex == old(selectedItemIndex) && showAnalysis == old(showAnalysis)
    {
      this.data := data;
      this.hasImage := hasImage;
    }

    /** A new result on the mounted card with the focus reset to the main item, as intended. */
    method LoadResult(data: Recommendation, hasImage: bool)
      modifies this
      ensures Valid()
      ensures this.data == data && this.hasImage == hasImage
      ensures selectedItemIndex == MainIndex && showAnalysis == old(showAnalysis)
    {
      this.data := data;
      this.hasImage := hasImage;
      selectedItemIndex := MainIndex;
    }

    /** What the card shows now. */
    function View(): CardView
      reads this
    {
      Render(data, selectedItemIndex, hasImage, showAnalysis)
    }

    /**
     * In any state, a shown switcher marks one button exactly when the index is -1 or names
     * a supplement of the current data, and none otherwise.
     */
    lemma MarksOneIffValid()
      ensures View().switcher.Some? ==> CountMarked(View().switcher.value) == (if Valid() then 1 else 0)
    {
      SwitcherMarksOne(data, selectedItemIndex);
    }
  }

  /** The data carries a supplement list of exactly `n` items. */
  predicate HasSupplements(data: Recommendation, n: nat)
  {
    data.supplementaryItems.Some? && |data.supplementaryItems.value| == n
  }

  /**
   * As written: supplement 2 of a three-supplement result is selected, then the same card
   * receives a result with one supplement. No switcher button is marked, the main data is
   * labelled as a supplement and its score is hidden.
   */
  method StaleSelectionAfterNewResult(first: Recommendation, second: Recommendation)
    returns (marked: nat, badge: string, title: string, score: Option<real>)
    requires HasSupplements(first, 3) && HasSupplements(second, 1) && second.matchType != WrongAisle
    ensures marked == 0 && badge == "Supplementary Item" && title == second.productName && score.None?
  {
    var card := new CardState(first, false);
    card.SelectItem(2);
    card.SetProps(second, false);
    card.MarksOneIffValid();
    var v := card.View();
    marked, badge, title, score := CountMarked(v.switcher.value), v.statusLabel, v.title, v.score;
  }

  /** With the focus reset, the same steps mark the main button and show the new result's score. */
  method FreshSelectionAfterNewResult(first: Recommendation, second: Recommendation)
    returns (marked: nat, badge: string, title: string, score: Option<real>)
    requires HasSupplements(first, 3) && HasSupplements(second, 1) && second.matchType != WrongAisle
    ensures marked == 1 && badge != "Supplementary Item" && title == second.productName
    ensures score == Some(second.matchScore)
  {
    var card := new CardState(first, false);
    card.SelectItem(2);
    card.LoadResult(second, false);
    card.MarksOneIffValid();
    var v := card.View();
    marked, badge, title, score := CountMarked(v.switcher.value), v.statusLabel, v.title, v.score;
  }
}
