/**
 * App.tsx: the screen's state machine (IDLE, ANALYZING, RESULT, ERROR) and its six state
 * fields, driven by the user's handlers and by the completion events of an analysis.
 */
module Application {
  import opened Wrappers
  import opened Types
  import opened JsString
  import opened Storage
  import opened Constants
  import opened ScanHistoryHook
  import opened PreferencesHook
  import opened ThemeHook
  import RecommendationCard

  const MsgDescribe: string := "Please describe what you are looking for."
  const MsgNeedPhoto: string := "We need a photo of the shelf first."
  const MsgAnalysisFailed: string := "Could not analyze the image. Please ensure the shelf is well-lit and try again."
  const MsgFileError: string := "Error processing image file."

  /** The captured image; its bytes never enter the model. */
  datatype ImageFile = ImageFile(handle: nat)

  /**
   * What a started analysis carries: the image, the query and the dietary tags it sends, and
   * the history list of the render that submitted it, which its `saveToHistory` closure sees.
   */
  datatype AnalysisRequest = AnalysisRequest(
    image: ImageFile, query: string, tags: seq<string>, historyAtSubmit: seq<ScanHistoryItem>)

  class App {
    var appState: AppState
    var searchQuery: string
    var imageFile: Option<ImageFile>
    var result: Option<Recommendation>
    var errorMsg: string
    var showSettings: bool
    const storage: LocalStorage
    const theme: ThemeState
    const history: ScanHistory
    const prefs: GlobalPreferences

    /** All three hooks share one storage, and the RESULT state always has a result to show. */
    ghost predicate Valid()
      reads this
    {
      && theme.storage == storage && history.storage == storage && prefs.storage == storage
      && (appState == ResultShown ==> result.Some?)
    }

    /** The first render: empty inputs in IDLE, and each hook's mount effect run on the shared storage. */
    constructor (storage: LocalStorage, historyCodec: Codec<seq<ScanHistoryItem>>, prefsCodec: Codec<seq<string>>)
      ensures Valid() && this.storage == storage
      ensures fresh(theme) && fresh(history) && fresh(prefs)
      ensures appState == Idle && searchQuery == "" && imageFile.None? && result.None?
      ensures errorMsg == "" && !showSettings
      ensures var stored := storage.GetItem(HistoryKey);
        history.history == if Truthy(stored) && historyCodec.decode(stored.value).Some?
          then historyCodec.decode(stored.value).value else []
      ensures var stored := storage.GetItem(GlobalPrefsKey);
        prefs.globalTags == if Truthy(stored) && prefsCodec.decode(stored.value).Some?
          then prefsCodec.decode(stored.value).value else []
      ensures var stored := storage.GetItem(ThemeKey);
        theme.currentThemeId == if stored.Some? && ParseThemeId(stored.value).Some?
          then ParseThemeId(stored.value).value else Default
    {
      var t := new ThemeState(storage);
      t.Load();
      var h := new ScanHistory(storage, historyCodec);
      h.Load();
      var p := new GlobalPreferences(storage, prefsCodec);
      p.Load();
      this.storage := storage;
      theme, history, prefs := t, h, p;
      appState := Idle;
      searchQuery := "";
      imageFile := None;
      result := None;
      errorMsg := "";
      showSettings := false;
    }

    /** The form and the capture area are shown in every state but RESULT. */
    predicate FormShown()
      reads this
    {
      appState == Idle || appState == Analyzing || appState == Error
    }

    /** The submit button is disabled while analysing, or when both image and (untrimmed) query are missing. */
    predicate SubmitDisabled()
      reads this
    {
      appState == Analyzing || (imageFile.None? && searchQuery == "")
    }

    /** The result card is shown in RESULT when there is a result. */
    predicate CardShown()
      reads this
    {
      appState == ResultShown && result.Some?
    }

    /** The error banner is shown whenever the message is non-empty. */
    predicate ErrorShown()
      reads this
    {
      errorMsg != ""
    }

    /** The recent-scans list is part of the form and needs at least one entry. */
    predicate RecentScansShown()
      reads this, history
    {
      FormShown() && |history.history| > 0
    }

    /** Exactly one of form and card is on screen in a valid state. */
    lemma ScreenIsFormOrCard()
      requires Valid()
      ensures FormShown() <==> !CardShown()
    {
    }

    /**
     * The button never blocks a submit the guard would take: outside ANALYZING, a photo or a
     * query that is not blank after trimming enables it. While analysing it is always disabled.
     */
    lemma SubmitEnabledForGuardedInput()
      ensures appState != Analyzing && (imageFile.Some? || Trim(searchQuery) != "") ==> !SubmitDisabled()
      ensures appState == Analyzing ==> SubmitDisabled()
    {
      if searchQuery == "" {
        TrimTrimmed(searchQuery);
      }
    }

    /** `setSearchQuery`, as the search form calls it. */
    method SetSearchQuery(q: string)
      modifies this
      ensures Valid() == old(Valid())
      ensures searchQuery == q
      ensures appState == old(appState) && imageFile == old(imageFile) && result == old(result)
      ensures errorMsg == old(errorMsg) && showSettings == old(showSettings)
    {
      searchQuery := q;
    }

    /** Opening or closing the settings dialog. */
    method SetShowSettings(open: bool)
      modifies this
      ensures Valid() == old(Valid())
      ensures showSettings == open
      ensures appState == old(appState) && searchQuery == old(searchQuery) && imageFile == old(imageFile)
      ensures result == old(result) && errorMsg == old(errorMsg)
    {
      showSettings := open;
    }

    /** `handleCapture`: keep the new image and clear the message. */
    method HandleCapture(file: ImageFile)
      modifies this
      ensures Valid() == old(Valid())
      ensures imageFile == Some(file) && errorMsg == ""
      ensures appState == old(appState) && searchQuery == old(searchQuery) && result == old(result)
      ensures showSettings == old(showSettings)
    {
      imageFile := Some(file);
      errorMsg := "";
    }

    /** `handleClearImage`: drop the image and nothing else. */
    method HandleClearImage()
      modifies this
      ensures Valid() == old(Valid())
      ensures imageFile.None?
      ensures appState == old(appState) && searchQuery == old(searchQuery) && result == old(result)
      ensures errorMsg == old(errorMsg) && showSettings == old(showSettings)
    {
      imageFile := None;
    }

    /**
     * `handleAnalyze`. A query that is blank after trimming is rejected first, a missing image
     * second; both only set their message. Otherwise the message is cleared and the state is
     * ANALYZING, and the analysis of the current image, query and tags is pending; it also
     * holds the current history, as the closures of this render do. When starting
     * to read the file throws at once (`readThrows`), the state is ERROR with the file message.
     */
    method HandleAnalyze(readThrows: bool) returns (pending: Option<AnalysisRequest>)
      requires Valid()
      modifies this
      ensures Valid()
      ensures searchQuery == old(searchQuery) && imageFile == old(imageFile) && result == old(result)
      ensures showSettings == old(showSettings)
      ensures Trim(searchQuery) == "" ==>
        errorMsg == MsgDescribe && appState == old(appState) && pending.None?
      ensures Trim(searchQuery) != "" && imageFile.None? ==>
        errorMsg == MsgNeedPhoto && appState == old(appState) && pending.None?
      ensures Trim(searchQuery) != "" && imageFile.Some? && readThrows ==>
        appState == Error && errorMsg == MsgFileError && pending.None?
      ensures Trim(searchQuery) != "" && imageFile.Some? && !readThrows ==>
        appState == Analyzing && errorMsg == ""
        && pending == Some(AnalysisRequest(imageFile.value, searchQuery, prefs.globalTags, history.history))
    {
      if Trim(searchQuery) == "" {
        errorMsg := MsgDescribe;
        return None;
      }
      if imageFile.None? {
        errorMsg := MsgNeedPhoto;
        return None;
      }
      errorMsg := "";
      appState := Analyzing;
      if readThrows {
        appState := Error;
        errorMsg := MsgFileError;
        return None;
      }
      pending := Some(AnalysisRequest(imageFile.value, searchQuery, prefs.globalTags, history.history));
    }

    /**
     * The analysis of `req` resolved with `rec`, as the code is written: show it, enter RESULT,
     * and save it through the `saveToHistory` of the submitting render, which prepends it to
     * the history that render saw. A clear or a save since the submit is overwritten.
     */
    method AnalysisSucceededAsWritten(req: AnalysisRequest, rec: Recommendation, idClock: nat, timestamp: int)
      requires Valid()
      modifies this, history, storage
      ensures Valid()
      ensures result == Some(rec) && appState == ResultShown
      ensures history.history == Saved(req.historyAtSubmit, NewItem(rec, idClock, timestamp))
      ensures storage.items == old(storage.items)[HistoryKey := history.codec.encode(history.history)]
      ensures searchQuery == old(searchQuery) && imageFile == old(imageFile)
      ensures errorMsg == old(errorMsg) && showSettings == old(showSettings)
    {
      result := Some(rec);
      history.SaveToHistory(req.historyAtSubmit, rec, idClock, timestamp);
      appState := ResultShown;
    }

    /**
     * The analysis resolved with `rec`, with the entry prepended to the history as it is when
     * the result arrives: show it, save it once onto the current list, enter RESULT.
     */
    method AnalysisSucceeded(rec: Recommendation, idClock: nat, timestamp: int)
      requires Valid()
      modifies this, history, storage
      ensures Valid()
      ensures result == Some(rec) && appState == ResultShown
      ensures history.history == Saved(old(history.history), NewItem(rec, idClock, timestamp))
      ensures storage.items == old(storage.items)[HistoryKey := history.codec.encode(history.history)]
      ensures searchQuery == old(searchQuery) && imageFile == old(imageFile)
      ensures errorMsg == old(errorMsg) && showSettings == old(showSettings)
    {
      result := Some(rec);
      history.SaveToHistory(history.history, rec, idClock, timestamp);
      appState := ResultShown;
    }

    /** `clearHistory` from the recent-scans list or the settings: the screen's own fields stay. */
    method ClearHistory()
      requires Valid()
      modifies history, storage
      ensures Valid()
      ensures history.history == [] && storage.items == old(storage.items) - {HistoryKey}
    {
      history.ClearHistory();
    }

    /** The analysis failed: ERROR with the fixed message; result and history are untouched. */
    method AnalysisFailed()
      requires Valid()
      modifies this
      ensures Valid()
      ensures appState == Error && errorMsg == MsgAnalysisFailed
      ensures result == old(result) && searchQuery == old(searchQuery) && imageFile == old(imageFile)
      ensures showSettings == old(showSettings)
    {
      appState := Error;
      errorMsg := MsgAnalysisFailed;
    }

    /**
     * Reading the file failed after the read had started, as the code is written: the load-end
     * callback dereferences the missing read result before its own `try`, and the outer `catch`
     * has already returned, so the error escapes and no state changes.
     */
    method ReadFailedAsWritten()
      requires Valid()
      modifies this
      ensures Valid()
      ensures appState == old(appState) && errorMsg == old(errorMsg) && result == old(result)
      ensures searchQuery == old(searchQuery) && imageFile == old(imageFile) && showSettings == old(showSettings)
    {
    }

    /** Reading the file failed after the read had started, handled as the file-error path intends. */
    method ReadFailed()
      requires Valid()
      modifies this
      ensures Valid()
      ensures appState == Error && errorMsg == MsgFileError
      ensures result == old(result) && searchQuery == old(searchQuery) && imageFile == old(imageFile)
      ensures showSettings == old(showSettings)
    {
      appState := Error;
      errorMsg := MsgFileError;
    }

    /** `resetApp`: back to IDLE with no result, image, message or query. */
    method ResetApp()
      requires Valid()
      modifies this
      ensures Valid()
      ensures appState == Idle && result.None? && imageFile.None? && errorMsg == "" && searchQuery == ""
      ensures showSettings == old(showSettings)
    {
      appState := Idle;
      result := None;
      imageFile := None;
      errorMsg := "";
      searchQuery := "";
    }

    /**
     * `loadHistoryItem`: show the stored recommendation in RESULT without an image, so no
     * locator box can be drawn, and close the settings. Message and query are left as they were.
     */
    method LoadHistoryItem(item: ScanHistoryItem)
      requires Valid()
      modifies this
      ensures Valid()
      ensures result == Some(item.fullData) && imageFile.None? && appState == ResultShown && !showSettings
      ensures errorMsg == old(errorMsg) && searchQuery == old(searchQuery)
      ensures forall i :: RecommendationCard.LocatorBox(item.fullData, i, imageFile.Some?).None?
    {
      result := Some(item.fullData);
      imageFile := None;
      appState := ResultShown;
      showSettings := false;
    }
  }

  /**
   * With the code as written, a read failure after a valid submit leaves the screen in
   * ANALYZING with the button disabled and no error banner; only a reset, or opening a
   * recent scan, leaves it.
   */
  method ReadFailureStaysAnalyzing(hc: Codec<seq<ScanHistoryItem>>, pc: Codec<seq<string>>)
    returns (state: AppState, disabled: bool, banner: bool)
    ensures state == Analyzing && disabled && !banner
  {
    var storage := new LocalStorage(map[]);
    var app := new App(storage, hc, pc);
    var req := SubmitScan(app);
    app.ReadFailedAsWritten();
    state, disabled, banner := app.appState, app.SubmitDisabled(), app.ErrorShown();
  }

  /** With the read failure handled, the same steps end in ERROR, with the banner shown and the button enabled again. */
  method ReadFailureReportsError(hc: Codec<seq<ScanHistoryItem>>, pc: Codec<seq<string>>)
    returns (state: AppState, message: string, disabled: bool, banner: bool)
    ensures state == Error && message == MsgFileError && !disabled && banner
  {
    var storage := new LocalStorage(map[]);
    var app := new App(storage, hc, pc);
    var req := SubmitScan(app);
    app.ReadFailed();
    state, message, disabled, banner := app.appState, app.errorMsg, app.SubmitDisabled(), app.ErrorShown();
  }

  /**
   * Completions carry no session check: a result that arrives after a reset still takes the
   * screen to RESULT and is saved to history.
   */
  method LateResultAfterReset(hc: Codec<seq<ScanHistoryItem>>, pc: Codec<seq<string>>, rec: Recommendation)
    returns (state: AppState, shown: Option<Recommendation>, newest: Recommendation)
    ensures state == ResultShown && shown == Some(rec) && newest == rec
  {
    var storage := new LocalStorage(map[]);
    var app := new App(storage, hc, pc);
    var req := SubmitScan(app);
    app.ResetApp();
    app.AnalysisSucceededAsWritten(req, rec, 1, 1);
    state, shown, newest := app.appState, app.result, app.history.history[0].fullData;
  }

  /** Blank query and missing image together: the query message wins and the state does not move. */
  method GuardOrder(hc: Codec<seq<ScanHistoryItem>>, pc: Codec<seq<string>>)
    returns (state: AppState, message: string)
    ensures state == Idle && message == MsgDescribe
  {
    var storage := new LocalStorage(map[]);
    var app := new App(storage, hc, pc);
    app.SetSearchQuery("  ");
    var pending := app.HandleAnalyze(false);
    state, message := app.appState, app.errorMsg;
  }

  /**
   * The button tests the untrimmed query and the guard the trimmed one: with an image and a
   * query of spaces the button is enabled, and the submit is still rejected with the query message.
   */
  method EnabledSubmitStillGuarded(hc: Codec<seq<ScanHistoryItem>>, pc: Codec<seq<string>>)
    returns (enabled: bool, state: AppState, message: string)
    ensures enabled && state == Idle && message == MsgDescribe
  {
    var storage := new LocalStorage(map[]);
    var app := new App(storage, hc, pc);
    app.SetSearchQuery("  ");
    app.HandleCapture(ImageFile(0));
    enabled := !app.SubmitDisabled();
    var pending := app.HandleAnalyze(false);
    state, message := app.appState, app.errorMsg;
  }

  /** Type "oat milk", take photo 1 and submit: the app is ANALYZING with no message, and the request saw the current history. */
  method SubmitScan(app: App) returns (req: AnalysisRequest)
    requires app.Valid()
    modifies app
    ensures app.Valid() && app.appState == Analyzing && app.errorMsg == "" && app.imageFile == Some(ImageFile(1))
    ensures req.historyAtSubmit == app.history.history
  {
    app.SetSearchQuery("oat milk");
    app.HandleCapture(ImageFile(1));
    TrimTrimmed("oat milk");
    var pending := app.HandleAnalyze(false);
    req := pending.value;
  }

  /**
   * As written: with one scan `x` in the history, a new scan is submitted and the history is
   * cleared while it runs. The result is saved onto the list its submit saw, so `x` is back,
   * in memory and in storage.
   */
  method ClearDuringAnalysisRestores(app: App, x: ScanHistoryItem, rec: Recommendation)
    requires app.Valid() && app.history.history == [x]
    modifies app, app.history, app.storage
    ensures app.history.history == [NewItem(rec, 2, 2), x]
    ensures app.storage.GetItem(HistoryKey) == Some(app.history.codec.encode(app.history.history))
  {
    var req := SubmitScan(app);
    assert app.RecentScansShown();
    app.ClearHistory();
    app.AnalysisSucceededAsWritten(req, rec, 2, 2);
  }

  /** Saving onto the list as it is on arrival, the same steps keep the clear: only the new scan is left. */
  method ClearDuringAnalysisKept(app: App, x: ScanHistoryItem, rec: Recommendation)
    requires app.Valid() && app.history.history == [x]
    modifies app, app.history, app.storage
    ensures app.history.history == [NewItem(rec, 2, 2)]
    ensures app.storage.GetItem(HistoryKey) == Some(app.history.codec.encode(app.history.history))
  {
    var _ := SubmitScan(app);
    app.ClearHistory();
    app.AnalysisSucceeded(rec, 2, 2);
  }
}
