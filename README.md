# ShelfSense core in Dafny

ShelfSense is a single-screen grocery assistant. The user photographs a shelf, types what they are looking for and picks their dietary tags. A vision model names the best match on the shelf, or a substitute, and says where it is. This project models the decision-making code around that call:

- The prompt embeds the query and the dietary profile.
- The model's reply text is cleaned up and checked.
- The grounding sources are filtered into `verifiedSources`.
- The screen's state machine runs through IDLE, ANALYZING, RESULT and ERROR.
- The history keeps the last five scans.
- The tag toggle and the theme selection live in the browser's local storage.
- The result card decides what it shows for the selected item.

Modules follow the source files:

| module | models |
|---|---|
| `Types` | `types.ts`: the record shapes, `MatchType`, `AppState` |
| `Constants` | `constants.ts`: storage keys, the `THEMES` table, the tag catalogue |
| `JsString` | the JavaScript string operations the core relies on: `trim`, global `replace` with a literal, `join`, `split` |
| `Storage` | `localStorage` as a class over a string map; JSON as an abstract `Codec` |
| `GeminiService` | `services/geminiService.ts` |
| `ScanHistoryHook`, `PreferencesHook`, `ThemeHook` | the three hooks |
| `RecommendationCard` | `components/RecommendationCard.tsx` |
| `Application` | `App.tsx` |

State that the source changes in place is modelled as a class with `modifies` clauses. This covers the hooks' `useState` values, the storage map, the card's selection and the application's six fields. Everything the source computes by expression is modelled as a function. The asynchronous analysis is modelled as completion events (success, failure, a failed file read). Each is applied whenever it arrives, with no check that it still belongs to the screen. An analysis request also carries the history list of the render that submitted it, because the code's success path saves through that render's closure.

Two behaviours the code does not have: the reply is not sliced from the first `{` to the last `}`, and a late completion is not discarded.

- The reply text is only stripped of fences and trimmed. Nothing is sliced from the first `{` to the last `}`. `GeminiService.CleanTextKeepsProse` shows that prose around the JSON survives.
- A completion that arrives after `resetApp` is not discarded. It still shows its result and is saved to history (`Application.LateResultAfterReset`).

## Model

| member | source | states |
|---|---|---|
| Types.ParseMatchType | types.ts:33 | a text accepted as a match type is exactly that type's literal |
| Types.MatchTypeClosed | types.ts:33 | each of the four match types has one of the four literals and reads back as itself |
| Types.AppStateNamesDistinct | types.ts:60-65 | the four application states have four distinct enumeration values |
| Constants.ThemeTableConsistent | constants.ts:8-13 | every `THEMES` entry's `id` is its own key; distinct keys name distinct themes |
| Constants.CatalogueTagsHaveNoComma | constants.ts:15-21 | no tag in the settings catalogue contains a comma |
| Storage.LocalStorage.SetItem | hooks/useScanHistory.ts:34 | `setItem` stores the value under the key and changes no other key |
| Storage.LocalStorage.RemoveItem | hooks/useScanHistory.ts:39 | `removeItem` deletes the key and nothing else |
| JsString.Trim | services/geminiService.ts:175 | the trimmed text is no longer than the input and has no whitespace at either end |
| JsString.TrimIsSlice | services/geminiService.ts:175 | trimming only cuts characters off the two ends |
| JsString.TrimDeletes | services/geminiService.ts:175 | trimming adds no character: every character occurs in the result at most as often as in the input |
| JsString.TrimTrimmed | services/geminiService.ts:175 | text with no whitespace at its ends is left unchanged by trimming |
| JsString.TrimIdempotent | services/geminiService.ts:175 | trimming twice is trimming once |
| JsString.RemoveAllDeletes | services/geminiService.ts:175 | a global replace with `''` only deletes: the result is no longer than the text and adds no character to it |
| JsString.RemoveAbsent | services/geminiService.ts:175 | a global replace of a pattern that does not occur leaves the text unchanged |
| JsString.RemoveFenceAbsent | services/geminiService.ts:175 | after removing every "```", no three consecutive backticks remain |
| JsString.RemoveFenceLeadingTicks | services/geminiService.ts:175 | removing every "```" leaves the leading run of backticks modulo three |
| JsString.SplitJoin | services/geminiService.ts:121 | splitting a `", "`-join of comma-free parts at `", "` returns the parts |
| GeminiService.ProfileText | services/geminiService.ts:121 | the profile is "None specified" for no tags and the tag itself for one tag |
| GeminiService.ProfileTextSplits | services/geminiService.ts:121 | a non-empty profile of comma-free tags lists exactly those tags, in order |
| GeminiService.CatalogueProfileSplits | services/geminiService.ts:121 | a non-empty profile of catalogue tags lists exactly those tags, in order |
| GeminiService.Prompt | services/geminiService.ts:119-121 | the prompt starts with the fixed lead, followed by the query verbatim and then the profile text verbatim |
| GeminiService.CleanTextDeletesOnly | services/geminiService.ts:175 | the clean-up before parsing only deletes characters: the result is no longer than the reply text and adds no character to it |
| GeminiService.CleanTextShape | services/geminiService.ts:175 | the cleaned text has no three consecutive backticks and no whitespace at either end |
| GeminiService.CleanTextIdempotent | services/geminiService.ts:175 | cleaning twice is cleaning once |
| GeminiService.CleanTextWithoutTicks | services/geminiService.ts:175-176 | text without backticks is only trimmed |
| GeminiService.CleanTextPlainUnchanged | services/geminiService.ts:175-176 | text without backticks or surrounding whitespace passes the clean-up unchanged |
| GeminiService.CleanTextKeepsProse | services/geminiService.ts:175-176 | prose before and after a JSON object is kept; no brace slicing happens |
| GeminiService.VerifiedSources | services/geminiService.ts:178-183 | the sources are at most as many as the chunks, and a source occurs iff some chunk's `web` is that source |
| GeminiService.VerifiedSourcesAppend | services/geminiService.ts:180-182 | the source filter works chunk by chunk, keeping chunk order |
| GeminiService.VerifiedSourcesAllWeb | services/geminiService.ts:180-183 | when every chunk has a `web` entry, the sources are exactly those entries, one per chunk, in order |
| GeminiService.AnalyzeShelfImage | services/geminiService.ts:150-190 | every failure carries the one message; a transport error, or a missing or empty text, fails without parsing; success iff the cleaned text parses; with chunks present, `verifiedSources` is replaced by the filtered sources; otherwise the parsed data is returned untouched |
| ScanHistoryHook.DecimalString | hooks/useScanHistory.ts:22 | the id text is a non-empty string of decimal digits |
| ScanHistoryHook.DecimalRoundTrip | hooks/useScanHistory.ts:22 | the id text reads back as the clock value it was made from |
| ScanHistoryHook.DecimalStringInjective | hooks/useScanHistory.ts:22 | two ids are equal iff their clock values are |
| ScanHistoryHook.NewItem | hooks/useScanHistory.ts:21-30 | the entry keeps the data whole; its summary copies name, match type and location; its id is the clock's decimal text; its timestamp is the given time |
| ScanHistoryHook.Saved | hooks/useScanHistory.ts:32 | the new list has length min(old+1, 5), the new entry first, then the old entries in order; only entries beyond the fifth are dropped |
| ScanHistoryHook.SavedKeepsConsistent | hooks/useScanHistory.ts:21-32 | when every entry's summary is that of its own data, the same holds after a save; the list view never disagrees with the scan it opens |
| ScanHistoryHook.SaveAllWindow | hooks/useScanHistory.ts:32 | after any run of saves, the log is the five newest of all saved and earlier entries, newest first |
| ScanHistoryHook.ScanHistory.constructor | hooks/useScanHistory.ts:7 | the history starts empty |
| ScanHistoryHook.ScanHistory.Load | hooks/useScanHistory.ts:9-18 | the stored list is adopted only when the stored text is non-empty and parses; otherwise the list is unchanged |
| ScanHistoryHook.ScanHistory.SaveToHistory | hooks/useScanHistory.ts:20-35 | the list becomes `Saved(rendered, NewItem(...))`, at most five entries with the data first, where `rendered` is the list of the render whose closure is called; storage holds the encoding of the new list and no other key changes |
| ScanHistoryHook.ScanHistory.ClearHistory | hooks/useScanHistory.ts:37-40 | the list is empty and the history key is removed from storage; no other key changes |
| ScanHistoryHook.SaveThenRemount | hooks/useScanHistory.ts:9-34 | when the saved list's text reads back as that list, a fresh hook on the same storage loads exactly the list the save produced |
| PreferencesHook.Without | hooks/useGlobalPreferences.ts:21 | the filtered list has every occurrence of the tag removed and every other tag's count unchanged |
| PreferencesHook.WithoutAppend | hooks/useGlobalPreferences.ts:21 | the filter keeps the other tags in their relative order |
| PreferencesHook.WithoutAbsent | hooks/useGlobalPreferences.ts:21 | filtering out a tag that is not there changes nothing |
| PreferencesHook.Toggled | hooks/useGlobalPreferences.ts:20-22 | the toggled tag's membership flips and no other tag's membership changes; an absent tag is appended once, at the end, growing the list by one |
| PreferencesHook.ToggleTwiceAbsent | hooks/useGlobalPreferences.ts:20-22 | toggling an absent tag twice restores the exact list |
| PreferencesHook.ToggleTwicePresent | hooks/useGlobalPreferences.ts:20-22 | toggling a present tag twice restores membership, with the tag moved to the end once |
| PreferencesHook.ToggleKeepsDistinct | hooks/useGlobalPreferences.ts:20-22 | a duplicate-free list stays duplicate-free |
| PreferencesHook.GlobalPreferences.constructor | hooks/useGlobalPreferences.ts:6 | the tags start empty |
| PreferencesHook.GlobalPreferences.Load | hooks/useGlobalPreferences.ts:8-17 | the stored tags are adopted only when the stored text is non-empty and parses; otherwise the list is unchanged |
| PreferencesHook.GlobalPreferences.ToggleTag | hooks/useGlobalPreferences.ts:19-26 | the tags become the toggled list, and storage holds its encoding |
| PreferencesHook.ToggleThenRemount | hooks/useGlobalPreferences.ts:8-25 | when the new list's text reads back as that list, a fresh hook on the same storage loads the toggled list |
| ThemeHook.ParseThemeId | hooks/useTheme.ts:12 | a text is accepted iff it is one of the four theme keys, and then it names that theme |
| ThemeHook.ThemeIdRoundTrip | hooks/useTheme.ts:22 | the key `changeTheme` stores is read back as the same theme |
| ThemeHook.ThemeState.constructor | hooks/useTheme.ts:7 | the initial theme is `default` |
| ThemeHook.ThemeState.Load | hooks/useTheme.ts:9-18 | a stored id is adopted only if it names a `THEMES` entry; otherwise the current id stays |
| ThemeHook.ThemeState.ChangeTheme | hooks/useTheme.ts:20-23 | the current id becomes `id`, its key is stored, and the stored key reads back as `id` |
| ThemeHook.ChangeThenRemount | hooks/useTheme.ts:9-23 | after `changeTheme(id)`, a fresh hook on the same storage restores `id` |
| ThemeHook.ThemeState.Theme | hooks/useTheme.ts:25 | the theme is the `THEMES` entry of the current id, and its `id` is the current id |
| RecommendationCard.ActiveItem | components/RecommendationCard.tsx:34-36 | index -1 gives the main item; an in-range index gives that supplement; any other index, or no supplements, falls back to the main item |
| RecommendationCard.LocatorBox | components/RecommendationCard.tsx:62-79 | a box is drawn iff there is an image, the aisle is not wrong and the active item has a bounding box; its far edges are `ymax` and `xmax` |
| RecommendationCard.BoxGeometry | components/RecommendationCard.tsx:74-79 | top = ymin, left = xmin, height = ymax-ymin, width = xmax-xmin; with ordered edges in 0..100 the box has positive size and stays inside the image |
| RecommendationCard.Render | components/RecommendationCard.tsx:62-279 | a box is drawn only on a shown image and always with its pill; the rejected list appears only inside the debug panel |
| RecommendationCard.PillTable | components/RecommendationCard.tsx:71-89 | the pill appears iff a box is drawn; it reads "ALSO FOUND" for a supplement, "FOUND IT" for an exact match and "BEST MATCH" for both substitute kinds |
| RecommendationCard.ImageAndCuesRule | components/RecommendationCard.tsx:62-166 | the image is drawn iff there is one and the aisle is right; outside the wrong aisle the two chips show the colour and shelf position of the main item at -1 and of the selected supplement otherwise |
| RecommendationCard.AnalysisSection | components/RecommendationCard.tsx:217-279 | the closed section shows nothing; the open one shows the selected item's reasoning; health tags (non-empty), nutrition note (non-empty), debug panel and rejected list (non-empty) appear only in the main view; the panel shows the item count and the number of alternatives |
| RecommendationCard.StatusLabelTable | components/RecommendationCard.tsx:115 | the label is "Supplementary Item" off the main view; otherwise "Location Alert", "Exact Match" or "Smart Substitute", the last for both substitute kinds |
| RecommendationCard.ScoreVisibility | components/RecommendationCard.tsx:117-121 | the score is shown iff the aisle is not wrong and the main item is selected, and it is `matchScore` |
| RecommendationCard.WrongAisleSuppresses | components/RecommendationCard.tsx:62-166 | for a wrong aisle, whichever item is selected: the title is "Wrong Aisle Detected"; no image, box, pill, cue chips, score or link is shown; the label is "Location Alert" or "Supplementary Item" |
| RecommendationCard.SupplementViewHidesMainOnly | components/RecommendationCard.tsx:129-279 | off the main view there is no link, health tags, nutrition note, debug panel, rejected list or score |
| RecommendationCard.VerifiedLinkRule | components/RecommendationCard.tsx:129-133 | the link is shown iff the main item is selected, the aisle is not wrong and there is at least one source; it points at the first source |
| RecommendationCard.SelectionShowsItem | components/RecommendationCard.tsx:125-156 | outside the wrong aisle, the title and location are the main item's at -1 and the selected supplement's for its index |
| RecommendationCard.SwitcherMarksOne | components/RecommendationCard.tsx:172-208 | the switcher appears iff there are supplements; it has one button per item plus the main one; exactly one is marked for -1 or a supplement's index, none otherwise |
| RecommendationCard.SubstituteScenario | components/RecommendationCard.tsx:115-119 | a substitute scored 82, in the main view, shows "Smart Substitute" and the score 82 |
| RecommendationCard.CardState.constructor | components/RecommendationCard.tsx:13-18 | a mounted card shows the main item with the analysis section closed |
| RecommendationCard.CardState.SelectItem | components/RecommendationCard.tsx:178-196 | a switcher click selects -1 or a supplement index and leaves the analysis section and the props as they were |
| RecommendationCard.CardState.ToggleAnalysis | components/RecommendationCard.tsx:217 | the analysis section flips; the selection and the props stay |
| RecommendationCard.CardState.SetProps | components/RecommendationCard.tsx:12-18 | a new render of the mounted card takes the new data and image flag and keeps the selection and the analysis flag (see Findings) |
| RecommendationCard.CardState.LoadResult | components/RecommendationCard.tsx:12-18 | a new result resets the focus to the main item, so the state is valid again |
| RecommendationCard.CardState.MarksOneIffValid | components/RecommendationCard.tsx:180-204 | in any card state, a shown switcher marks one button when the index is -1 or names a supplement of the current data, and none otherwise |
| RecommendationCard.StaleSelectionAfterNewResult | components/RecommendationCard.tsx:34-38 | as written, supplement 2 stays selected when the card gets a result with one supplement: no button is marked, the label is "Supplementary Item" over the main product's name, and the score is hidden |
| RecommendationCard.FreshSelectionAfterNewResult | components/RecommendationCard.tsx:115-121 | with the focus reset, the same steps mark one button, give a main-view label and show the new score |
| Application.App.constructor | App.tsx:16-29 | the screen starts in IDLE with empty inputs and no result; each hook has run its load on the shared storage |
| Application.App.ScreenIsFormOrCard | App.tsx:135-227 | in a valid state, the form is shown iff the result card is not |
| Application.App.SubmitEnabledForGuardedInput | App.tsx:181 | the button is disabled in ANALYZING; outside it, a photo or a query that is not blank after trimming enables it, so the button never blocks a submit the guard of App.tsx:41-48 would take |
| Application.App.SetSearchQuery | App.tsx:170 | only the query changes |
| Application.App.SetShowSettings | App.tsx:107-113 | only the settings flag changes |
| Application.App.HandleCapture | App.tsx:31-34 | the image is set and the message cleared; nothing else changes |
| Application.App.HandleClearImage | App.tsx:36-38 | only the image is cleared |
| Application.App.HandleAnalyze | App.tsx:40-77 | a blank trimmed query sets the query message first; a missing image sets the photo message; in both cases the state is unchanged. Otherwise the message is cleared, the state is ANALYZING and the request carries the image, query, tags and the current history. A synchronous file error gives ERROR with the file message |
| Application.App.AnalysisSucceededAsWritten | App.tsx:58-66 | the result is set and the state is RESULT; the history becomes the new entry prepended to the submit-time list (and storage with it), undoing any clear or save since the submit (see Findings) |
| Application.App.AnalysisSucceeded | App.tsx:62-66 | the corrected completion: the result is set, the state is RESULT, and the entry is prepended once to the history as it is on arrival (and storage with it) |
| Application.App.ClearHistory | App.tsx:207-214 | the history is emptied and its storage key removed; the screen's fields stay and the state stays valid |
| Application.App.AnalysisFailed | App.tsx:67-71 | the state is ERROR with the fixed message; result and history are untouched |
| Application.App.ReadFailedAsWritten | App.tsx:58-60 | a read that fails after starting changes no state (see Findings) |
| Application.App.ReadFailed | App.tsx:73-76 | a read failure gives ERROR with "Error processing image file." |
| Application.App.ResetApp | App.tsx:79-86 | IDLE, with no result, image, message or query |
| Application.App.LoadHistoryItem | App.tsx:88-94 | the stored recommendation is shown in RESULT without an image, so no locator box can be drawn; settings close; message and query stay |
| Application.ReadFailureStaysAnalyzing | App.tsx:58-76 | as written, a read failure after a valid submit leaves the screen in ANALYZING with the button disabled and no error banner |
| Application.ReadFailureReportsError | App.tsx:73-76 | with the failure handled, the same steps end in ERROR with the file message, the banner shown and the button enabled |
| Application.LateResultAfterReset | App.tsx:58-84 | a result arriving after a reset still shows in RESULT and becomes the newest history entry |
| Application.ClearDuringAnalysisRestores | App.tsx:58-66 | as written, clearing a one-scan history from the recent-scans list, which is on screen during an analysis, is undone when the analysis succeeds: the history and its stored text hold the new scan and the cleared one |
| Application.ClearDuringAnalysisKept | App.tsx:62-66 | saving onto the list as it is on arrival, the same steps leave only the new scan |
| Application.GuardOrder | App.tsx:41-48 | with a blank query and no image, the query message wins and the state stays IDLE |
| Application.EnabledSubmitStillGuarded | App.tsx:41-44 | a query of spaces with an image enables the button (it tests the untrimmed query); the submit is still rejected with the query message |

## Left out

- The model service call is left out: the client, `generateContent`, the search tool, the model name and the temperature. It is replaced by the `Reply` value it produced. Whether it threw is `TransportFailure`. The text and the `candidates[0].groundingMetadata.groundingChunks` chain are optional values.
- `JSON.parse` and `JSON.stringify` are left out. They are library code. The reply is parsed by an uninterpreted `parse` parameter, and storage uses a `Codec` of two function values. A parse that yields a value of the wrong shape, such as `null` or a number, counts as a parse failure. The code would store such a value instead.
- The code casts the parsed reply to its record type without checking it (services/geminiService.ts:176). The model's `MatchType` is closed, so a reply whose `matchType` is none of the four literals is not modelled. The code would show such a reply as a "Smart Substitute" with its score, and with the "BEST MATCH" pill (components/RecommendationCard.tsx:89, 115-121). `Types.ParseMatchType` and `Types.MatchTypeClosed` describe the four literals. They are not a check the code makes.
- The fixed body of the prompt (the interpretation rules and the embedded `SCHEMA_DEFINITION`) is the `instructions` parameter of `GeminiService.Prompt`. It has no interpolation beyond the query and the profile.
- Reading the image as base64 (`FileReader`, `split(',')`) is left out; the image is an opaque handle. Whether starting the read throws is the `readThrows` parameter. A failure after the read has started is the `ReadFailed*` event.
- `Date.now()` is left out. The two clock readings are the parameters `idClock` and `timestamp`.
- Storage exceptions (a browser that refuses `localStorage`) are left out. The three mount effects catch a failing read and log it. A load with nothing to read behaves like that swallowed error.
- Failing storage writes are left out. `saveToHistory`, `clearHistory`, `toggleTag` and `changeTheme` call storage without a `try`. A refused write inside `saveToHistory` reaches the inner `catch` of App.tsx:67-71. The screen would then show ERROR with "Could not analyze the image…" after the result and the history were already set. The model's storage never refuses a write.
- The console logs are left out: those of the mount effects, services/geminiService.ts:188 and App.tsx:68.
- The card's mounting inside the screen (App.tsx:220-227) is not part of `Application`. The same card stays mounted while `result` changes in RESULT, which `RecommendationCard.CardState.SetProps` models on its own.
- `window.scrollTo`, `URL.createObjectURL`/`revokeObjectURL`, the transient `imageSrc` state of the card, all Tailwind class strings and colours, and the presentation components are left out. The presentation components are SettingsModal, SearchForm, CameraCapture, Header and RecentScans. The card's image is drawn when the app passes an image, that is, `hasImage` is true.
- RecommendationCard.ScoreShown: the score is a number, and so is the shown figure. Formatting it as "N% Match" text is not modelled.
- RecommendationCard.DebugCounts: the `|| 0` defaults are the identity on well-typed data. `detectedItemCount` is an integer and `otherCandidates` a list. NaN and missing fields are not modelled.
- Numbers of the result (`matchScore`, box edges) are modelled as `real`. Floating-point rounding is not modelled.
- `THEMES[storedTheme]` would also accept inherited object keys. `ThemeHook.ParseThemeId` accepts exactly the four ids.

## Findings

| source | as written | input that shows it | evidently intended | confidence | as-written member | corrected member |
|---|---|---|---|---|---|---|
| App.tsx:58-76 | The read-complete callback dereferences `reader.result` before its own `try`. The outer `try`/`catch` has already finished when the callback runs. | A valid submit whose file read fails after starting. `onloadend` runs with `reader.result === null`, and `null.split(',')` throws outside every handler. | The file-error path: ERROR with "Error processing image file.", with the button usable again. | not executed; high | Application.App.ReadFailedAsWritten, with Application.ReadFailureStaysAnalyzing (stuck in ANALYZING, button disabled) | Application.App.ReadFailed, with Application.ReadFailureReportsError (ERROR, file message, button enabled) |
| App.tsx:58-66 | The success path calls the `saveToHistory` of the render that submitted. That closure prepends to the `history` of that render (hooks/useScanHistory.ts:32-34). | History `[x]`, a valid submit, then a clear from the recent-scans list, which is still shown in ANALYZING. Then the analysis succeeds. | The clear stays: the history and its stored text hold only the new scan. | not executed; high | Application.App.AnalysisSucceededAsWritten, with Application.ClearDuringAnalysisRestores (the cleared `x` is back) | Application.App.AnalysisSucceeded, with Application.ClearDuringAnalysisKept (only the new scan) |
| components/RecommendationCard.tsx:18, 34-38 | The selected index is kept when the mounted card gets a new `data`. | While ANALYZING, open a recent scan with three supplements and select supplement 2. The pending analysis then succeeds with one supplement. | The focus returns to the main item whenever a new result is loaded. | not executed; high | RecommendationCard.CardState.SetProps, with RecommendationCard.StaleSelectionAfterNewResult (no button marked, main data labelled as a supplement, score hidden) | RecommendationCard.CardState.LoadResult, with RecommendationCard.FreshSelectionAfterNewResult (one button marked, score shown) |
