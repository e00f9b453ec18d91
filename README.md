# Moozi Lyrics: a verified model of the extension's decision logic

Moozi Lyrics is a browser extension with three parts. A content script reads song metadata
from the page the user is on. A background service worker routes messages, stores the
selection and calls a translation service and a metadata-validation service. A side panel
shows the selected lyrics next to their translation. A small library adds HTML formatters
and a language-code table.

This project models the logic under that wiring, in Dafny:

- `wrappers.dfy` (`Wrappers`): `Option`.
- `js_text.dfy` (`JsText`): the JavaScript string operations the code relies on.
  - `trim` with the exact ECMAScript white-space set, and `length` in UTF-16 units.
  - `includes`, and `replace` with a string or a case-insensitive literal pattern, first or global.
  - Anchored suffix and prefix strips, truthiness, `||` defaults and `join`.
- `patterns.dfy` (`Patterns`): the regular expressions of the content script.
  - The title patterns `PRE(.*)SEP(.*)SUF`, with the leftmost, greedy, backtracking semantics of JavaScript. `.` stops at line terminators and `/i` folds case.
  - The year token `\b\d{4}\b` and `\b(19|20)\d{2}\b`.
  - The lazy bracket strip `/\[.*?\]/g`.
- `song.dfy` (`Song`): the song metadata record, the translation payload and the messages the parts exchange.
- `content_script.dfy` (`ContentScript`): song-metadata extraction.
  - Host-name dispatch and the per-site cascades: Genius, AZLyrics, the four placeholder extractors and the generic extractor.
  - The title and artist clean-up.
  - The selection-length gate, the message listener and the badge's click handler.
  - The page is an input value: host name, URL, title, selection, a selector-to-element map and the parsed JSON-LD blocks.
- `side_panel.dfy` (`SidePanel`): the panel controller, a class whose fields are `currentState` and what the panel's elements show.
  - Five panels, the lyrics table, the explanation and the song card.
  - An outbox of messages and the saved language preference.
- `service_worker.dfy` (`ServiceWorker`): the background router, a class whose fields are the stored selection, the broadcasts, the tab messages, the opened panels and the HTTP requests sent.
  - Replies of the two services are inputs.
- `translator.dfy` (`Translator`): the library's formatters, the JSON fallback, the request-object builders and `swappedLanguageCodes`.
- `cross_part_agreement.dfy` (`CrossPartAgreement`): lemmas only, where the parts meet.
  - The worker's enhancement test against the panel's significance test.
  - The library's renderings against the panel's.
  - A service error as the panel receives it.

Loops in the source stay loops. This covers the selector loops that `break`, the candidate loops, the JSON-LD loops and the row-building `forEach`. Each is proved against a recursive function, and the properties are lemmas about that function.

One pass of the title clean-up removes a single trailing " lyrics", and one pass of the artist clean-up a single leading "lyrics by ". So a second pass can change the result again: `ContentScript.CleanTitleNotIdempotent` and `ContentScript.CleanArtistNotIdempotent` prove this on " lyrics lyrics" and "lyrics by lyrics by ".

Where the code has a defect, the model follows the code as written. `ContentScript.GeniusInfo` matches the Genius page title with the pattern exactly as written. `SidePanel.Controller.OnMessage` hands an enhancement to `HandleEnhancedMetadata` as written. The evidently intended versions, `ContentScript.GeniusInfoIntended` and `SidePanel.Controller.HandleEnhancedMetadataCorrected`, sit beside them, and "## Findings" relates the two.

## Model

| member | source | states |
|---|---|---|
| ContentScript.IsLyricsSiteIffSiteExtractor | content-scripts/content-script.js:5-39 | a host gets the badge (some domain pattern matches, ignoring case) exactly when dispatch picks a site-specific extractor rather than the generic one |
| ContentScript.LyricsComCoversOtherDomains | content-scripts/content-script.js:5-16 | `lyrics\.com` alone matches every azlyrics, metrolyrics and songlyrics host |
| ContentScript.IncludesCiLowered | content-scripts/content-script.js:15-24 | the case-insensitive pattern test and `includes` on the lowered host name agree for lower-case ASCII domains |
| ContentScript.MetroAndSongLyricsUnreachable | content-scripts/content-script.js:24-39 | dispatch never picks the MetroLyrics or SongLyrics extractor, because the `lyrics.com` test comes first |
| ContentScript.RunExtractor | content-scripts/content-script.js:19-39 | the dispatch chain runs the extractor the first passing `includes` test names |
| ContentScript.ExtractSongInfo | content-scripts/content-script.js:19-63 | the result is the site extractor's record with a non-empty title and artist cleaned and the page URL stamped |
| ContentScript.SongInfoStampsSourceAndUrl | content-scripts/content-script.js:59-62 | every result carries the page URL and its extractor's fixed source name, never metrolyrics.com or songlyrics.com |
| ContentScript.SongInfoYearIsToken | content-scripts/content-script.js:122-131 | a reported release year is four ASCII digits, starting with 19 or 20 on AZLyrics |
| ContentScript.SongInfoTitleIsClean | content-scripts/content-script.js:42-49 | a cleaned title has no bracketed group left on any line |
| ContentScript.CleanTitle | content-scripts/content-script.js:42-49 | the cleaned title has no white space at either end and no bracketed group |
| ContentScript.CleanArtist | content-scripts/content-script.js:51-57 | the cleaned artist has no white space at either end |
| ContentScript.CleanTitleOfPlainTitle | content-scripts/content-script.js:42-49 | a title with no " lyrics" ending, no "(Official Lyrics)" and no `[` is only trimmed |
| ContentScript.CleanArtistOfPlainArtist | content-scripts/content-script.js:51-57 | an artist with no " lyrics" ending and no "lyrics by " start is only trimmed |
| ContentScript.CleanTitleDropsOneSuffix | content-scripts/content-script.js:42-49 | a trimmed title without brackets that ends in " lyrics" loses exactly that ending |
| ContentScript.CleanTitleDropsOfficialLyrics | content-scripts/content-script.js:42-49 | the first "(Official Lyrics)", in any case, is cut out and the rest trimmed, for a title without brackets before it and no " lyrics" ending |
| ContentScript.CleanTitleNotIdempotent | content-scripts/content-script.js:42-49 | cleaning q + " lyrics lyrics" gives q + " lyrics", and cleaning that gives q |
| ContentScript.CleanArtistDropsSuffix | content-scripts/content-script.js:51-57 | a trimmed artist that does not start with "lyrics by " loses a trailing " lyrics" and nothing else |
| ContentScript.CleanArtistDropsOnePrefix | content-scripts/content-script.js:51-57 | "lyrics by " + r cleans to r when r is trimmed and does not end in " lyrics" |
| ContentScript.CleanArtistNotIdempotent | content-scripts/content-script.js:51-57 | "lyrics by lyrics by " + q cleans to "lyrics by " + q, which cleans to q |
| ContentScript.ConsultSelectors | content-scripts/content-script.js:93-113 | the selector loop with `break` computes the first-existing-element rule |
| ContentScript.FirstFoundWins | content-scripts/content-script.js:93-113 | the first selector that finds an element decides, even when its text is empty |
| ContentScript.NothingFoundKeeps | content-scripts/content-script.js:93-113 | when no selector finds an element the field keeps its value |
| ContentScript.ExtractSongInfoGenius | content-scripts/content-script.js:66-163 | the Genius extractor's steps compute its record with the title pattern as written: title pattern, selectors, album, year, structured data |
| ContentScript.GeniusTitlePatternWins | content-scripts/content-script.js:78-114 | for any title pattern, when it yields both fields, selectors and structured data are not consulted |
| ContentScript.GeniusSelectorsOverwrite | content-scripts/content-script.js:85-114 | for any title pattern, when it leaves a field empty, both selector lists are consulted: the first existing title element overwrites the title and the artist is what the artist list yields |
| ContentScript.GeniusArtistSelectorsOverwrite | content-scripts/content-script.js:104-113 | for any title pattern, when it leaves a field empty, the first existing artist element overwrites the artist, even with empty text |
| ContentScript.AsWrittenGeniusTitleMissesRealTitles | content-scripts/content-script.js:75-76 | the pattern as written never matches a title that contains no â |
| ContentScript.AsWrittenGeniusIgnoresTitle | content-scripts/content-script.js:75-114 | with the pattern as written, title and artist come from the selectors alone on such a title |
| ContentScript.GeniusTitleSplitsRealTitles | content-scripts/content-script.js:75-82 | the en-dash pattern splits "artist – song Lyrics \| Genius Lyrics" into exactly artist and song |
| ContentScript.GeniusReadsRealTitle | content-scripts/content-script.js:75-82 | on such a page the extractor with the intended pattern reports the trimmed artist and song |
| ContentScript.GeniusMissesRealTitle | content-scripts/content-script.js:66-163 | on a page with a real Genius title and nothing else to read, the extractor as written reports an empty title and artist, the intended one the song and artist |
| ContentScript.ReadLinkedDataGenius | content-scripts/content-script.js:134-149 | the Genius JSON-LD loop computes the fill-only-empty rule |
| ContentScript.LinkedDataKeepsSetFields | content-scripts/content-script.js:134-149 | structured data never replaces a title or artist that is already set |
| ContentScript.LinkedDataFirstNameFills | content-scripts/content-script.js:134-149 | an empty title takes the name of the first MusicRecording or BreadcrumbList block that has one |
| ContentScript.ExtractSongInfoAZLyrics | content-scripts/content-script.js:166-230 | the AZLyrics extractor's steps compute its record: title pattern or DOM fallbacks, album panel |
| ContentScript.AZLyricsYearNeedsAlbumPanel | content-scripts/content-script.js:202-216 | without the album panel both album and year stay empty |
| ContentScript.ExtractSongInfoGeneric | content-scripts/content-script.js:341-447 | the generic extractor's steps compute its record, including the all-empty result when `og:title` has no content |
| ContentScript.ReadLinkedDataGeneric | content-scripts/content-script.js:388-403 | the generic JSON-LD loop computes the overwrite rule |
| ContentScript.LastRecordingNameWins | content-scripts/content-script.js:388-403 | the title is the name of the last named MusicRecording block, whatever the pattern found |
| ContentScript.NoRecordingNameKeeps | content-scripts/content-script.js:388-403 | without a named MusicRecording block the title is what the pattern found |
| ContentScript.FillFromCandidates | content-scripts/content-script.js:417-433 | the candidate loop computes the fill-only-empty rule |
| ContentScript.CandidatesKeepSetField | content-scripts/content-script.js:417-433 | candidates never replace a field that is set |
| ContentScript.FirstCandidateFills | content-scripts/content-script.js:417-433 | an empty field takes the first candidate with non-blank text |
| ContentScript.GenericConfidenceRule | content-scripts/content-script.js:439-446 | confidence is "medium" exactly when title and artist are both non-empty, otherwise "low" |
| ContentScript.ProcessSelectedText | content-scripts/content-script.js:450-467 | one processHighlightedText message with the trimmed text and the page's song info when the trimmed selection is longer than ten UTF-16 units, none otherwise |
| ContentScript.SelectionGateByCharacters | content-scripts/content-script.js:452-454 | more than ten characters always pass the gate, at most five never do |
| ContentScript.OnMessage | content-scripts/content-script.js:470-474 | only processSelectedText makes the script send anything, and it sends at most the one selection message |
| ContentScript.OnBadgeClick | content-scripts/content-script.js:494-502 | a badge click sends openSidePanel, then the selection message when the gate passes |
| Patterns.Match | content-scripts/content-script.js:75-76 | the match found is a match, and the first one the backtracking matcher tries; none exists when it finds none |
| Patterns.MatchOfJoined | content-scripts/content-script.js:176-181 | a title a + SEP + b + SUF on one line, with no later SEP, matches with groups a and b |
| Patterns.FirstYear | content-scripts/content-script.js:127-130 | a year is found exactly when a standalone four-digit token exists, and it is the leftmost |
| Patterns.FirstYearIsToken | content-scripts/content-script.js:127-130 | the year found is four digits, starting with 19 or 20 for the AZLyrics pattern |
| Patterns.StripBracketsLeavesNoGroup | content-scripts/content-script.js:47 | after the global lazy strip no `[` has a closing `]` later on its line |
| Patterns.StripBracketsWithoutOpen | content-scripts/content-script.js:47 | text without `[` is left unchanged |
| Patterns.TrimKeepsNoBracketGroup | content-scripts/content-script.js:47-48 | trimming never creates a bracketed group |
| JsText.Trim | content-scripts/content-script.js:452 | the trimmed text is empty exactly when all of it is white space, and otherwise starts and ends with non-space |
| JsText.TrimIdempotent | content-scripts/content-script.js:452 | trimming twice is trimming once |
| JsText.Utf16Length | content-scripts/content-script.js:454 | the UTF-16 length lies between the number of characters and twice that |
| JsText.Find | content-scripts/content-script.js:24-35 | the index found is the first occurrence at or after the start; none is reported only when there is none |
| JsText.ReplaceAllChar | lib/translator.js:157 | replacing every line break by `<br>` leaves none, and adds three characters per line break |
| JsText.BreakLines | side-panel/side-panel.js:320-322 | the paragraph and line-break replacement leaves no line break |
| JsText.BreakLinesOfOneLine | side-panel/side-panel.js:320-322 | text on one line is unchanged |
| JsText.OrDefault | side-panel/side-panel.js:224 | `v \|\| fallback` is never empty, and is the fallback exactly when v is falsy or equals it |
| JsText.OrEmpty | background/service-worker.js:138-141 | `v \|\| ''` is empty exactly when v is falsy |
| JsText.DecimalRoundTrip | background/service-worker.js:148 | the decimal text of a status reads back as that status |
| SidePanel.ShowingExactlyOne | side-panel/side-panel.js:392-420 | after showPanel exactly one of the five panels is displayed, and an unknown name shows no-selection |
| SidePanel.RowsSound | side-panel/side-panel.js:264-293 | every row comes from an entry whose key is not blank |
| SidePanel.RowsComplete | side-panel/side-panel.js:264-293 | every entry whose key is not blank has its row |
| SidePanel.RowsOneToOne | side-panel/side-panel.js:264-293 | without blank keys there is one row per entry, in entry order, flagged has-overflow exactly when a side exceeds 100 UTF-16 units |
| SidePanel.RowsOfAppend | side-panel/side-panel.js:265 | the rows of two runs of entries are the rows of each, in order |
| SidePanel.ExplanationHtml | side-panel/side-panel.js:317-328 | the explanation markup contains no line break |
| SidePanel.OneLineExplanation | side-panel/side-panel.js:317-328 | a one-line, non-blank explanation is shown as one paragraph holding exactly its text |
| SidePanel.AlbumLine | side-panel/side-panel.js:350-367 | the album line is absent exactly when both album and year are falsy |
| SidePanel.SongInfoBadgeIffValidated | side-panel/side-panel.js:378-381 | the song card ends in the verified badge exactly when validatedByLLM is true |
| SidePanel.NoSignificantChangeFromItself | side-panel/side-panel.js:147-162 | metadata is never significantly different from itself |
| SidePanel.SignificantChangeNeedsIncomingField | side-panel/side-panel.js:165-183 | a record with no title, artist or album is never a significant change |
| SidePanel.Controller.constructor | side-panel/side-panel.js:17-22 | the panel starts with no text, empty metadata, no language and no translation data, having sent nothing |
| SidePanel.Controller.ShowPanel | side-panel/side-panel.js:392-420 | the display becomes the map that shows only the named panel |
| SidePanel.Controller.RequestTranslation | side-panel/side-panel.js:186-197 | the loading panel is shown and a request with the current text, language and metadata is sent |
| SidePanel.Controller.BuildRows | side-panel/side-panel.js:264-293 | the `forEach` over the entries builds exactly the rows of the row rule |
| SidePanel.Controller.UpdateTranslatedLyrics | side-panel/side-panel.js:236-314 | the table is the rows of an object, the one fallback row otherwise, and gone, with an exception, for null |
| SidePanel.Controller.UpdateExplanation | side-panel/side-panel.js:317-328 | the explanation element holds the explanation markup |
| SidePanel.Controller.UpdateSongInfo | side-panel/side-panel.js:331-389 | the card is shown exactly when the metadata has a title or artist, and then holds the card markup |
| SidePanel.Controller.ShowSelection | side-panel/side-panel.js:109-130 | the text and metadata are stored and the card updated (shown with its markup exactly when there is a headline); with a language a request is sent and the loading panel shown, otherwise the translation panel shows one placeholder row |
| SidePanel.Controller.Initialize | side-panel/side-panel.js:25-66 | the stored language is selected; stored text is shown as a new selection with its card: with a language a request is sent and the loading panel shown, without one the placeholder row; no stored text shows the no-selection panel and leaves text, metadata and card alone; translation data, explanation, error and saved preference are left alone |
| SidePanel.Controller.OnLanguageChange | side-panel/side-panel.js:89-100 | the language is recorded and saved; with highlighted text a request is sent and the loading panel shown, otherwise nothing is sent and the panel stays |
| SidePanel.Controller.OnRetry | side-panel/side-panel.js:103-105 | retry always sends the request and shows loading |
| SidePanel.Controller.HandleTranslationResult | side-panel/side-panel.js:200-220 | the data is stored; the table, explanation and translation panel follow, except for null lyrics, which stop after the table |
| SidePanel.Controller.HandleTranslationError | side-panel/side-panel.js:223-226 | the error panel shows the message, or the default one for an empty message |
| SidePanel.Controller.HandleEnhancedMetadata | side-panel/side-panel.js:147-162 | as written, the handler stores the record and updates the card (shown with its markup exactly when there is a headline), and never sends a request or changes the panel |
| SidePanel.Controller.HandleEnhancedMetadataCorrected | side-panel/side-panel.js:147-183 | stores the record and updates the card as the as-written handler does; re-translates, showing the loading panel, exactly when a translation is shown, a language is selected and the record differs significantly from the previous one; otherwise the outbox and panel stay |
| SidePanel.Controller.OnMessage | side-panel/side-panel.js:108-143 | each message reaches its handler, an enhancement the handler as written, which sends nothing and keeps the panel; the language and its saved preference never change |
| ServiceWorker.TranslateBodyOf | background/service-worker.js:135-144 | the body carries the text, the target language, the page URL and bypass_db true, and each metadata field's value when truthy, '' otherwise |
| ServiceWorker.ApiErrorDistinct | background/service-worker.js:147-149 | different statuses give different error messages |
| ServiceWorker.TranslationOutcome | background/service-worker.js:96-110 | an ok status with a parsed body gives that data; a non-ok status gives "API error: <status>"; a rejected fetch or an unparsable body gives its error message |
| ServiceWorker.ValidationRequest | background/service-worker.js:159-184 | no request exactly when title, artist and url are all falsy; otherwise each field is the metadata's value when truthy, '' otherwise, and confidence defaults to "medium" |
| ServiceWorker.MergeIdempotent | background/service-worker.js:193-202 | merging the same answer twice is merging it once |
| ServiceWorker.MergeKeepsGivenFields | background/service-worker.js:193-202 | no field the page gave is lost, source and url are kept, confidence becomes high and validatedByLLM true |
| ServiceWorker.MergeFillsMissingTitle | background/service-worker.js:193-202 | a truthy validated title wins |
| ServiceWorker.EnhancementDiffersIff | background/service-worker.js:49-52 | the merged record differs exactly when the service names a title, artist or album that differs from the page's |
| ServiceWorker.FailedValidationChangesNothing | background/service-worker.js:186-207 | a failed validation returns the original record, so no enhancement is broadcast |
| ServiceWorker.Background.OnInstalled | background/service-worker.js:6-12 | the side panel is enabled with its page |
| ServiceWorker.Background.OnActionClicked | background/service-worker.js:15-21 | the panel opens on the tab and the tab is asked for its selection |
| ServiceWorker.Background.ValidateMetadataWithLLM | background/service-worker.js:159-208 | the result is the merged or the original record; a request is made only past the guard |
| ServiceWorker.Background.ProcessHighlightedText | background/service-worker.js:26-84 | text and metadata are stored and broadcast, defaulting to {}; with a title or artist, validation runs and an enhancement is stored and broadcast exactly when it differs |
| ServiceWorker.Background.FetchTranslation | background/service-worker.js:126-156 | one request with the defaulted body; the outcome follows the status and body |
| ServiceWorker.Background.RequestTranslation | background/service-worker.js:87-112 | the request uses the active tab's URL or ''; the outcome is broadcast |
| ServiceWorker.Background.OpenSidePanel | background/service-worker.js:115-119 | a panel opens only for a sender with a tab |
| ServiceWorker.Background.OnMessage | background/service-worker.js:24-123 | each action reaches its branch; other messages change nothing |
| Translator.LowerCaseAliasesAgree | lib/translator.js:5-71 | each of the ten lower-case names repeats a capitalised entry with the same code |
| Translator.PairBlocksAppend | lib/translator.js:87-92 | the markup of two runs of entries is the markup of each, in order, blank keys included |
| Translator.PairBlocksLength | lib/translator.js:85-94 | the markup is a fixed frame per entry plus the entries' own text |
| Translator.FormatTranslationOfEmptyObject | lib/translator.js:80-95 | an empty object gives '' and null gives the notice |
| Translator.FormatLyricsDisplay | lib/translator.js:153-158 | '' for falsy lyrics; otherwise no line break is left and each one adds three characters |
| Translator.FormatLyricsOfOneLine | lib/translator.js:153-158 | lyrics on one line are returned unchanged |
| Translator.FormatExplanation | lib/translator.js:165-174 | the formatted explanation contains no line break |
| Translator.SafeParseJson | lib/translator.js:102-117 | parsable text gives its value; otherwise the fallback object with title translation "[Translation Failed]", the error explanation and detected language "unknown" |
| Translator.GeneratePromptData | lib/translator.js:125-132 | the title and artist are the song's when truthy, else "Unknown Song" and "Unknown Artist"; both target-language fields are the target |
| Translator.CreateSimplifiedSongObject | lib/translator.js:139-146 | the title and artist are the song's when truthy, else "Unknown Song" and "Unknown Artist"; song_art and isrc are null |
| Translator.PromptAndSongObjectAgree | lib/translator.js:125-146 | the prompt and the song object name the same song, "Unknown Song" when the title is missing |
| CrossPartAgreement.SignificantEnhancementIsBroadcast | side-panel/side-panel.js:165-183 | every merged answer the panel counts as significant was broadcast by the worker |
| CrossPartAgreement.ChangedAlbumIsNotSignificant | side-panel/side-panel.js:177-180 | a different album replacing an existing one is broadcast but is not significant |
| CrossPartAgreement.ExplanationRenderingsAgree | lib/translator.js:165-174 | the library and the panel render a non-blank explanation alike, and a missing one differently |
| CrossPartAgreement.BlankLineOnlyInLibraryMarkup | lib/translator.js:87-92 | a blank line gets a pair in the library's markup but no row in the panel |
| CrossPartAgreement.OneLineAnswerIsOneRow | side-panel/side-panel.js:200-220 | a one-line answer gives exactly one row pairing the line and its translation, and its one-line explanation one paragraph |
| CrossPartAgreement.ServerErrorIsReported | background/service-worker.js:96-110 | a status 500 reaches the panel as the error "API error: 500" |

## Left out

- The browser APIs (`chrome.storage`, `chrome.runtime.sendMessage`, `chrome.tabs`, `chrome.sidePanel`) are fields of the two classes: stored values, an outbox of broadcasts, tab messages and opened panels.
- `fetch` is modelled by its reply, passed in as a parameter. The request sent is recorded. The headers and the fixed `bypass_db` flag of the translation body are part of the body record.
- `document.querySelector` and CSS selector matching are a map from selector to element. `JSON.parse` of page scripts and of service payloads is an optional parsed value.
- The DOM, `innerHTML` and `style` are modelled as the rows, markup strings and display map they would hold. HTML escaping is not modelled, and neither is the table header, which never changes.
- Console logging and the generic extractor's `hints` strings are left out: nothing reads them.
- The asynchronous order of callbacks is not modelled. Effects happen in program order.
  - In `initialize`, the language preference is taken to arrive before the stored selection.
  - In the worker, validation completes before the next message.
  - Races between concurrent translation requests are out of scope.
- The badge element and its styling are not modelled. Its click handler is (`ContentScript.OnBadgeClick`), without the 100 ms delay.
- `populateLanguageDropdown` is not modelled: it reads `availableLanguages`, which is not part of this model.
- The four placeholder extractors are modelled only as returning all-empty fields with their source name.
- Case-insensitive matching folds ASCII and Latin-1 letters only. Regular expressions are modelled only for the patterns the code uses.
- `Object.entries` order is taken as given by the entry sequence. The JavaScript rule that lists integer-like keys first is not modelled.
- Translated lyrics are an object of string pairs, a string, `null` or `undefined`. Other JSON values are not modelled.
- Metadata has a fixed set of fields. Extra fields that the spread in the merge would carry along are not modelled.
- Translator.LowerCaseAliasesAgree: states the property on the table's entries, not on a property lookup, since nothing in the library looks names up.
- Translator.FormatExplanation: its own contract states only that no line break survives. Its value is tied to the panel's rendering by `CrossPartAgreement.ExplanationRenderingsAgree`.
- SidePanel.Controller.OnMessage: states, for each message, the fields that message is about, not the whole new state. The handlers it calls state theirs in full.
- ServiceWorker.Background.OnMessage: states, for each action, the fields that action is about. The branch methods it calls state theirs in full.
- ContentScript.OnMessage: states the number and kind of messages sent rather than repeating the gate, which `ContentScript.ProcessSelectedText` states.

## Findings

| source | as written | input that shows it | evidently intended | confidence | as-written member | corrected member |
|---|---|---|---|---|---|---|
| content-scripts/content-script.js:75 | the Genius title pattern separates artist and song by `â€“` (U+00E2 U+20AC U+201C), the UTF-8 bytes of an en dash read as Windows-1252 | the page title "Artist – Song Lyrics \| Genius Lyrics" (any title without â) does not match, so the selectors decide | the en dash U+2013, which splits such a title into "Artist" and "Song" | high; not executed | ContentScript.AsWrittenGeniusTitleMissesRealTitles | ContentScript.GeniusTitleSplitsRealTitles |
| side-panel/side-panel.js:147-162 | `handleEnhancedMetadata` stores the enhanced record in `currentState.songMetadata` before `hasSignificantMetadataChanges` compares the record with `currentState.songMetadata` | a translation shown, a language selected, and an enhanced record with a new title: no re-translation is requested | compare against the metadata held before the update, so a changed title re-translates | high; not executed | SidePanel.Controller.HandleEnhancedMetadata | SidePanel.Controller.HandleEnhancedMetadataCorrected |

The model composes the code as written: `ContentScript.GeniusInfo` uses the pattern as written and `SidePanel.Controller.OnMessage` calls `HandleEnhancedMetadata`. `ContentScript.GeniusMissesRealTitle` shows the first defect on one page, and `SidePanel.NoSignificantChangeFromItself` is why the second handler never re-translates. The intended versions carry the proved intended behaviour.
