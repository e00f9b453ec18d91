/**
 * The side panel: the state it keeps (`currentState`), the five panels it switches between,
 * the lyrics table, the explanation and the song card it renders, and the messages it sends
 * to the background worker. DOM elements are modelled by what they show; the runtime
 * message bus by an outbox.
 */
module SidePanel {
  import opened Wrappers
  import opened JsText
  import opened Song

  // ------------------------------------------------------------------ panels

  datatype Panel = Instructions | NoSelection | Loading | Translation | Error

  const AllPanels: set<Panel> := {Instructions, NoSelection, Loading, Translation, Error}

  /** The panel `showPanel` shows for a name; an unknown name shows the no-selection panel. */
  function PanelNamed(name: string): Panel {
    if name == "instructions" then Instructions
    else if name == "no-selection" then NoSelection
    else if name == "loading" then Loading
    else if name == "translation" then Translation
    else if name == "error" then Error
    else NoSelection
  }

  /** The `display` style of a shown panel. */
  function ShownStyle(p: Panel): string {
    if p == Loading || p == Error then "flex" else "block"
  }

  /** The `display` of every panel after `showPanel` has shown `p`. */
  function Showing(p: Panel): map<Panel, string> {
    map q | q in AllPanels :: if q == p then ShownStyle(q) else "none"
  }

  /** Exactly one panel is visible after `showPanel`. */
  lemma ShowingExactlyOne(p: Panel)
    ensures Showing(p).Keys == AllPanels
    ensures forall q :: q in AllPanels ==> (Showing(p)[q] != "none" <==> q == p)
  {
  }

  // ------------------------------------------------------------------ the lyrics table

  /** A row of the lyrics table: the two cells and whether it has the `has-overflow` class. */
  datatype Row = Row(original: string, translation: string, overflow: bool)

  /** The row for one entry of a line-by-line translation. */
  function EntryRow(original: string, translation: string): Row {
    Row(original, translation, Utf16Length(original) > 100 || Utf16Length(translation) > 100)
  }

  /** The rows `updateTranslatedLyrics` builds from an object: one per entry whose key is not blank, in order. */
  function RowsOf(entries: seq<(string, string)>): seq<Row> {
    if entries == [] then [] else RowFor(entries[0]) + RowsOf(entries[1..])
  }

  /** The row of one entry, none for a blank key. */
  function RowFor(entry: (string, string)): seq<Row> {
    if Trim(entry.0) != "" then [EntryRow(entry.0, entry.1)] else []
  }

  lemma {:induction false} RowsOfAppend(a: seq<(string, string)>, b: seq<(string, string)>)
    ensures RowsOf(a + b) == RowsOf(a) + RowsOf(b)
  {
    if a == [] {
      assert a + b == b;
    } else {
      var ab := a + b;
      assert ab[0] == a[0];
      assert ab[1..] == a[1..] + b;
      RowsOfAppend(a[1..], b);
      calc {
        RowsOf(ab);
        RowFor(a[0]) + RowsOf(a[1..] + b);
        RowFor(a[0]) + (RowsOf(a[1..]) + RowsOf(b));
        (RowFor(a[0]) + RowsOf(a[1..])) + RowsOf(b);
      }
    }
  }

  /** One more entry adds its own row, if any, at the end. */
  lemma RowsOfSnoc(entries: seq<(string, string)>, entry: (string, string))
    ensures RowsOf(entries + [entry]) == RowsOf(entries) + RowFor(entry)
  {
    assert RowsOf([entry]) == RowFor(entry) + RowsOf([]);
    RowsOfAppend(entries, [entry]);
  }

  /** Every row comes from an entry with a non-blank key. */
  lemma {:induction false} RowsSound(entries: seq<(string, string)>)
    ensures forall r :: r in RowsOf(entries) ==>
      exists k :: 0 <= k < |entries| && Trim(entries[k].0) != "" && r == EntryRow(entries[k].0, entries[k].1)
  {
    if entries != [] {
      RowsSound(entries[1..]);
      forall r | r in RowsOf(entries)
        ensures exists k :: 0 <= k < |entries| && Trim(entries[k].0) != "" && r == EntryRow(entries[k].0, entries[k].1)
      {
        if r !in RowsOf(entries[1..]) {
          assert r == EntryRow(entries[0].0, entries[0].1);
        } else {
          var k :| 0 <= k < |entries[1..]| && Trim(entries[1..][k].0) != "" && r == EntryRow(entries[1..][k].0, entries[1..][k].1);
          assert entries[k + 1] == entries[1..][k];
        }
      }
    }
  }

  /** Every entry with a non-blank key gets a row. */
  lemma {:induction false} RowsComplete(entries: seq<(string, string)>, k: nat)
    requires k < |entries| && Trim(entries[k].0) != ""
    ensures EntryRow(entries[k].0, entries[k].1) in RowsOf(entries)
  {
    if k > 0 {
      RowsComplete(entries[1..], k - 1);
    }
  }

  /** Without blank keys there is one row per entry, in entry order. */
  lemma {:induction false} RowsOneToOne(entries: seq<(string, string)>)
    requires forall k :: 0 <= k < |entries| ==> Trim(entries[k].0) != ""
    ensures |RowsOf(entries)| == |entries|
    ensures forall k :: 0 <= k < |entries| ==> RowsOf(entries)[k] == EntryRow(entries[k].0, entries[k].1)
  {
    if entries != [] {
      RowsOneToOne(entries[1..]);
    }
  }

  const SelectLanguagePrompt := "Select a language to see translation"

  /**
   * What the lyrics container shows after `updateTranslatedLyrics(lyrics)` (with the
   * current highlighted text): the rows of an object, one fallback row for anything else,
   * and an empty container for `null`, on which `Object.entries` throws.
   */
  function LyricsTable(lyrics: Lyrics, highlightedText: string): Option<seq<Row>> {
    match lyrics
    case LineMap(entries) => Some(RowsOf(entries))
    case Null => None
    case Text(t) => Some([Row(OrDefault(Some(highlightedText), "No lyrics selected"), OrDefault(Some(t), "Translation not available"), false)])
    case Undefined => Some([Row(OrDefault(Some(highlightedText), "No lyrics selected"), "Translation not available", false)])
  }

  /** The object `{ "Error": "Failed to parse translation" }` shown when the lyrics string is not JSON. */
  const ParseFailure := LineMap([("Error", "Failed to parse translation")])

  /** What `handleTranslationResult` hands to the table: the parsed string, or the value itself. */
  function DisplayedLyrics(data: TranslationData): Lyrics {
    if data.translatedLyrics.Text? then data.parsedLyrics.GetOr(ParseFailure) else data.translatedLyrics
  }

  // ------------------------------------------------------------------ explanation and song card

  /** The explanation paragraphs, or the placeholder for a missing or blank explanation. */
  function ExplanationHtml(explanation: Option<string>): (html: string)
    ensures forall k :: 0 <= k < |html| ==> html[k] != '\n'
  {
    if Truthy(explanation) && Trim(explanation.value) != "" then "<p>" + BreakLines(explanation.value) + "</p>"
    else "<p>No explanation available.</p>"
  }

  /** A one-line explanation is shown as a single paragraph holding exactly its text. */
  lemma OneLineExplanation(e: string)
    requires Trim(e) != ""
    requires forall k :: 0 <= k < |e| ==> e[k] != '\n'
    ensures ExplanationHtml(Some(e)) == "<p>" + e + "</p>"
  {
    BreakLinesOfOneLine(e);
  }

  /** The song card is shown when the metadata has a title or an artist. */
  predicate HasHeadline(metadata: Option<Metadata>) {
    metadata.Some? && (Truthy(metadata.value.songTitle) || Truthy(metadata.value.artistName))
  }

  /** The album line: empty without album and year. */
  function AlbumLine(m: Metadata): (line: string)
    ensures line == "" <==> !Truthy(m.album) && !Truthy(m.releaseYear)
  {
    if Truthy(m.album) || Truthy(m.releaseYear) then
      "<p class=\"album-info\">"
      + (if Truthy(m.album) then "Album: " + m.album.value else "")
      + (if Truthy(m.releaseYear) then (if Truthy(m.album) then " (" + m.releaseYear.value + ")" else "Year: " + m.releaseYear.value) else "")
      + "</p>"
    else ""
  }

  /** The genre line, for a non-empty list or a non-empty string. */
  function GenreLine(genres: Option<Genres>): string {
    match genres
    case Some(GenreList(items)) => if items != [] then "<p class=\"genre-info\">Genre: " + Join(items, ", ") + "</p>" else ""
    case Some(GenreText(text)) => if text != "" then "<p class=\"genre-info\">Genre: " + text + "</p>" else ""
    case None => ""
  }

  const ValidationBadge := "<span class=\"validation-badge\" title=\"This metadata has been verified\">\U{2713} Verified</span>"

  /** The inner HTML of the song card. */
  function SongInfoHtml(m: Metadata): string {
    "<h2>" + OrDefault(m.songTitle, "Unknown Song") + "</h2>"
    + "<p>by " + OrDefault(m.artistName, "Unknown Artist") + "</p>"
    + AlbumLine(m)
    + GenreLine(m.genres)
    + (if m.validatedByLLM == Some(true) then ValidationBadge else "")
  }

  /** The card ends with the verification badge exactly when the metadata was validated. */
  lemma SongInfoBadgeIffValidated(m: Metadata)
    ensures EndsWith(SongInfoHtml(m), ValidationBadge) <==> m.validatedByLLM == Some(true)
  {
    var h := SongInfoHtml(m);
    var body := "<h2>" + OrDefault(m.songTitle, "Unknown Song") + "</h2>"
      + "<p>by " + OrDefault(m.artistName, "Unknown Artist") + "</p>" + AlbumLine(m) + GenreLine(m.genres);
    if m.validatedByLLM == Some(true) {
      assert h == body + ValidationBadge;
      assert h[|h| - |ValidationBadge|..] == ValidationBadge;
    } else {
      assert h == body;
      assert h[|h| - 1] == '>' && h[|h| - 2] == 'p';
      assert ValidationBadge[|ValidationBadge| - 2] == 'n';
    }
  }

  predicate EndsWith(s: string, suffix: string) {
    |suffix| <= |s| && s[|s| - |suffix|..] == suffix
  }

  // ------------------------------------------------------------------ metadata changes

  /** `hasSignificantMetadataChanges`: a new title or artist, or an album where there was none. */
  predicate SignificantChange(current: Metadata, incoming: Metadata) {
    || (Truthy(incoming.songTitle) && incoming.songTitle != current.songTitle)
    || (Truthy(incoming.artistName) && incoming.artistName != current.artistName)
    || (Truthy(incoming.album) && !Truthy(current.album))
  }

  /** Metadata never differs significantly from itself: why the as-written handler never re-translates. */
  lemma NoSignificantChangeFromItself(m: Metadata)
    ensures !SignificantChange(m, m)
  {
  }

  /** Fields the incoming metadata leaves empty never count as changes. */
  lemma SignificantChangeNeedsIncomingField(current: Metadata, incoming: Metadata)
    requires !Truthy(incoming.songTitle) && !Truthy(incoming.artistName) && !Truthy(incoming.album)
    ensures !SignificantChange(current, incoming)
  {
  }

  // ------------------------------------------------------------------ the controller

  /** The side panel's page: its state, what its elements show, and its effects. */
  class Controller {
    // `currentState`
    var highlightedText: string
    var songMetadata: Metadata
    var selectedLanguage: string
    var translationData: Option<TranslationData>
    // the elements
    var display: map<Panel, string>
    var languageSelectValue: string
    var lyricsTable: Option<seq<Row>>
    var explanationHtml: string
    var songInfoHtml: string
    var songInfoShown: bool
    var errorMessage: string
    // effects: messages sent to the background worker, the stored language preference
    var outbox: seq<Message>
    var savedLanguage: Option<string>

    /** The page as loaded, before `initialize` runs. */
    constructor ()
      ensures highlightedText == "" && songMetadata == NoMetadata && selectedLanguage == "" && translationData == None
      ensures outbox == [] && savedLanguage == None
    {
      highlightedText, songMetadata, selectedLanguage, translationData := "", NoMetadata, "", None;
      display, languageSelectValue, lyricsTable := map[], "", None;
      explanationHtml, songInfoHtml, songInfoShown, errorMessage := "", "", false, "";
      outbox, savedLanguage := [], None;
    }

    /** `showPanel(name)`. */
    method ShowPanel(name: string)
      modifies this`display
      ensures display == Showing(PanelNamed(name))
    {
      var shown := PanelNamed(name);
      display := map q | q in AllPanels :: if q == shown then ShownStyle(q) else "none";
    }

    /** `requestTranslation()`: show the spinner and ask the background worker. */
    method RequestTranslation()
      modifies this`display, this`outbox
      ensures display == Showing(Loading)
      ensures outbox == old(outbox) + [Message.RequestTranslation(highlightedText, selectedLanguage, songMetadata)]
    {
      ShowPanel("loading");
      outbox := outbox + [Message.RequestTranslation(highlightedText, selectedLanguage, songMetadata)];
    }

    /** The `forEach` over the entries of a line-by-line translation. */
    static method BuildRows(entries: seq<(string, string)>) returns (rows: seq<Row>)
      ensures rows == RowsOf(entries)
    {
      rows := [];
      for i := 0 to |entries|
        invariant rows == RowsOf(entries[..i])
      {
        var (original, translation) := entries[i];
        if Trim(original) != "" {
          var overflow := Utf16Length(original) > 100 || Utf16Length(translation) > 100;
          rows := rows + [Row(original, translation, overflow)];
        }
        assert entries[..i + 1] == entries[..i] + [entries[i]];
        RowsOfSnoc(entries[..i], entries[i]);
      }
      assert entries[..|entries|] == entries;
    }

    /** `updateTranslatedLyrics(lyrics)`; `thrown` when `Object.entries(null)` throws after the container was cleared. */
    method UpdateTranslatedLyrics(lyrics: Lyrics) returns (thrown: bool)
      modifies this`lyricsTable
      ensures thrown <==> lyrics == Null
      ensures lyricsTable == LyricsTable(lyrics, highlightedText)
    {
      lyricsTable := None;
      thrown := false;
      match lyrics {
        case LineMap(entries) =>
          var rows := BuildRows(entries);
          lyricsTable := Some(rows);
        case Null =>
          thrown := true;
        case Text(t) =>
          lyricsTable := Some([Row(OrDefault(Some(highlightedText), "No lyrics selected"), OrDefault(Some(t), "Translation not available"), false)]);
        case Undefined =>
          lyricsTable := Some([Row(OrDefault(Some(highlightedText), "No lyrics selected"), "Translation not available", false)]);
      }
    }

    /** `updateExplanation(explanation)`. */
    method UpdateExplanation(explanation: Option<string>)
      modifies this`explanationHtml
      ensures explanationHtml == ExplanationHtml(explanation)
    {
      if Truthy(explanation) && Trim(explanation.value) != "" {
        var formatted := ReplaceAll(ReplaceAll(explanation.value, "\n\n", "</p><p>"), "\n", "<br>");
        explanationHtml := "<p>" + formatted + "</p>";
      } else {
        explanationHtml := "<p>No explanation available.</p>";
      }
    }

    /** `updateSongInfo(metadata)`: fill and show the card, or only hide it. */
    method UpdateSongInfo(metadata: Option<Metadata>)
      modifies this`songInfoHtml, this`songInfoShown
      ensures songInfoShown <==> HasHeadline(metadata)
      ensures HasHeadline(metadata) ==> songInfoHtml == SongInfoHtml(metadata.value)
      ensures !HasHeadline(metadata) ==> songInfoHtml == old(songInfoHtml)
    {
      if HasHeadline(metadata) {
        songInfoHtml := SongInfoHtml(metadata.value);
        songInfoShown := true;
      } else {
        songInfoShown := false;
      }
    }

    /** A new selection, from storage at start-up or from a `displayHighlightedText` message. */
    method ShowSelection(text: string, metadata: Option<Metadata>)
      modifies this`highlightedText, this`songMetadata, this`songInfoHtml, this`songInfoShown
      modifies this`display, this`outbox, this`lyricsTable
      ensures highlightedText == text && songMetadata == metadata.GetOr(NoMetadata)
      ensures songInfoShown <==> HasHeadline(metadata)
      ensures HasHeadline(metadata) ==> songInfoHtml == SongInfoHtml(metadata.value)
      ensures !HasHeadline(metadata) ==> songInfoHtml == old(songInfoHtml)
      ensures old(selectedLanguage) != "" ==>
        && outbox == old(outbox) + [Message.RequestTranslation(text, selectedLanguage, metadata.GetOr(NoMetadata))]
        && display == Showing(Loading) && lyricsTable == old(lyricsTable)
      ensures old(selectedLanguage) == "" ==>
        && outbox == old(outbox) && display == Showing(Translation)
        && lyricsTable == Some(RowsOf([(text, SelectLanguagePrompt)]))
    {
      highlightedText := text;
      songMetadata := metadata.GetOr(NoMetadata);
      UpdateSongInfo(metadata);
      if selectedLanguage != "" {
        RequestTranslation();
      } else {
        ShowPanel("translation");
        var _ := UpdateTranslatedLyrics(LineMap([(text, SelectLanguagePrompt)]));
      }
    }

    /** `initialize()`, with the two stored-value callbacks run in the order they were registered. */
    method Initialize(storedLanguage: Option<string>, storedText: Option<string>, storedMetadata: Option<Metadata>)
      requires highlightedText == "" && selectedLanguage == ""
      modifies this`display, this`languageSelectValue, this`selectedLanguage
      modifies this`highlightedText, this`songMetadata, this`songInfoHtml, this`songInfoShown
      modifies this`outbox, this`lyricsTable
      ensures selectedLanguage == OrEmpty(storedLanguage)
      ensures Truthy(storedLanguage) ==> languageSelectValue == storedLanguage.value
      ensures !Truthy(storedText) ==> display == Showing(NoSelection) && outbox == old(outbox)
      ensures Truthy(storedText) ==> highlightedText == storedText.value && songMetadata == storedMetadata.GetOr(NoMetadata)
      ensures Truthy(storedText) ==> (songInfoShown <==> HasHeadline(storedMetadata))
      ensures Truthy(storedText) && HasHeadline(storedMetadata) ==> songInfoHtml == SongInfoHtml(storedMetadata.value)
      ensures Truthy(storedText) && !HasHeadline(storedMetadata) ==> songInfoHtml == old(songInfoHtml)
      ensures !Truthy(storedText) ==>
        && highlightedText == old(highlightedText) && songMetadata == old(songMetadata)
        && songInfoShown == old(songInfoShown) && songInfoHtml == old(songInfoHtml)
      ensures !Truthy(storedLanguage) ==> languageSelectValue == old(languageSelectValue)
      ensures Truthy(storedText) && Truthy(storedLanguage) ==>
        && outbox == old(outbox) + [Message.RequestTranslation(storedText.value, storedLanguage.value, storedMetadata.GetOr(NoMetadata))]
        && display == Showing(Loading)
      ensures Truthy(storedText) && !Truthy(storedLanguage) ==>
        && outbox == old(outbox) && display == Showing(Translation)
        && lyricsTable == Some(RowsOf([(storedText.value, SelectLanguagePrompt)]))
      ensures !(Truthy(storedText) && !Truthy(storedLanguage)) ==> lyricsTable == old(lyricsTable)
      ensures savedLanguage == old(savedLanguage)
    {
      ShowPanel("no-selection");
      if Truthy(storedLanguage) {
        languageSelectValue := storedLanguage.value;
        selectedLanguage := storedLanguage.value;
      }
      if Truthy(storedText) {
        ShowSelection(storedText.value, storedMetadata);
      }
    }

    /** The language select's `change` handler. */
    method OnLanguageChange(value: string)
      modifies this`selectedLanguage, this`savedLanguage, this`display, this`outbox
      ensures selectedLanguage == value && savedLanguage == Some(value)
      ensures highlightedText != "" ==>
        outbox == old(outbox) + [Message.RequestTranslation(highlightedText, value, songMetadata)] && display == Showing(Loading)
      ensures highlightedText == "" ==> outbox == old(outbox) && display == old(display)
    {
      selectedLanguage := value;
      savedLanguage := Some(value);
      if highlightedText != "" {
        RequestTranslation();
      }
    }

    /** The retry button. */
    method OnRetry()
      modifies this`display, this`outbox
      ensures outbox == old(outbox) + [Message.RequestTranslation(highlightedText, selectedLanguage, songMetadata)]
      ensures display == Showing(Loading)
    {
      RequestTranslation();
    }

    /** `handleTranslationResult(data)`; a `null` table aborts the handler before the explanation and the panel change. */
    method HandleTranslationResult(data: TranslationData)
      modifies this`translationData, this`lyricsTable, this`explanationHtml, this`display
      ensures translationData == Some(data)
      ensures lyricsTable == LyricsTable(DisplayedLyrics(data), highlightedText)
      ensures DisplayedLyrics(data) != Null ==> explanationHtml == ExplanationHtml(data.songExplanation) && display == Showing(Translation)
      ensures DisplayedLyrics(data) == Null ==> explanationHtml == old(explanationHtml) && display == old(display)
    {
      translationData := Some(data);
      var translatedLyrics;
      if data.translatedLyrics.Text? {
        translatedLyrics := if data.parsedLyrics.Some? then data.parsedLyrics.value else ParseFailure;
      } else {
        translatedLyrics := data.translatedLyrics;
      }
      var thrown := UpdateTranslatedLyrics(translatedLyrics);
      if thrown {
        return;
      }
      UpdateExplanation(data.songExplanation);
      ShowPanel("translation");
    }

    /** `handleTranslationError(message)`. */
    method HandleTranslationError(message: string)
      modifies this`errorMessage, this`display
      ensures errorMessage == OrDefault(Some(message), "Failed to translate lyrics. Please try again.")
      ensures display == Showing(Error)
    {
      errorMessage := if message != "" then message else "Failed to translate lyrics. Please try again.";
      ShowPanel("error");
    }

    /**
     * `handleEnhancedMetadata(metadata)` as written: the state is overwritten before the
     * comparison, so the comparison is against the new metadata itself and never asks for a
     * new translation.
     */
    method HandleEnhancedMetadata(enhanced: Metadata)
      modifies this`songMetadata, this`songInfoHtml, this`songInfoShown, this`display, this`outbox
      ensures songMetadata == enhanced
      ensures songInfoShown <==> HasHeadline(Some(enhanced))
      ensures HasHeadline(Some(enhanced)) ==> songInfoHtml == SongInfoHtml(enhanced)
      ensures !HasHeadline(Some(enhanced)) ==> songInfoHtml == old(songInfoHtml)
      ensures outbox == old(outbox) && display == old(display)
    {
      songMetadata := enhanced;
      UpdateSongInfo(Some(enhanced));
      if translationData.Some? && selectedLanguage != "" {
        NoSignificantChangeFromItself(enhanced);
        if SignificantChange(songMetadata, enhanced) {
          // the source's re-translation request: unreachable, since the metadata was just overwritten
          assert false;
        }
      }
    }

    /** `handleEnhancedMetadata(metadata)` comparing against the metadata it replaces, as its comments intend. */
    method HandleEnhancedMetadataCorrected(enhanced: Metadata)
      modifies this`songMetadata, this`songInfoHtml, this`songInfoShown, this`display, this`outbox
      ensures songMetadata == enhanced
      ensures songInfoShown <==> HasHeadline(Some(enhanced))
      ensures HasHeadline(Some(enhanced)) ==> songInfoHtml == SongInfoHtml(enhanced)
      ensures !HasHeadline(Some(enhanced)) ==> songInfoHtml == old(songInfoHtml)
      ensures translationData.Some? && selectedLanguage != "" && SignificantChange(old(songMetadata), enhanced) ==>
        && outbox == old(outbox) + [Message.RequestTranslation(highlightedText, selectedLanguage, enhanced)]
        && display == Showing(Loading)
      ensures !(translationData.Some? && selectedLanguage != "" && SignificantChange(old(songMetadata), enhanced)) ==>
        outbox == old(outbox) && display == old(display)
    {
      var significant := SignificantChange(songMetadata, enhanced);
      songMetadata := enhanced;
      UpdateSongInfo(Some(enhanced));
      if translationData.Some? && selectedLanguage != "" && significant {
        RequestTranslation();
      }
    }

    /** The runtime message listener. */
    method OnMessage(message: Message)
      modifies this
      ensures message.DisplayHighlightedText? ==> highlightedText == message.text && songMetadata == message.metadata
      ensures message.TranslationResult? ==> translationData == Some(message.translationData)
      ensures message.TranslationError? ==> display == Showing(Error)
      ensures message.MetadataEnhanced? ==> songMetadata == message.metadata && outbox == old(outbox) && display == old(display)
      ensures !(message.DisplayHighlightedText? || message.TranslationResult? || message.TranslationError? || message.MetadataEnhanced?) ==>
        outbox == old(outbox) && display == old(display) && highlightedText == old(highlightedText)
      ensures savedLanguage == old(savedLanguage) && selectedLanguage == old(selectedLanguage)
    {
      match message {
        case DisplayHighlightedText(text, metadata) =>
          ShowSelection(text, Some(metadata));
        case TranslationResult(data) =>
          HandleTranslationResult(data);
        case TranslationError(error) =>
          HandleTranslationError(error);
        case MetadataEnhanced(metadata) =>
          HandleEnhancedMetadata(metadata);
        case _ =>
      }
    }
  }
}
