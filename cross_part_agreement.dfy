/**
 * How the parts agree where their data meet: the metadata the background broadcasts as an
 * enhancement and the side panel's test for a significant change, and the two renderings of
 * an explanation and of a lyrics object (the library's and the side panel's).
 */
module CrossPartAgreement {
  import opened Wrappers
  import opened JsText
  import opened Song
  import SidePanel
  import ServiceWorker
  import Translator

  /**
   * Every merged answer the side panel counts as a significant change was broadcast by the
   * background: a significant change always differs in the compared fields.
   */
  lemma SignificantEnhancementIsBroadcast(info: Metadata, v: ServiceWorker.ValidatedData)
    requires SidePanel.SignificantChange(info, ServiceWorker.Merge(info, v))
    ensures ServiceWorker.EnhancementDiffers(info, ServiceWorker.Merge(info, v))
  {
  }

  /**
   * The converse fails: an answer that names a different album where the page already had
   * one is broadcast, yet the panel counts an album only where there was none.
   */
  lemma ChangedAlbumIsNotSignificant(title: string, artist: string, album: string, other: string)
    requires album != "" && other != "" && album != other
    ensures var info := NoMetadata.(songTitle := Some(title), artistName := Some(artist), album := Some(other));
      var v := ServiceWorker.ValidatedData(Some(title), Some(artist), Some(album), None, None);
      ServiceWorker.EnhancementDiffers(info, ServiceWorker.Merge(info, v)) && !SidePanel.SignificantChange(info, ServiceWorker.Merge(info, v))
  {
  }

  /**
   * The library's `formatExplanation` and the panel's own rendering agree on every
   * explanation that is not blank; on a missing one they show different notices.
   */
  lemma ExplanationRenderingsAgree(explanation: Option<string>)
    ensures Truthy(explanation) && Trim(explanation.value) != "" ==>
      Translator.FormatExplanation(explanation) == SidePanel.ExplanationHtml(explanation)
    ensures !Truthy(explanation) ==>
      Translator.FormatExplanation(explanation) != SidePanel.ExplanationHtml(explanation)
  {
  }

  /**
   * A line whose original text is blank is still written by the library's
   * `formatTranslation`, but gets no row in the panel's table.
   */
  lemma BlankLineOnlyInLibraryMarkup(original: string, translation: string)
    requires Trim(original) == ""
    ensures Translator.FormatTranslation(LineMap([(original, translation)])) == Translator.PairBlock(original, translation)
    ensures SidePanel.LyricsTable(LineMap([(original, translation)]), "") == Some([])
  {
    var entries := [(original, translation)];
    assert entries[1..] == [];
    assert Translator.PairBlocks(entries) == Translator.PairBlock(original, translation) + "";
    assert SidePanel.RowsOf(entries) == SidePanel.RowFor(entries[0]) + [];
  }

  /**
   * A one-line answer reaches the panel as exactly one row pairing the line with its
   * translation, and a one-line explanation as one paragraph holding it.
   */
  lemma OneLineAnswerIsOneRow(original: string, translation: string, parsed: Option<Lyrics>, explanation: string, highlightedText: string)
    requires Trim(original) != ""
    requires Trim(explanation) != "" && forall k :: 0 <= k < |explanation| ==> explanation[k] != '\n'
    ensures var data := TranslationData(LineMap([(original, translation)]), parsed, Some(explanation));
      && SidePanel.LyricsTable(SidePanel.DisplayedLyrics(data), highlightedText) == Some([SidePanel.EntryRow(original, translation)])
      && SidePanel.ExplanationHtml(data.songExplanation) == "<p>" + explanation + "</p>"
  {
    var entries := [(original, translation)];
    SidePanel.RowsOneToOne(entries);
    assert SidePanel.RowsOf(entries) == [SidePanel.EntryRow(original, translation)];
    SidePanel.OneLineExplanation(explanation);
  }

  /** A server error reaches the panel as an error message naming the status. */
  lemma ServerErrorIsReported(body: ServiceWorker.Body<TranslationData>)
    ensures ServiceWorker.TranslationOutcome(ServiceWorker.Http(500, body)) == TranslationError("API error: 500")
  {
    assert Decimal(500) == "500";
  }
}
