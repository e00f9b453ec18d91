/** The records and messages the content script, the background worker and the side panel exchange. */
module Song {
  import opened Wrappers

  /** `genres` as the validation service returns it: an array of names, or one string. */
  datatype Genres = GenreList(items: seq<string>) | GenreText(text: string)

  /**
   * Song metadata as the JavaScript object it is: every property may be absent (`None`).
   * The site extractors set title, artist, album, year, source and url; the generic one sets
   * title, artist, source, url and confidence; validation adds `validatedByLLM` and `genres`.
   */
  datatype Metadata = Metadata(
    songTitle: Option<string>,
    artistName: Option<string>,
    album: Option<string>,
    releaseYear: Option<string>,
    source: Option<string>,
    url: Option<string>,
    confidence: Option<string>,
    validatedByLLM: Option<bool>,
    genres: Option<Genres>)

  /** The empty object `{}`. */
  const NoMetadata := Metadata(None, None, None, None, None, None, None, None, None)

  /**
   * A `translated_lyrics` value: an object from original line to translated line (entries in
   * insertion order), a string, `null` or `undefined`.
   */
  datatype Lyrics = LineMap(entries: seq<(string, string)>) | Text(text: string) | Null | Undefined

  /**
   * A translation-service response body: `translated_lyrics`, what `JSON.parse` makes of it
   * when it is a string (`None` where the parser throws), and `song_explanation`.
   */
  datatype TranslationData = TranslationData(
    translatedLyrics: Lyrics,
    parsedLyrics: Option<Lyrics>,
    songExplanation: Option<string>)

  /** The messages on the extension's message bus, one constructor per `action`. */
  datatype Message =
    | ProcessSelectedText
    | ProcessHighlightedText(text: string, pageMetadata: Option<Metadata>)
    | DisplayHighlightedText(text: string, metadata: Metadata)
    | MetadataEnhanced(metadata: Metadata)
    | RequestTranslation(text: string, language: string, metadata: Metadata)
    | TranslationResult(translationData: TranslationData)
    | TranslationError(error: string)
    | OpenSidePanel
}
