/**
 * The translation helpers of the shared library: the language-name table, the HTML
 * formatting of translations, lyrics and explanations, the fallback for unparsable JSON,
 * and the request objects built from song metadata.
 */
module Translator {
  import opened Wrappers
  import opened JsText
  import opened Song

  // ------------------------------------------------------------------ language codes

  /**
   * `swappedLanguageCodes`: language name to the code the translation service expects, as
   * the object's entries in their source order. The first 53 are capitalised names; the
   * last ten repeat common languages in lower case. The entries are kept in runs of seven
   * so that the verifier can index the table.
   */
  const Entries0: seq<(string, string)> := [("Amharic", "am"), ("Arabic", "ar"), ("Basque", "eu"), ("Bengali", "bn"), ("Portuguese", "pt"), ("Bulgarian", "bg"), ("Catalan", "ca")]
  const Entries1: seq<(string, string)> := [("Cherokee", "chr"), ("Croatian", "hr"), ("Czech", "cs"), ("Danish", "da"), ("Dutch", "nl"), ("English", "en"), ("Estonian", "et")]
  const Entries2: seq<(string, string)> := [("Filipino", "fil"), ("Finnish", "fi"), ("French", "fr"), ("German", "de"), ("Greek", "el"), ("Gujarati", "gu"), ("Hebrew", "iw")]
  const Entries3: seq<(string, string)> := [("Hindi", "hi"), ("Hungarian", "hu"), ("Icelandic", "is"), ("Indonesian", "id"), ("Italian", "it"), ("Japanese", "ja"), ("Kannada", "kn")]
  const Entries4: seq<(string, string)> := [("Korean", "ko"), ("Latvian", "lv"), ("Lithuanian", "lt"), ("Malay", "ms"), ("Malayalam", "ml"), ("Marathi", "mr"), ("Norwegian", "no")]
  const Entries5: seq<(string, string)> := [("Polish", "pl"), ("Romanian", "ro"), ("Russian", "ru"), ("Serbian", "sr"), ("Slovak", "sk"), ("Slovenian", "sl"), ("Spanish", "es")]
  const Entries6: seq<(string, string)> := [("Swahili", "sw"), ("Swedish", "sv"), ("Tamil", "ta"), ("Telugu", "te"), ("Thai", "th"), ("Chinese", "zh"), ("Turkish", "tr")]
  const Entries7: seq<(string, string)> := [("Urdu", "ur"), ("Ukrainian", "uk"), ("Vietnamese", "vi"), ("Welsh", "cy"), ("english", "en"), ("spanish", "es"), ("french", "fr")]
  const Entries8: seq<(string, string)> := [("german", "de"), ("italian", "it"), ("portuguese", "pt"), ("russian", "ru"), ("japanese", "ja"), ("korean", "ko"), ("chinese", "zh")]
  const LanguageEntries: seq<(string, string)> :=
    Entries0 + Entries1 + Entries2 + Entries3 + Entries4 + Entries5 + Entries6 + Entries7 + Entries8

  /** Where the lower-case entries start. */
  const FirstAlias := 53

  /** The name with its first letter in upper case. */
  function Capitalized(name: string): string {
    if name == [] then [] else [if 'a' <= name[0] <= 'z' then (name[0] as int - 32) as char else name[0]] + name[1..]
  }

  /** The capitalised entry a lower-case entry repeats. */
  predicate RepeatsEntry(k: nat, j: nat)
    requires k < |LanguageEntries| && j < |LanguageEntries|
  {
    LanguageEntries[j].0 == Capitalized(LanguageEntries[k].0) && LanguageEntries[j].1 == LanguageEntries[k].1
  }

  /** One lower-case entry and the capitalised entry it repeats. */
  lemma AliasAt(k: nat, j: nat, lower: string, upper: string, code: string)
    requires k < |LanguageEntries| && j < |LanguageEntries|
    requires LanguageEntries[k] == (lower, code) && LanguageEntries[j] == (upper, code)
    requires lower != [] && 'a' <= lower[0] <= 'z' && upper == [(lower[0] as int - 32) as char] + lower[1..]
    ensures RepeatsEntry(k, j)
  {
  }

  /** Each lower-case entry is repeated, with its code, by a capitalised entry. */
  predicate AliasesAgree(from: nat, to: nat)
    requires from <= to <= |LanguageEntries|
  {
    forall k :: from <= k < to ==> LanguageEntries[k].0 != [] && 'a' <= LanguageEntries[k].0[0] <= 'z' && exists j :: 0 <= j < FirstAlias && RepeatsEntry(k, j)
  }

  /** The entries "english", "spanish", "french". */
  lemma EnglishSpanishFrenchAgree()
    ensures |LanguageEntries| == FirstAlias + 10 && AliasesAgree(FirstAlias, FirstAlias + 3)
  {
    AliasAt(53, 12, "english", "English", "en");
    AliasAt(54, 41, "spanish", "Spanish", "es");
    AliasAt(55, 16, "french", "French", "fr");
  }

  /** The entries "german", "italian", "portuguese". */
  lemma GermanItalianPortugueseAgree()
    ensures |LanguageEntries| == FirstAlias + 10 && AliasesAgree(FirstAlias + 3, FirstAlias + 6)
  {
    AliasAt(56, 17, "german", "German", "de");
    AliasAt(57, 25, "italian", "Italian", "it");
    AliasAt(58, 4, "portuguese", "Portuguese", "pt");
  }

  /** The entries "russian", "japanese". */
  lemma RussianJapaneseAgree()
    ensures |LanguageEntries| == FirstAlias + 10 && AliasesAgree(FirstAlias + 6, FirstAlias + 8)
  {
    AliasAt(59, 37, "russian", "Russian", "ru");
    AliasAt(60, 26, "japanese", "Japanese", "ja");
  }

  /** The entries "korean", "chinese". */
  lemma KoreanChineseAgree()
    ensures |LanguageEntries| == FirstAlias + 10 && AliasesAgree(FirstAlias + 8, FirstAlias + 10)
  {
    AliasAt(61, 28, "korean", "Korean", "ko");
    AliasAt(62, 47, "chinese", "Chinese", "zh");
  }

  /** Each lower-case entry maps to the same code as its capitalised entry. */
  lemma LowerCaseAliasesAgree()
    ensures |LanguageEntries| == FirstAlias + 10 && AliasesAgree(FirstAlias, |LanguageEntries|)
  {
    EnglishSpanishFrenchAgree();
    GermanItalianPortugueseAgree();
    RussianJapaneseAgree();
    KoreanChineseAgree();
    forall k | FirstAlias <= k < |LanguageEntries|
      ensures LanguageEntries[k].0 != [] && 'a' <= LanguageEntries[k].0[0] <= 'z' && exists j :: 0 <= j < FirstAlias && RepeatsEntry(k, j)
    {
      if k < FirstAlias + 3 {
        assert AliasesAgree(FirstAlias, FirstAlias + 3);
      } else if k < FirstAlias + 6 {
        assert AliasesAgree(FirstAlias + 3, FirstAlias + 6);
      } else if k < FirstAlias + 8 {
        assert AliasesAgree(FirstAlias + 6, FirstAlias + 8);
      } else {
        assert AliasesAgree(FirstAlias + 8, FirstAlias + 10);
      }
    }
  }

  // ------------------------------------------------------------------ formatting

  /** The markup of one line pair in `formatTranslation`. */
  function PairBlock(original: string, translation: string): string {
    "<div class=\"translation-pair\">\n      <div class=\"original-line\">" + original
    + "</div>\n      <div class=\"translated-line\">" + translation + "</div>\n    </div>"
  }

  /** The pairs of every entry, in order, blank keys included. */
  function PairBlocks(entries: seq<(string, string)>): string {
    if entries == [] then "" else PairBlock(entries[0].0, entries[0].1) + PairBlocks(entries[1..])
  }

  lemma {:induction false} PairBlocksAppend(a: seq<(string, string)>, b: seq<(string, string)>)
    ensures PairBlocks(a + b) == PairBlocks(a) + PairBlocks(b)
  {
    if a == [] {
      assert a + b == b;
    } else {
      var ab := a + b;
      assert ab[0] == a[0];
      assert ab[1..] == a[1..] + b;
      PairBlocksAppend(a[1..], b);
    }
  }

  /** Each pair adds a fixed frame around its two lines: the output length is fixed by the entries. */
  lemma {:induction false} PairBlocksLength(entries: seq<(string, string)>)
    ensures |PairBlocks(entries)| == |entries| * |PairBlock("", "")| + TextLength(entries)
  {
    if entries != [] {
      PairBlocksLength(entries[1..]);
    }
  }

  /** The total length of the keys and values. */
  function TextLength(entries: seq<(string, string)>): nat {
    if entries == [] then 0 else |entries[0].0| + |entries[0].1| + TextLength(entries[1..])
  }

  /** `formatTranslation(lyrics)`: the line pairs of an object, a notice for anything else. */
  function FormatTranslation(lyrics: Lyrics): string {
    match lyrics
    case LineMap(entries) => PairBlocks(entries)
    case _ => "Translation not available"
  }

  /** An empty object gives no markup at all, not the notice. */
  lemma FormatTranslationOfEmptyObject()
    ensures FormatTranslation(LineMap([])) == ""
    ensures FormatTranslation(Null) == "Translation not available"
  {
  }

  /** `formatLyricsDisplay(lyrics)`: every line break becomes `<br>`. */
  function FormatLyricsDisplay(lyrics: Option<string>): (html: string)
    ensures forall k :: 0 <= k < |html| ==> html[k] != '\n'
    ensures Truthy(lyrics) ==> |html| == |lyrics.value| + 3 * Count(lyrics.value, '\n')
    ensures !Truthy(lyrics) ==> html == ""
  {
    if !Truthy(lyrics) then ""
    else
      ReplaceAllChar(lyrics.value, '\n', "<br>");
      ReplaceAll(lyrics.value, "\n", "<br>")
  }

  /** Lyrics on one line are shown unchanged. */
  lemma FormatLyricsOfOneLine(lyrics: string)
    requires forall k :: 0 <= k < |lyrics| ==> lyrics[k] != '\n'
    ensures FormatLyricsDisplay(Some(lyrics)) == lyrics
  {
    ReplaceAllWithoutLead(lyrics, "\n", "<br>");
  }

  /** `formatExplanation(explanation)`: paragraphs and line breaks, or a notice for a missing or empty one. */
  function FormatExplanation(explanation: Option<string>): (html: string)
    ensures forall k :: 0 <= k < |html| ==> html[k] != '\n'
  {
    if !Truthy(explanation) then "No explanation available"
    else "<p>" + BreakLines(explanation.value) + "</p>"
  }

  // ------------------------------------------------------------------ JSON and request objects

  /** A JSON value. */
  datatype Json = JNull | JBool(b: bool) | JNumber(n: int) | JString(s: string) | JArray(items: seq<Json>) | JObject(members: seq<(string, Json)>)

  /** The object `safeParseJson` returns when the text is not JSON. */
  const ParseFallback := JObject([
    ("title", JObject([("translation", JString("[Translation Failed]"))])),
    ("lyrics", JObject([("explanation", JString("Error processing lyrics explanation"))])),
    ("detected_language(s)", JArray([JString("unknown")]))])

  /** `safeParseJson(text)`, given what `JSON.parse` makes of the text (`None` where it throws). */
  function SafeParseJson(parsed: Option<Json>): (r: Json)
    ensures parsed.Some? ==> r == parsed.value
    ensures parsed.None? ==> r == ParseFallback
    ensures parsed.None? ==> r.JObject? && |r.members| == 3 && r.members[0].0 == "title"
    ensures parsed.None? ==> r.members[0].1 == JObject([("translation", JString("[Translation Failed]"))])
    ensures parsed.None? ==> r.members[2] == ("detected_language(s)", JArray([JString("unknown")]))
  {
    parsed.GetOr(ParseFallback)
  }

  /** The object `generatePromptData` builds. */
  datatype PromptData = PromptData(songTitle: string, artistName: string, translateTitleTo: string, translateExplanationTo: string)

  /** The object `createSimplifiedSongObject` builds; `None` is `null`. */
  datatype SongObject = SongObject(songTitle: string, artistName: string, songArt: Option<string>, isrc: Option<string>)

  function GeneratePromptData(songInfo: Metadata, translateTo: string): (p: PromptData)
    ensures p.songTitle == (if Truthy(songInfo.songTitle) then songInfo.songTitle.value else "Unknown Song")
    ensures p.artistName == (if Truthy(songInfo.artistName) then songInfo.artistName.value else "Unknown Artist")
    ensures p.songTitle != "" && p.artistName != ""
    ensures p.translateTitleTo == p.translateExplanationTo == translateTo
  {
    PromptData(OrDefault(songInfo.songTitle, "Unknown Song"), OrDefault(songInfo.artistName, "Unknown Artist"), translateTo, translateTo)
  }

  function CreateSimplifiedSongObject(songInfo: Metadata): (o: SongObject)
    ensures o.songTitle == (if Truthy(songInfo.songTitle) then songInfo.songTitle.value else "Unknown Song")
    ensures o.artistName == (if Truthy(songInfo.artistName) then songInfo.artistName.value else "Unknown Artist")
    ensures o.songTitle != "" && o.artistName != ""
    ensures o.songArt.None? && o.isrc.None?
  {
    SongObject(OrDefault(songInfo.songTitle, "Unknown Song"), OrDefault(songInfo.artistName, "Unknown Artist"), None, None)
  }

  /** The prompt and the song object name the same song, and a song without a title is "Unknown Song" in both. */
  lemma PromptAndSongObjectAgree(songInfo: Metadata, translateTo: string)
    ensures GeneratePromptData(songInfo, translateTo).songTitle == CreateSimplifiedSongObject(songInfo).songTitle
    ensures GeneratePromptData(songInfo, translateTo).artistName == CreateSimplifiedSongObject(songInfo).artistName
    ensures !Truthy(songInfo.songTitle) ==> CreateSimplifiedSongObject(songInfo).songTitle == "Unknown Song"
  {
  }
}
