/**
 * The content script: which lyrics site a page is, the per-site metadata extractors (title
 * pattern, selector cascades, release year, structured data), the clean-up of title and
 * artist, and the gate that turns a text selection into a `processHighlightedText` message.
 * The document is abstracted as a `Page`: what each selector finds and the parsed JSON-LD
 * blocks.
 */
module ContentScript {
  import opened Wrappers
  import opened JsText
  import opened Patterns
  import opened Song

  // ------------------------------------------------------------------ the page

  /** What a selector finds: the element's `textContent`, its `content` attribute, and the text of what selectors find inside it. */
  datatype Element = Element(text: string, content: Option<string>, inner: map<string, string>)

  /** An `application/ld+json` block after `JSON.parse`: its `@type`, `name` and `byArtist.name`. */
  datatype LinkedData = LinkedData(kind: Option<string>, name: Option<string>, byArtistName: Option<string>)

  /**
   * The page as the content script reads it: `location.hostname`, `location.href`,
   * `document.title`, the selection's text, the first element each selector finds (a
   * selector missing from the map finds nothing), and the JSON-LD blocks in document order
   * (`None` where `JSON.parse`, or reading a property of its result, throws).
   */
  datatype Page = Page(
    hostname: string,
    href: string,
    title: string,
    selection: string,
    elements: map<string, Element>,
    linkedData: seq<Option<LinkedData>>)

  // ------------------------------------------------------------------ site detection

  datatype Site = Genius | AZLyrics | Musixmatch | LyricsCom | MetroLyrics | SongLyrics | Generic

  /** The domain patterns of `isLyricsSite`, in order. */
  const LyricsDomains: seq<string> :=
    ["genius.com", "azlyrics.com", "lyrics.com", "musixmatch.com", "metrolyrics.com", "songlyrics.com"]

  /** `isLyricsSite()`: some domain pattern matches the host name, ignoring case. */
  predicate IsLyricsSite(hostname: string) {
    exists k :: 0 <= k < |LyricsDomains| && IncludesCi(hostname, LyricsDomains[k])
  }

  /** The extractor `extractSongInfo` picks: the first `includes` test that the lowered host name passes. */
  function Dispatch(hostname: string): Site {
    var h := ToLowerAscii(hostname);
    if Includes(h, "genius.com") then Genius
    else if Includes(h, "azlyrics.com") then AZLyrics
    else if Includes(h, "musixmatch.com") then Musixmatch
    else if Includes(h, "lyrics.com") then LyricsCom
    else if Includes(h, "metrolyrics.com") then MetroLyrics
    else if Includes(h, "songlyrics.com") then SongLyrics
    else Generic
  }

  /** The `source` each extractor stamps on its result. */
  function SourceName(site: Site): string {
    match site
    case Genius => "genius.com"
    case AZLyrics => "azlyrics.com"
    case Musixmatch => "musixmatch.com"
    case LyricsCom => "lyrics.com"
    case MetroLyrics => "metrolyrics.com"
    case SongLyrics => "songlyrics.com"
    case Generic => "generic"
  }

  /** Whatever contains `lit` contains every tail of `lit`. */
  lemma IncludesTail(s: string, lit: string, from: nat)
    requires Includes(s, lit) && from <= |lit|
    ensures Includes(s, lit[from..])
  {
    var k := Find(s, lit, false, 0).value;
    assert OccursAt(s, k + from, lit[from..], false);
  }

  /** `lyrics\.com` already matches every AZLyrics, MetroLyrics and SongLyrics host. */
  lemma LyricsComCoversOtherDomains(h: string)
    requires Includes(h, "azlyrics.com") || Includes(h, "metrolyrics.com") || Includes(h, "songlyrics.com")
    ensures Includes(h, "lyrics.com")
  {
    if Includes(h, "azlyrics.com") {
      IncludesTail(h, "azlyrics.com", 2);
      assert "azlyrics.com"[2..] == "lyrics.com";
    } else if Includes(h, "metrolyrics.com") {
      IncludesTail(h, "metrolyrics.com", 5);
      assert "metrolyrics.com"[5..] == "lyrics.com";
    } else {
      IncludesTail(h, "songlyrics.com", 4);
      assert "songlyrics.com"[4..] == "lyrics.com";
    }
  }

  /** The MetroLyrics and SongLyrics branches can never be taken: the `lyrics.com` test comes first. */
  lemma MetroAndSongLyricsUnreachable(hostname: string)
    ensures Dispatch(hostname) != MetroLyrics && Dispatch(hostname) != SongLyrics
  {
    var h := ToLowerAscii(hostname);
    if Includes(h, "metrolyrics.com") || Includes(h, "songlyrics.com") {
      LyricsComCoversOtherDomains(h);
    }
  }

  /** A pattern of lower-case ASCII matches, up to case, exactly where it matches the lowered text. */
  lemma CiMatchesLowered(s: string, lit: string, k: nat)
    requires forall j :: 0 <= j < |lit| ==> lit[j] < '\U{0080}' && !('A' <= lit[j] <= 'Z')
    ensures OccursAt(s, k, lit, true) <==> OccursAt(ToLowerAscii(s), k, lit, false)
  {
    var low := ToLowerAscii(s);
    if k + |lit| <= |s| {
      forall j | 0 <= j < |lit|
        ensures (Canon(s[k + j]) == Canon(lit[j])) <==> (low[k + j] == lit[j])
      {
        assert low[k + j] == LowerAscii(s[k + j]);
      }
    }
  }

  lemma IncludesCiLowered(s: string, lit: string)
    requires forall j :: 0 <= j < |lit| ==> lit[j] < '\U{0080}' && !('A' <= lit[j] <= 'Z')
    ensures IncludesCi(s, lit) <==> Includes(ToLowerAscii(s), lit)
  {
    var low := ToLowerAscii(s);
    if IncludesCi(s, lit) {
      var k := Find(s, lit, true, 0).value;
      CiMatchesLowered(s, lit, k);
    }
    if Includes(low, lit) {
      var k := Find(low, lit, false, 0).value;
      CiMatchesLowered(s, lit, k);
    }
  }

  /** A page gets the floating badge exactly when `extractSongInfo` picks a site-specific extractor. */
  lemma IsLyricsSiteIffSiteExtractor(hostname: string)
    ensures IsLyricsSite(hostname) <==> Dispatch(hostname) != Generic
  {
    forall k | 0 <= k < |LyricsDomains|
      ensures IncludesCi(hostname, LyricsDomains[k]) <==> Includes(ToLowerAscii(hostname), LyricsDomains[k])
    {
      IncludesCiLowered(hostname, LyricsDomains[k]);
    }
    if Dispatch(hostname) != Generic {
      var h := ToLowerAscii(hostname);
      if Includes(h, "genius.com") {
        assert IncludesCi(hostname, LyricsDomains[0]);
      } else if Includes(h, "azlyrics.com") {
        assert IncludesCi(hostname, LyricsDomains[1]);
      } else if Includes(h, "musixmatch.com") {
        assert IncludesCi(hostname, LyricsDomains[3]);
      } else {
        if !Includes(h, "lyrics.com") {
          LyricsComCoversOtherDomains(h);
        }
        assert IncludesCi(hostname, LyricsDomains[2]);
      }
    }
  }

  // ------------------------------------------------------------------ selector cascades

  /** The loop that takes the first selector finding an element, even an empty one, and breaks. */
  function SelectorText(elements: map<string, Element>, selectors: seq<string>, current: string): string {
    if selectors == [] then current
    else if selectors[0] in elements then Trim(elements[selectors[0]].text)
    else SelectorText(elements, selectors[1..], current)
  }

  /** The first selector that finds an element decides, whatever its text. */
  lemma {:induction false} FirstFoundWins(elements: map<string, Element>, selectors: seq<string>, current: string, k: nat)
    requires k < |selectors| && selectors[k] in elements
    requires forall l :: 0 <= l < k ==> selectors[l] !in elements
    ensures SelectorText(elements, selectors, current) == Trim(elements[selectors[k]].text)
  {
    if k > 0 {
      FirstFoundWins(elements, selectors[1..], current, k - 1);
    }
  }

  /** When no selector finds anything the field keeps its value. */
  lemma {:induction false} NothingFoundKeeps(elements: map<string, Element>, selectors: seq<string>, current: string)
    requires forall l :: 0 <= l < |selectors| ==> selectors[l] !in elements
    ensures SelectorText(elements, selectors, current) == current
  {
    if selectors != [] {
      NothingFoundKeeps(elements, selectors[1..], current);
    }
  }

  method ConsultSelectors(elements: map<string, Element>, selectors: seq<string>, current: string) returns (value: string)
    ensures value == SelectorText(elements, selectors, current)
  {
    value := current;
    for i := 0 to |selectors|
      invariant SelectorText(elements, selectors, current) == SelectorText(elements, selectors[i..], current)
      invariant value == current
    {
      if selectors[i] in elements {
        value := Trim(elements[selectors[i]].text);
        break;
      }
      assert selectors[i..][1..] == selectors[i + 1..];
    }
  }

  /** The generic loop: every selector whose element has non-blank text is a candidate; the first fills an empty field. */
  function KeepFirstCandidate(elements: map<string, Element>, selectors: seq<string>, current: string): string {
    if selectors == [] then current
    else
      var next :=
        if selectors[0] in elements && Trim(elements[selectors[0]].text) != "" && current == ""
        then Trim(elements[selectors[0]].text) else current;
      KeepFirstCandidate(elements, selectors[1..], next)
  }

  /** Candidates never replace a field that is already set. */
  lemma {:induction false} CandidatesKeepSetField(elements: map<string, Element>, selectors: seq<string>, current: string)
    requires current != ""
    ensures KeepFirstCandidate(elements, selectors, current) == current
  {
    if selectors != [] {
      CandidatesKeepSetField(elements, selectors[1..], current);
    }
  }

  /** An empty field takes the text of the first selector whose element has non-blank text. */
  lemma {:induction false} FirstCandidateFills(elements: map<string, Element>, selectors: seq<string>, k: nat)
    requires k < |selectors| && selectors[k] in elements && Trim(elements[selectors[k]].text) != ""
    requires forall l :: 0 <= l < k ==> selectors[l] !in elements || Trim(elements[selectors[l]].text) == ""
    ensures KeepFirstCandidate(elements, selectors, "") == Trim(elements[selectors[k]].text)
  {
    if k == 0 {
      CandidatesKeepSetField(elements, selectors[1..], Trim(elements[selectors[0]].text));
    } else {
      FirstCandidateFills(elements, selectors[1..], k - 1);
    }
  }

  method FillFromCandidates(elements: map<string, Element>, selectors: seq<string>, current: string) returns (value: string)
    ensures value == KeepFirstCandidate(elements, selectors, current)
  {
    value := current;
    for i := 0 to |selectors|
      invariant KeepFirstCandidate(elements, selectors, current) == KeepFirstCandidate(elements, selectors[i..], value)
    {
      assert selectors[i..][1..] == selectors[i + 1..];
      if selectors[i] in elements && Trim(elements[selectors[i]].text) != "" {
        var possible := Trim(elements[selectors[i]].text);
        if value == "" {
          value := possible;
        }
      }
    }
  }

  // ------------------------------------------------------------------ structured data

  predicate GeniusKind(d: LinkedData) {
    d.kind == Some("MusicRecording") || d.kind == Some("BreadcrumbList")
  }

  /** The Genius JSON-LD loop: a `MusicRecording` or `BreadcrumbList` block fills a field only while it is empty. */
  function FillFromLinkedData(records: seq<Option<LinkedData>>, title: string, artist: string): (string, string) {
    if records == [] then (title, artist)
    else if records[0].Some? && GeniusKind(records[0].value) then
      var d := records[0].value;
      FillFromLinkedData(
        records[1..],
        if Truthy(d.name) && title == "" then d.name.value else title,
        if Truthy(d.byArtistName) && artist == "" then d.byArtistName.value else artist)
    else FillFromLinkedData(records[1..], title, artist)
  }

  /** Structured data never replaces a title or an artist the page already gave. */
  lemma {:induction false} LinkedDataKeepsSetFields(records: seq<Option<LinkedData>>, title: string, artist: string)
    ensures title != "" ==> FillFromLinkedData(records, title, artist).0 == title
    ensures artist != "" ==> FillFromLinkedData(records, title, artist).1 == artist
  {
    if records != [] {
      var d := records[0];
      if d.Some? && GeniusKind(d.value) {
        LinkedDataKeepsSetFields(records[1..],
          if Truthy(d.value.name) && title == "" then d.value.name.value else title,
          if Truthy(d.value.byArtistName) && artist == "" then d.value.byArtistName.value else artist);
      } else {
        LinkedDataKeepsSetFields(records[1..], title, artist);
      }
    }
  }

  /** An empty title takes the name of the first recognised block that has one. */
  lemma {:induction false} LinkedDataFirstNameFills(records: seq<Option<LinkedData>>, artist: string, k: nat)
    requires k < |records| && records[k].Some? && GeniusKind(records[k].value) && Truthy(records[k].value.name)
    requires forall l :: 0 <= l < k && records[l].Some? && GeniusKind(records[l].value) ==> !Truthy(records[l].value.name)
    ensures FillFromLinkedData(records, "", artist).0 == records[k].value.name.value
  {
    var d := records[0];
    var artist' := if d.Some? && GeniusKind(d.value) && Truthy(d.value.byArtistName) && artist == "" then d.value.byArtistName.value else artist;
    if k == 0 {
      LinkedDataKeepsSetFields(records[1..], d.value.name.value, artist');
    } else {
      assert FillFromLinkedData(records, "", artist) == FillFromLinkedData(records[1..], "", artist');
      LinkedDataFirstNameFills(records[1..], artist', k - 1);
    }
  }

  method ReadLinkedDataGenius(records: seq<Option<LinkedData>>, title: string, artist: string) returns (songTitle: string, artistName: string)
    ensures (songTitle, artistName) == FillFromLinkedData(records, title, artist)
  {
    songTitle, artistName := title, artist;
    for i := 0 to |records|
      invariant FillFromLinkedData(records, title, artist) == FillFromLinkedData(records[i..], songTitle, artistName)
    {
      assert records[i..][1..] == records[i + 1..];
      if records[i].Some? {
        var json := records[i].value;
        if json.kind == Some("MusicRecording") || json.kind == Some("BreadcrumbList") {
          if Truthy(json.name) && songTitle == "" {
            songTitle := json.name.value;
          }
          if Truthy(json.byArtistName) && artistName == "" {
            artistName := json.byArtistName.value;
          }
        }
      }
    }
  }

  /** The generic JSON-LD loop: every `MusicRecording` block with a name overwrites the fields. */
  function OverrideFromLinkedData(records: seq<Option<LinkedData>>, title: string, artist: string): (string, string) {
    if records == [] then (title, artist)
    else if records[0].Some? && records[0].value.kind == Some("MusicRecording") then
      var d := records[0].value;
      OverrideFromLinkedData(
        records[1..],
        if Truthy(d.name) then d.name.value else title,
        if Truthy(d.byArtistName) then d.byArtistName.value else artist)
    else OverrideFromLinkedData(records[1..], title, artist)
  }

  predicate NamedRecording(r: Option<LinkedData>) {
    r.Some? && r.value.kind == Some("MusicRecording") && Truthy(r.value.name)
  }

  /** The generic title is the name of the last `MusicRecording` block that has one, whatever the title pattern found. */
  lemma {:induction false} LastRecordingNameWins(records: seq<Option<LinkedData>>, title: string, artist: string, k: nat)
    requires k < |records| && NamedRecording(records[k])
    requires forall l :: k < l < |records| ==> !NamedRecording(records[l])
    ensures OverrideFromLinkedData(records, title, artist).0 == records[k].value.name.value
  {
    var d := records[0];
    var title' := if NamedRecording(d) then d.value.name.value else title;
    var artist' := if d.Some? && d.value.kind == Some("MusicRecording") && Truthy(d.value.byArtistName) then d.value.byArtistName.value else artist;
    assert OverrideFromLinkedData(records, title, artist) == OverrideFromLinkedData(records[1..], title', artist');
    if k == 0 {
      NoRecordingNameKeeps(records[1..], title', artist');
    } else {
      LastRecordingNameWins(records[1..], title', artist', k - 1);
    }
  }

  /** Without a named `MusicRecording` block the title is left as the pattern found it. */
  lemma {:induction false} NoRecordingNameKeeps(records: seq<Option<LinkedData>>, title: string, artist: string)
    requires forall l :: 0 <= l < |records| ==> !NamedRecording(records[l])
    ensures OverrideFromLinkedData(records, title, artist).0 == title
  {
    if records != [] {
      var d := records[0];
      var artist' := if d.Some? && d.value.kind == Some("MusicRecording") && Truthy(d.value.byArtistName) then d.value.byArtistName.value else artist;
      NoRecordingNameKeeps(records[1..], title, artist');
    }
  }

  method ReadLinkedDataGeneric(records: seq<Option<LinkedData>>, title: string, artist: string) returns (songTitle: string, artistName: string)
    ensures (songTitle, artistName) == OverrideFromLinkedData(records, title, artist)
  {
    songTitle, artistName := title, artist;
    for i := 0 to |records|
      invariant OverrideFromLinkedData(records, title, artist) == OverrideFromLinkedData(records[i..], songTitle, artistName)
    {
      assert records[i..][1..] == records[i + 1..];
      if records[i].Some? {
        var json := records[i].value;
        if json.kind == Some("MusicRecording") {
          if Truthy(json.name) {
            songTitle := json.name.value;
          }
          if Truthy(json.byArtistName) {
            artistName := json.byArtistName.value;
          }
        }
      }
    }
  }

  // ------------------------------------------------------------------ Genius

  /**
   * The Genius page-title pattern as written: its separator is an en dash whose UTF-8 bytes
   * were read as Windows-1252, giving the three characters U+00E2 U+20AC U+201C.
   */
  const AsWrittenGeniusTitle := Shape("", " \U{00E2}\U{20AC}\U{201C} ", " Lyrics | Genius Lyrics")

  /** The Genius page-title pattern as intended, with the en dash (U+2013) Genius puts in its titles. */
  const GeniusTitle := Shape("", " \U{2013} ", " Lyrics | Genius Lyrics")

  const GeniusTitleSelectors: seq<string> :=
    ["h1[class*=\"SongHeader__Title\"]", "[data-lyrics-container] h1", ".header_with_cover_art-primary_info-title"]
  const GeniusArtistSelectors: seq<string> :=
    ["a[class*=\"SongHeader__Artist\"]", ".header_with_cover_art-primary_info-primary_artist"]
  const GeniusAlbumSelector := "div[class*=\"SongAlbum__\"] a"
  const GeniusDateSelector := "div[class*=\"HeaderMetadata__\"] span:nth-child(1)"

  /** Title and artist from the page title, or empty when the pattern does not match. */
  function TitleGroups(title: string, p: Shape): (string, string) {
    match Match(title, p)
    case Some(m) => (Trim(Group2(title, p, m)), Trim(Group1(title, p, m)))
    case None => ("", "")
  }

  /** Title and artist after a page-title pattern and, if either is empty, the selector lists. */
  function GeniusHeader(page: Page, pattern: Shape): (string, string) {
    var (title, artist) := TitleGroups(page.title, pattern);
    if title == "" || artist == "" then
      (SelectorText(page.elements, GeniusTitleSelectors, title), SelectorText(page.elements, GeniusArtistSelectors, artist))
    else (title, artist)
  }

  /** The first standalone four-digit token of the trimmed text, or "". */
  function YearText(text: string, modern: bool): string {
    FirstYear(text, modern).GetOr("")
  }

  /** What `extractSongInfoGenius()` returns: it matches the page title against the pattern as written. */
  function GeniusInfo(page: Page): Metadata {
    GeniusInfoWith(page, AsWrittenGeniusTitle)
  }

  /** What the extractor would return with the en dash it evidently meant. */
  function GeniusInfoIntended(page: Page): Metadata {
    GeniusInfoWith(page, GeniusTitle)
  }

  /** What `extractSongInfoGenius()` returns with the given title pattern. */
  function GeniusInfoWith(page: Page, pattern: Shape): Metadata {
    var (title, artist) := GeniusHeader(page, pattern);
    var album := if GeniusAlbumSelector in page.elements then Trim(page.elements[GeniusAlbumSelector].text) else "";
    var year := if GeniusDateSelector in page.elements then YearText(Trim(page.elements[GeniusDateSelector].text), false) else "";
    var (title', artist') := if title == "" || artist == "" then FillFromLinkedData(page.linkedData, title, artist) else (title, artist);
    Metadata(Some(title'), Some(artist'), Some(album), Some(year), Some("genius.com"), Some(page.href), None, None, None)
  }

  method ExtractSongInfoGenius(page: Page) returns (info: Metadata)
    ensures info == GeniusInfo(page)
  {
    var songTitle, artistName, album, releaseYear := "", "", "", "";
    var titleMatch := Match(page.title, AsWrittenGeniusTitle);
    if titleMatch.Some? {
      artistName := Trim(Group1(page.title, AsWrittenGeniusTitle, titleMatch.value));
      songTitle := Trim(Group2(page.title, AsWrittenGeniusTitle, titleMatch.value));
    }
    if songTitle == "" || artistName == "" {
      songTitle := ConsultSelectors(page.elements, GeniusTitleSelectors, songTitle);
      artistName := ConsultSelectors(page.elements, GeniusArtistSelectors, artistName);
    }
    if GeniusAlbumSelector in page.elements {
      album := Trim(page.elements[GeniusAlbumSelector].text);
    }
    if GeniusDateSelector in page.elements {
      var releaseText := Trim(page.elements[GeniusDateSelector].text);
      var yearMatch := FirstYear(releaseText, false);
      if yearMatch.Some? {
        releaseYear := yearMatch.value;
      }
    }
    if songTitle == "" || artistName == "" {
      songTitle, artistName := ReadLinkedDataGenius(page.linkedData, songTitle, artistName);
    }
    info := Metadata(Some(songTitle), Some(artistName), Some(album), Some(releaseYear),
                     Some("genius.com"), Some(page.href), None, None, None);
  }

  /** When the page title gives both fields, neither the selectors nor the structured data are consulted. */
  lemma GeniusTitlePatternWins(page: Page, p: Shape)
    requires Match(page.title, p).Some?
    requires TitleGroups(page.title, p).0 != "" && TitleGroups(page.title, p).1 != ""
    ensures GeniusInfoWith(page, p).songTitle == Some(Trim(Group2(page.title, p, Match(page.title, p).value)))
    ensures GeniusInfoWith(page, p).artistName == Some(Trim(Group1(page.title, p, Match(page.title, p).value)))
  {
  }

  /**
   * When the pattern leaves a field empty, both selector lists are consulted: the first title
   * selector that finds an element overwrites the title, even with empty text, and the artist
   * comes from the artist list in the same way.
   */
  lemma GeniusSelectorsOverwrite(page: Page, p: Shape, k: nat)
    requires TitleGroups(page.title, p).0 == "" || TitleGroups(page.title, p).1 == ""
    requires k < |GeniusTitleSelectors| && GeniusTitleSelectors[k] in page.elements
    requires forall l :: 0 <= l < k ==> GeniusTitleSelectors[l] !in page.elements
    ensures GeniusHeader(page, p).0 == Trim(page.elements[GeniusTitleSelectors[k]].text)
    ensures GeniusHeader(page, p).1 == SelectorText(page.elements, GeniusArtistSelectors, TitleGroups(page.title, p).1)
  {
    FirstFoundWins(page.elements, GeniusTitleSelectors, TitleGroups(page.title, p).0, k);
  }

  /** Likewise the first artist selector that finds an element overwrites the artist, even with empty text. */
  lemma GeniusArtistSelectorsOverwrite(page: Page, p: Shape, k: nat)
    requires TitleGroups(page.title, p).0 == "" || TitleGroups(page.title, p).1 == ""
    requires k < |GeniusArtistSelectors| && GeniusArtistSelectors[k] in page.elements
    requires forall l :: 0 <= l < k ==> GeniusArtistSelectors[l] !in page.elements
    ensures GeniusHeader(page, p).1 == Trim(page.elements[GeniusArtistSelectors[k]].text)
  {
    FirstFoundWins(page.elements, GeniusArtistSelectors, TitleGroups(page.title, p).1, k);
  }

  /** A page title without the letter â (in either case) never matches the pattern as written: real Genius titles are all missed. */
  lemma AsWrittenGeniusTitleMissesRealTitles(title: string)
    requires forall k :: 0 <= k < |title| ==> title[k] != '\U{00E2}' && title[k] != '\U{00C2}'
    ensures Match(title, AsWrittenGeniusTitle).None?
  {
    forall k: nat | k + |AsWrittenGeniusTitle.sep| <= |title|
      ensures !OccursAt(title, k, AsWrittenGeniusTitle.sep, true)
    {
      assert Canon(title[k + 1]) != Canon(AsWrittenGeniusTitle.sep[1]);
    }
  }

  /**
   * So with the pattern as written the extractor never reads the page title: on a title
   * without â both fields come from the selectors alone (or, failing them, structured data).
   */
  lemma AsWrittenGeniusIgnoresTitle(page: Page)
    requires forall k :: 0 <= k < |page.title| ==> page.title[k] != '\U{00E2}' && page.title[k] != '\U{00C2}'
    ensures GeniusHeader(page, AsWrittenGeniusTitle) ==
      (SelectorText(page.elements, GeniusTitleSelectors, ""), SelectorText(page.elements, GeniusArtistSelectors, ""))
  {
    AsWrittenGeniusTitleMissesRealTitles(page.title);
  }

  /** Only the en dash itself compares equal to an en dash under the case-insensitive flag. */
  lemma CanonEnDash(c: char)
    requires Canon(c) == '\U{2013}'
    ensures c == '\U{2013}'
  {
  }

  /** The intended pattern splits a real Genius title into artist and song. */
  lemma GeniusTitleSplitsRealTitles(artist: string, song: string)
    requires forall k :: 0 <= k < |artist| ==> !IsLineTerminator(artist[k])
    requires forall k :: 0 <= k < |song| ==> !IsLineTerminator(song[k]) && song[k] != '\U{2013}'
    ensures var title := artist + " \U{2013} " + song + " Lyrics | Genius Lyrics";
      && Match(title, GeniusTitle).Some?
      && Group1(title, GeniusTitle, Match(title, GeniusTitle).value) == artist
      && Group2(title, GeniusTitle, Match(title, GeniusTitle).value) == song
  {
    var title := artist + GeniusTitle.sep + song + GeniusTitle.suf;
    GeniusTitleOnOneLine(artist, song);
    GeniusTitleHasOneSeparator(artist, song);
    MatchOfJoined(title, GeniusTitle, artist, song);
  }

  /** A title built from one-line parts is on one line. */
  lemma GeniusTitleOnOneLine(artist: string, song: string)
    requires forall k :: 0 <= k < |artist| ==> !IsLineTerminator(artist[k])
    requires forall k :: 0 <= k < |song| ==> !IsLineTerminator(song[k])
    ensures var title := artist + GeniusTitle.sep + song + GeniusTitle.suf; NoLineBreak(title, 0, |title|)
  {
    var title := artist + GeniusTitle.sep + song + GeniusTitle.suf;
    var a := |artist|;
    forall i | 0 <= i < |title|
      ensures !IsLineTerminator(title[i])
    {
      if i < a {
        assert title[i] == artist[i];
      } else if i < a + 3 {
        assert title[i] == GeniusTitle.sep[i - a];
      } else if i < a + 3 + |song| {
        assert title[i] == song[i - a - 3];
      } else {
        assert title[i] == GeniusTitle.suf[i - a - 3 - |song|];
      }
    }
  }

  /** With no en dash in the song, the separator occurs only right after the artist. */
  lemma GeniusTitleHasOneSeparator(artist: string, song: string)
    requires forall k :: 0 <= k < |song| ==> song[k] != '\U{2013}'
    ensures var title := artist + GeniusTitle.sep + song + GeniusTitle.suf;
      forall k :: |artist| < k ==> !OccursAt(title, k, GeniusTitle.sep, true)
  {
    var title := artist + GeniusTitle.sep + song + GeniusTitle.suf;
    var a := |artist|;
    assert forall i :: a + 1 < i < |title| ==> title[i] != '\U{2013}' by {
      forall i | a + 1 < i < |title|
        ensures title[i] != '\U{2013}'
      {
        if i < a + 3 {
          assert title[i] == GeniusTitle.sep[i - a];
        } else if i < a + 3 + |song| {
          assert title[i] == song[i - a - 3];
        } else {
          assert title[i] == GeniusTitle.suf[i - a - 3 - |song|];
        }
      }
    }
    forall k | a < k
      ensures !OccursAt(title, k, GeniusTitle.sep, true)
    {
      if OccursAt(title, k, GeniusTitle.sep, true) {
        assert Canon(title[k + 1]) == Canon(GeniusTitle.sep[1]);
        CanonEnDash(title[k + 1]);
      }
    }
  }

  /** On a Genius page whose title names both artist and song, the intended extractor reports them, trimmed. */
  lemma GeniusReadsRealTitle(page: Page, artist: string, song: string)
    requires forall k :: 0 <= k < |artist| ==> !IsLineTerminator(artist[k])
    requires forall k :: 0 <= k < |song| ==> !IsLineTerminator(song[k]) && song[k] != '\U{2013}'
    requires Trim(artist) != "" && Trim(song) != ""
    requires page.title == artist + " \U{2013} " + song + " Lyrics | Genius Lyrics"
    ensures GeniusInfoIntended(page).songTitle == Some(Trim(song))
    ensures GeniusInfoIntended(page).artistName == Some(Trim(artist))
  {
    GeniusTitleSplitsRealTitles(artist, song);
    assert TitleGroups(page.title, GeniusTitle) == (Trim(song), Trim(artist));
    GeniusTitlePatternWins(page, GeniusTitle);
  }

  /**
   * The discrepancy on one page: a real Genius title and nothing else to read. The extractor
   * as written reports an empty title and artist; the intended one reports both.
   */
  lemma GeniusMissesRealTitle(page: Page, artist: string, song: string)
    requires forall k :: 0 <= k < |artist| ==> !IsLineTerminator(artist[k])
    requires forall k :: 0 <= k < |song| ==> !IsLineTerminator(song[k]) && song[k] != '\U{2013}'
    requires Trim(artist) != "" && Trim(song) != ""
    requires page.title == artist + " \U{2013} " + song + " Lyrics | Genius Lyrics"
    requires forall k :: 0 <= k < |page.title| ==> page.title[k] != '\U{00E2}' && page.title[k] != '\U{00C2}'
    requires page.elements == map[] && page.linkedData == []
    ensures GeniusInfo(page).songTitle == Some("") && GeniusInfo(page).artistName == Some("")
    ensures GeniusInfoIntended(page).songTitle == Some(Trim(song)) && GeniusInfoIntended(page).artistName == Some(Trim(artist))
  {
    AsWrittenGeniusIgnoresTitle(page);
    NothingFoundKeeps(page.elements, GeniusTitleSelectors, "");
    NothingFoundKeeps(page.elements, GeniusArtistSelectors, "");
    GeniusReadsRealTitle(page, artist, song);
  }

  // ------------------------------------------------------------------ AZLyrics

  /** `/(.*) - (.*) Lyrics \| AZLyrics\.com/i`. */
  const AZLyricsTitle := Shape("", " - ", " Lyrics | AZLyrics.com")
  const AZLyricsArtistSelector := "div.lyricsh h2"
  const AZLyricsTitleSelector := ".ringtone ~ b"
  const AZLyricsAlbumPanel := "div.panel.album-panel"

  /** Title and artist: the page-title pattern, or else the two DOM fallbacks. */
  function AZLyricsHeader(page: Page): (string, string) {
    if Match(page.title, AZLyricsTitle).Some? then TitleGroups(page.title, AZLyricsTitle)
    else
      var artist :=
        if AZLyricsArtistSelector in page.elements
        then Trim(ReplaceFirst(page.elements[AZLyricsArtistSelector].text, "Lyrics", "", false)) else "";
      var title :=
        if AZLyricsTitleSelector in page.elements
        then Trim(ReplaceFirst(ReplaceFirst(page.elements[AZLyricsTitleSelector].text, "\"", "", false), "\"", "", false)) else "";
      (title, artist)
  }

  /** What `extractSongInfoAZLyrics()` returns. */
  function AZLyricsInfo(page: Page): Metadata {
    var (title, artist) := AZLyricsHeader(page);
    var panel := if AZLyricsAlbumPanel in page.elements then Some(page.elements[AZLyricsAlbumPanel]) else None;
    var album := if panel.Some? && "a" in panel.value.inner then Trim(panel.value.inner["a"]) else "";
    var year := if panel.Some? then YearText(panel.value.text, true) else "";
    Metadata(Some(title), Some(artist), Some(album), Some(year), Some("azlyrics.com"), Some(page.href), None, None, None)
  }

  method ExtractSongInfoAZLyrics(page: Page) returns (info: Metadata)
    ensures info == AZLyricsInfo(page)
  {
    var songTitle, artistName, album, releaseYear := "", "", "", "";
    var titleMatch := Match(page.title, AZLyricsTitle);
    if titleMatch.Some? {
      artistName := Trim(Group1(page.title, AZLyricsTitle, titleMatch.value));
      songTitle := Trim(Group2(page.title, AZLyricsTitle, titleMatch.value));
    } else {
      if AZLyricsArtistSelector in page.elements {
        artistName := Trim(ReplaceFirst(page.elements[AZLyricsArtistSelector].text, "Lyrics", "", false));
      }
      if AZLyricsTitleSelector in page.elements {
        var text := page.elements[AZLyricsTitleSelector].text;
        songTitle := Trim(ReplaceFirst(ReplaceFirst(text, "\"", "", false), "\"", "", false));
      }
    }
    if AZLyricsAlbumPanel in page.elements {
      var albumDiv := page.elements[AZLyricsAlbumPanel];
      if "a" in albumDiv.inner {
        album := Trim(albumDiv.inner["a"]);
      }
      var yearMatch := FirstYear(albumDiv.text, true);
      if yearMatch.Some? {
        releaseYear := yearMatch.value;
      }
    }
    info := Metadata(Some(songTitle), Some(artistName), Some(album), Some(releaseYear),
                     Some("azlyrics.com"), Some(page.href), None, None, None);
  }

  /** The AZLyrics year is searched only inside the album panel. */
  lemma AZLyricsYearNeedsAlbumPanel(page: Page)
    requires AZLyricsAlbumPanel !in page.elements
    ensures AZLyricsInfo(page).releaseYear == Some("") && AZLyricsInfo(page).album == Some("")
  {
  }

  // ------------------------------------------------------------------ placeholders

  /** The unfinished extractors (Musixmatch, Lyrics.com, MetroLyrics, SongLyrics): every field empty. */
  function PlaceholderInfo(page: Page, site: Site): Metadata {
    Metadata(Some(""), Some(""), Some(""), Some(""), Some(SourceName(site)), Some(page.href), None, None, None)
  }

  // ------------------------------------------------------------------ generic

  const OgTitleSelector := "meta[property=\"og:title\"]"
  /** `/(.*) - (.*) Lyrics/i`: artist, then title. */
  const ArtistDashSong := Shape("", " - ", " Lyrics")
  /** `/(.*) Lyrics by (.*)/i`: title, then artist. */
  const SongLyricsByArtist := Shape("", " Lyrics by ", "")
  /** `/Lyrics to (.*) by (.*)/i`: title, then artist. */
  const LyricsToSongByArtist := Shape("Lyrics to ", " by ", "")

  const GenericTitleSelectors: seq<string> :=
    ["h1.song-title", ".song-title", "#song-title", ".track-title", ".title", "h1.title",
     "[class*=\"title\" i]", "[id*=\"title\" i]"]
  const GenericArtistSelectors: seq<string> :=
    [".artist-name", ".artist", "#artist-name", "#artist", "[class*=\"artist\" i]", "[id*=\"artist\" i]"]

  /** The three page-title patterns, the first that matches deciding. */
  function GenericTitleGuess(title: string): (string, string) {
    if Match(title, ArtistDashSong).Some? then TitleGroups(title, ArtistDashSong)
    else if Match(title, SongLyricsByArtist).Some? then
      var m := Match(title, SongLyricsByArtist).value;
      (Trim(Group1(title, SongLyricsByArtist, m)), Trim(Group2(title, SongLyricsByArtist, m)))
    else if Match(title, LyricsToSongByArtist).Some? then
      var m := Match(title, LyricsToSongByArtist).value;
      (Trim(Group1(title, LyricsToSongByArtist, m)), Trim(Group2(title, LyricsToSongByArtist, m)))
    else ("", "")
  }

  /** The generic `confidence`: medium when both fields are set. */
  function Confidence(title: string, artist: string): string {
    if title != "" && artist != "" then "medium" else "low"
  }

  function GenericResult(page: Page, title: string, artist: string): Metadata {
    Metadata(Some(title), Some(artist), None, None, Some("generic"), Some(page.href), Some(Confidence(title, artist)), None, None)
  }

  /**
   * What `extractSongInfoGeneric()` returns. An `og:title` element without a `content`
   * attribute makes `title.split` throw, and the handler returns the still-empty fields.
   */
  function GenericInfo(page: Page): Metadata {
    if OgTitleSelector in page.elements && page.elements[OgTitleSelector].content.None? then
      GenericResult(page, "", "")
    else
      var (title, artist) := GenericTitleGuess(page.title);
      var (title', artist') := OverrideFromLinkedData(page.linkedData, title, artist);
      GenericResult(page,
        KeepFirstCandidate(page.elements, GenericTitleSelectors, title'),
        KeepFirstCandidate(page.elements, GenericArtistSelectors, artist'))
  }

  method ExtractSongInfoGeneric(page: Page) returns (info: Metadata)
    ensures info == GenericInfo(page)
  {
    var songTitle, artistName := "", "";
    if OgTitleSelector in page.elements {
      var title := page.elements[OgTitleSelector].content;
      if title.None? {
        info := GenericResult(page, songTitle, artistName);
        return;
      }
    }
    var pageTitle := page.title;
    var pattern1 := Match(pageTitle, ArtistDashSong);
    if pattern1.Some? {
      artistName := Trim(Group1(pageTitle, ArtistDashSong, pattern1.value));
      songTitle := Trim(Group2(pageTitle, ArtistDashSong, pattern1.value));
    } else if Match(pageTitle, SongLyricsByArtist).Some? {
      var pattern2 := Match(pageTitle, SongLyricsByArtist).value;
      songTitle := Trim(Group1(pageTitle, SongLyricsByArtist, pattern2));
      artistName := Trim(Group2(pageTitle, SongLyricsByArtist, pattern2));
    } else if Match(pageTitle, LyricsToSongByArtist).Some? {
      var pattern3 := Match(pageTitle, LyricsToSongByArtist).value;
      songTitle := Trim(Group1(pageTitle, LyricsToSongByArtist, pattern3));
      artistName := Trim(Group2(pageTitle, LyricsToSongByArtist, pattern3));
    }
    songTitle, artistName := ReadLinkedDataGeneric(page.linkedData, songTitle, artistName);
    songTitle := FillFromCandidates(page.elements, GenericTitleSelectors, songTitle);
    artistName := FillFromCandidates(page.elements, GenericArtistSelectors, artistName);
    info := GenericResult(page, songTitle, artistName);
  }

  /** The generic confidence is medium exactly when the returned title and artist are both non-empty. */
  lemma GenericConfidenceRule(page: Page)
    ensures GenericInfo(page).confidence == Some("medium") <==> GenericInfo(page).songTitle != Some("") && GenericInfo(page).artistName != Some("")
    ensures GenericInfo(page).confidence == Some("medium") || GenericInfo(page).confidence == Some("low")
  {
  }

  // ------------------------------------------------------------------ extractSongInfo

  /** The title clean-up: a trailing " lyrics", the first "(Official Lyrics)", every bracketed group, then the white space at either end. */
  function CleanTitle(title: string): (r: string)
    ensures r == "" || (!IsJsSpace(r[0]) && !IsJsSpace(r[|r| - 1]))
    ensures NoBracketGroup(r)
  {
    var s := StripBrackets(ReplaceFirst(StripSuffixCi(title, " lyrics"), "(Official Lyrics)", "", true));
    StripBracketsLeavesNoGroup(ReplaceFirst(StripSuffixCi(title, " lyrics"), "(Official Lyrics)", "", true));
    TrimKeepsNoBracketGroup(s);
    Trim(s)
  }

  /** The artist clean-up: a trailing " lyrics", a leading "lyrics by ", then the white space at either end. */
  function CleanArtist(artist: string): (r: string)
    ensures r == "" || (!IsJsSpace(r[0]) && !IsJsSpace(r[|r| - 1]))
  {
    Trim(StripPrefixCi(StripSuffixCi(artist, " lyrics"), "lyrics by "))
  }

  /** A title with nothing to remove is only trimmed. */
  lemma CleanTitleOfPlainTitle(title: string)
    requires !(|title| >= 7 && OccursAt(title, |title| - 7, " lyrics", true))
    requires forall k :: !OccursAt(title, k, "(Official Lyrics)", true)
    requires forall k :: 0 <= k < |title| ==> title[k] != '['
    ensures CleanTitle(title) == Trim(title)
  {
    assert StripSuffixCi(title, " lyrics") == title;
    assert Find(title, "(Official Lyrics)", true, 0).None?;
    assert ReplaceFirst(title, "(Official Lyrics)", "", true) == title;
    StripBracketsWithoutOpen(title);
  }

  /** An artist with nothing to remove is only trimmed. */
  lemma CleanArtistOfPlainArtist(artist: string)
    requires !(|artist| >= 7 && OccursAt(artist, |artist| - 7, " lyrics", true))
    requires !OccursAt(artist, 0, "lyrics by ", true)
    ensures CleanArtist(artist) == Trim(artist)
  {
  }

  /** The first "(Official Lyrics)", in any case, is cut out of the title. */
  lemma CleanTitleDropsOfficialLyrics(a: string, b: string)
    requires forall k :: 0 <= k < |a| ==> a[k] != '[' && a[k] != '('
    requires forall k :: 0 <= k < |b| ==> b[k] != '['
    requires var t := a + "(Official Lyrics)" + b; !OccursAt(t, |t| - 7, " lyrics", true)
    ensures CleanTitle(a + "(Official Lyrics)" + b) == Trim(a + b)
  {
    var t := a + "(Official Lyrics)" + b;
    assert StripSuffixCi(t, " lyrics") == t;
    ReplaceOfficialLyrics(a, b);
    JoinedWithoutOpen(a, b);
  }

  /** Cutting out the first "(Official Lyrics)" joins what surrounds it. */
  lemma ReplaceOfficialLyrics(a: string, b: string)
    requires forall k :: 0 <= k < |a| ==> a[k] != '('
    ensures ReplaceFirst(a + "(Official Lyrics)" + b, "(Official Lyrics)", "", true) == a + b
  {
    OfficialLyricsFirstAt(a, b);
    ReplaceFirstBetween(a, "(Official Lyrics)", b);
  }

  /** When the first occurrence of `o` sits right after `a`, replacing it by nothing joins `a` and `b`. */
  lemma ReplaceFirstBetween(a: string, o: string, b: string)
    requires Find(a + o + b, o, true, 0) == Some(|a|)
    ensures ReplaceFirst(a + o + b, o, "", true) == a + b
  {
    var t := a + o + b;
    assert t[..|a|] == a;
    assert t[|a| + |o|..] == b;
  }

  /** Joining two texts without `[` leaves the bracket strip nothing to do. */
  lemma JoinedWithoutOpen(a: string, b: string)
    requires forall k :: 0 <= k < |a| ==> a[k] != '['
    requires forall k :: 0 <= k < |b| ==> b[k] != '['
    ensures StripBrackets(a + b) == a + b
  {
    var u := a + b;
    forall k | 0 <= k < |u|
      ensures u[k] != '['
    {
      if k >= |a| { assert u[k] == b[k - |a|]; } else { assert u[k] == a[k]; }
    }
    StripBracketsWithoutOpen(u);
  }

  /** After a prefix without `(`, the first "(Official Lyrics)" is the one that follows it. */
  lemma OfficialLyricsFirstAt(a: string, b: string)
    requires forall k :: 0 <= k < |a| ==> a[k] != '('
    ensures Find(a + "(Official Lyrics)" + b, "(Official Lyrics)", true, 0) == Some(|a|)
  {
    var t := a + "(Official Lyrics)" + b;
    forall k: nat | k < |a|
      ensures !OccursAt(t, k, "(Official Lyrics)", true)
    {
      assert t[k] == a[k];
      assert Canon(t[k]) != Canon("(Official Lyrics)"[0]);
    }
    assert t[|a|..|a| + 17] == "(Official Lyrics)";
    assert OccursAt(t, |a|, "(Official Lyrics)", true);
  }

  /** An artist that only ends in " lyrics" loses exactly that. */
  lemma CleanArtistDropsSuffix(r: string)
    requires |r| >= 1 && !IsJsSpace(r[0]) && !IsJsSpace(r[|r| - 1])
    requires !OccursAt(r, 0, "lyrics by ", true)
    ensures CleanArtist(r + " lyrics") == r
  {
    var t := r + " lyrics";
    assert t[|t| - 7..] == " lyrics" && t[..|t| - 7] == r;
    assert OccursAt(t, |t| - 7, " lyrics", true);
    assert StripSuffixCi(t, " lyrics") == r;
    TrimOfTrimmed(r);
  }

  /** Text without `(` holds no "(Official Lyrics)". */
  lemma NoOfficialLyrics(s: string)
    requires forall k :: 0 <= k < |s| ==> s[k] != '('
    ensures forall k: nat :: !OccursAt(s, k, "(Official Lyrics)", true)
  {
    forall k: nat | k < |s|
      ensures !OccursAt(s, k, "(Official Lyrics)", true)
    {
      assert Canon(s[k]) != Canon("(Official Lyrics)"[0]);
    }
  }

  /** A title that only ends in " lyrics" loses exactly that. */
  lemma CleanTitleDropsOneSuffix(t: string)
    requires |t| > 7 && t[|t| - 7..] == " lyrics"
    requires forall k :: 0 <= k < |t| ==> t[k] != '[' && t[k] != '('
    requires !IsJsSpace(t[0]) && !IsJsSpace(t[|t| - 8])
    ensures CleanTitle(t) == t[..|t| - 7]
  {
    var p := t[..|t| - 7];
    assert OccursAt(t, |t| - 7, " lyrics", true);
    assert StripSuffixCi(t, " lyrics") == p;
    NoOfficialLyrics(p);
    assert ReplaceFirst(p, "(Official Lyrics)", "", true) == p;
    StripBracketsWithoutOpen(p);
    TrimOfTrimmed(p);
  }

  /**
   * One pass of the title clean-up removes a single trailing " lyrics", so a second pass
   * can change the result again.
   */
  lemma CleanTitleNotIdempotent(q: string)
    requires |q| >= 1 && !IsJsSpace(q[0]) && !IsJsSpace(q[|q| - 1])
    requires forall k :: 0 <= k < |q| ==> q[k] != '[' && q[k] != '('
    ensures CleanTitle(q + " lyrics lyrics") == q + " lyrics"
    ensures CleanTitle(q + " lyrics") == q
  {
    var once := q + " lyrics";
    var twice := once + " lyrics";
    assert q + " lyrics lyrics" == twice;
    WithLyricsSuffix(q);
    WithLyricsSuffix(once);
    assert twice[0] == once[0] == q[0];
    assert twice[|twice| - 8] == 's' && once[|once| - 8] == q[|q| - 1];
    CleanTitleDropsOneSuffix(twice);
    CleanTitleDropsOneSuffix(once);
  }

  /** Appending " lyrics" brings in no bracket, and the suffix can be cut off again. */
  lemma WithLyricsSuffix(t: string)
    requires forall k :: 0 <= k < |t| ==> t[k] != '[' && t[k] != '('
    ensures var u := t + " lyrics"; u[|u| - 7..] == " lyrics" && u[..|u| - 7] == t
    ensures var u := t + " lyrics"; forall k :: 0 <= k < |u| ==> u[k] != '[' && u[k] != '('
  {
    var u := t + " lyrics";
    assert u[|u| - 7..] == " lyrics";
    assert u[..|u| - 7] == t;
    forall k | 0 <= k < |u|
      ensures u[k] != '[' && u[k] != '('
    {
      if k >= |t| { assert u[k] == " lyrics"[k - |t|]; }
    }
  }

  /** One pass of the artist clean-up removes a single leading "lyrics by ", so a second pass can change the result again. */
  lemma CleanArtistNotIdempotent(q: string)
    requires |q| >= 7 && !IsJsSpace(q[0]) && !IsJsSpace(q[|q| - 1])
    requires !OccursAt(q, |q| - 7, " lyrics", true)
    ensures CleanArtist("lyrics by " + ("lyrics by " + q)) == "lyrics by " + q
    ensures CleanArtist("lyrics by " + q) == q
  {
    var once := "lyrics by " + q;
    CleanArtistDropsOnePrefix(q);
    assert once[0] == 'l';
    CleanArtistDropsOnePrefix(once);
  }

  /** An artist that only starts with "lyrics by " loses exactly that, and keeps its ending. */
  lemma CleanArtistDropsOnePrefix(r: string)
    requires |r| >= 7 && !IsJsSpace(r[0]) && !IsJsSpace(r[|r| - 1])
    requires !OccursAt(r, |r| - 7, " lyrics", true)
    ensures var t := "lyrics by " + r; !OccursAt(t, |t| - 7, " lyrics", true) && !IsJsSpace(t[|t| - 1])
    ensures CleanArtist("lyrics by " + r) == r
  {
    var t := "lyrics by " + r;
    assert t[|t| - 7..] == r[|r| - 7..];
    assert !OccursAt(t, |t| - 7, " lyrics", true);
    assert StripSuffixCi(t, " lyrics") == t;
    assert t[..10] == "lyrics by ";
    assert OccursAt(t, 0, "lyrics by ", true);
    assert t[10..] == r;
    TrimOfTrimmed(r);
  }

  /** The extractor `extractSongInfo` runs for a site. */
  function SiteInfo(site: Site, page: Page): Metadata {
    match site
    case Genius => GeniusInfo(page)
    case AZLyrics => AZLyricsInfo(page)
    case Generic => GenericInfo(page)
    case _ => PlaceholderInfo(page, site)
  }

  /** The post-processing of `extractSongInfo`: clean a non-empty title and artist, stamp the page URL. */
  function PostProcess(raw: Metadata, href: string): Metadata {
    raw.(
      songTitle := if Truthy(raw.songTitle) then Some(CleanTitle(raw.songTitle.value)) else raw.songTitle,
      artistName := if Truthy(raw.artistName) then Some(CleanArtist(raw.artistName.value)) else raw.artistName,
      url := Some(href))
  }

  /** What `extractSongInfo()` returns. */
  function SongInfo(page: Page): Metadata {
    PostProcess(SiteInfo(Dispatch(page.hostname), page), page.href)
  }

  /** The dispatch chain of `extractSongInfo`. */
  method RunExtractor(page: Page) returns (result: Metadata)
    ensures result == SiteInfo(Dispatch(page.hostname), page)
  {
    var hostname := ToLowerAscii(page.hostname);
    if Includes(hostname, "genius.com") {
      result := ExtractSongInfoGenius(page);
    } else if Includes(hostname, "azlyrics.com") {
      result := ExtractSongInfoAZLyrics(page);
    } else if Includes(hostname, "musixmatch.com") {
      result := PlaceholderInfo(page, Musixmatch);
    } else if Includes(hostname, "lyrics.com") {
      result := PlaceholderInfo(page, LyricsCom);
    } else if Includes(hostname, "metrolyrics.com") {
      result := PlaceholderInfo(page, MetroLyrics);
    } else if Includes(hostname, "songlyrics.com") {
      result := PlaceholderInfo(page, SongLyrics);
    } else {
      result := ExtractSongInfoGeneric(page);
    }
  }

  method ExtractSongInfo(page: Page) returns (result: Metadata)
    ensures result == SongInfo(page)
  {
    result := RunExtractor(page);
    if Truthy(result.songTitle) {
      result := result.(songTitle := Some(CleanTitle(result.songTitle.value)));
    }
    if Truthy(result.artistName) {
      result := result.(artistName := Some(CleanArtist(result.artistName.value)));
    }
    result := result.(url := Some(page.href));
  }

  /** Every result carries the page URL and the fixed source name of the extractor that ran. */
  lemma SongInfoStampsSourceAndUrl(page: Page)
    ensures SongInfo(page).url == Some(page.href)
    ensures SongInfo(page).source == Some(SourceName(Dispatch(page.hostname)))
    ensures SongInfo(page).source != Some("metrolyrics.com") && SongInfo(page).source != Some("songlyrics.com")
  {
    MetroAndSongLyricsUnreachable(page.hostname);
  }

  /** A release year, when one is found, is a four-digit token; on AZLyrics it starts with 19 or 20. */
  lemma SongInfoYearIsToken(page: Page)
    ensures SongInfo(page).releaseYear.Some? && SongInfo(page).releaseYear.value != "" ==>
      IsYearToken(SongInfo(page).releaseYear.value, Dispatch(page.hostname) == AZLyrics)
  {
    var site := Dispatch(page.hostname);
    if site == Genius && GeniusDateSelector in page.elements {
      var text := Trim(page.elements[GeniusDateSelector].text);
      if FirstYear(text, false).Some? {
        FirstYearIsToken(text, false);
      }
    } else if site == AZLyrics && AZLyricsAlbumPanel in page.elements {
      var text := page.elements[AZLyricsAlbumPanel].text;
      if FirstYear(text, true).Some? {
        FirstYearIsToken(text, true);
      }
    }
  }

  /** The cleaned title never keeps a bracketed group and never has white space at its ends. */
  lemma SongInfoTitleIsClean(page: Page)
    requires Truthy(SiteInfo(Dispatch(page.hostname), page).songTitle)
    ensures SongInfo(page).songTitle.Some?
    ensures NoBracketGroup(SongInfo(page).songTitle.value)
  {
  }

  // ------------------------------------------------------------------ selections

  /** `processSelectedText()`: the messages it sends, one for a selection longer than ten UTF-16 units after trimming, none otherwise. */
  method ProcessSelectedText(page: Page) returns (sent: seq<Message>)
    ensures Utf16Length(Trim(page.selection)) > 10 ==> sent == [ProcessHighlightedText(Trim(page.selection), Some(SongInfo(page)))]
    ensures Utf16Length(Trim(page.selection)) <= 10 ==> sent == []
  {
    var selectedText := Trim(page.selection);
    if Utf16Length(selectedText) > 10 {
      var songInfo := ExtractSongInfo(page);
      sent := [ProcessHighlightedText(selectedText, Some(songInfo))];
    } else {
      sent := [];
    }
  }

  /**
   * The gate counts UTF-16 units, not characters: more than ten characters always pass,
   * at most five never do, and in between it depends on how many lie outside the BMP.
   */
  lemma SelectionGateByCharacters(page: Page)
    ensures |Trim(page.selection)| > 10 ==> Utf16Length(Trim(page.selection)) > 10
    ensures |Trim(page.selection)| <= 5 ==> Utf16Length(Trim(page.selection)) <= 10
  {
  }

  /** The content script's listener: `processSelectedText` from the background runs the selection gate. */
  method OnMessage(page: Page, message: Message) returns (sent: seq<Message>)
    ensures message != Message.ProcessSelectedText ==> sent == []
    ensures message == Message.ProcessSelectedText ==> |sent| <= 1
    ensures forall k :: 0 <= k < |sent| ==> sent[k].ProcessHighlightedText? && sent[k].pageMetadata == Some(SongInfo(page))
  {
    sent := [];
    if message == Message.ProcessSelectedText {
      sent := ProcessSelectedText(page);
    }
  }

  /**
   * The click handler of the badge shown on lyrics sites: ask the background to open the
   * side panel, then run the selection gate (the 100 ms delay between the two is not modelled).
   */
  method OnBadgeClick(page: Page) returns (sent: seq<Message>)
    requires IsLyricsSite(page.hostname)
    ensures Utf16Length(Trim(page.selection)) > 10 ==>
      sent == [OpenSidePanel, ProcessHighlightedText(Trim(page.selection), Some(SongInfo(page)))]
    ensures Utf16Length(Trim(page.selection)) <= 10 ==> sent == [OpenSidePanel]
  {
    var selected := ProcessSelectedText(page);
    sent := [OpenSidePanel] + selected;
  }
}
