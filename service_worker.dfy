/**
 * The background worker: side-panel registration, the toolbar action, and the message
 * handler that stores and forwards selections, validates their metadata with the
 * validation service, and relays translation requests to the translation service.
 * Every `fetch` is modelled by the request the worker sends and a reply given as a
 * parameter; the runtime message bus and tab messages by logs.
 */
module ServiceWorker {
  import opened Wrappers
  import opened JsText
  import opened Song

  // ------------------------------------------------------------------ replies

  /** What `response.json()` yields: a value, or a rejection (a body that is not JSON, or `null` where a property is read). */
  datatype Body<T> = Parsed(value: T) | Malformed(message: string)

  /** How a `fetch` ends: it rejects, or a response arrives with a status and a body. */
  datatype Reply<T> = TransportError(message: string) | Http(status: int, body: Body<T>)

  /** `response.ok`. */
  predicate Ok(status: int) {
    200 <= status <= 299
  }

  /** The message of the error thrown for a status that is not ok. */
  function ApiError(status: nat): string {
    "API error: " + Decimal(status)
  }

  /** Two different statuses give two different error messages. */
  lemma ApiErrorDistinct(s1: nat, s2: nat)
    requires s1 != s2
    ensures ApiError(s1) != ApiError(s2)
  {
    if ApiError(s1) == ApiError(s2) {
      assert Decimal(s1) == ApiError(s1)[11..] == ApiError(s2)[11..] == Decimal(s2);
      DecimalRoundTrip(s1);
      DecimalRoundTrip(s2);
    }
  }

  // ------------------------------------------------------------------ requests

  const TranslateEndpoint := "http://localhost:3001/api/translation/translate"
  const ValidateEndpoint := "http://localhost:3001/api/metadata/validate"

  /** The JSON body of a translation request. */
  datatype TranslateBody = TranslateBody(
    directLyrics: string, translateTo: string,
    songTitle: string, artistName: string, album: string, releaseYear: string,
    pageUrl: string, bypassDb: bool)

  /** The JSON body of a validation request. */
  datatype ValidateBody = ValidateBody(
    songTitle: string, artistName: string, album: string, releaseYear: string,
    source: string, url: string, confidence: string)

  /** A POST the worker sends: its endpoint and its body. */
  datatype Request = Translate(translate: TranslateBody) | Validate(validate: ValidateBody) {
    function Endpoint(): string {
      if Translate? then TranslateEndpoint else ValidateEndpoint
    }
  }

  /** The body `fetchTranslation` posts: every metadata field is sent, as '' when missing or empty. */
  function TranslateBodyOf(text: string, language: string, metadata: Metadata, pageUrl: string): (b: TranslateBody)
    ensures b.directLyrics == text && b.translateTo == language && b.pageUrl == pageUrl && b.bypassDb
    ensures b.songTitle == (if Truthy(metadata.songTitle) then metadata.songTitle.value else "")
    ensures b.artistName == (if Truthy(metadata.artistName) then metadata.artistName.value else "")
    ensures b.album == (if Truthy(metadata.album) then metadata.album.value else "")
    ensures b.releaseYear == (if Truthy(metadata.releaseYear) then metadata.releaseYear.value else "")
  {
    TranslateBody(text, language,
      OrEmpty(metadata.songTitle), OrEmpty(metadata.artistName), OrEmpty(metadata.album), OrEmpty(metadata.releaseYear),
      pageUrl, true)
  }

  /** The page URL of the first active tab: '' when there is none, or when its URL is hidden (the parameter's default applies). */
  function ActiveTabUrl(activeTabs: seq<Option<string>>): string {
    if activeTabs != [] then activeTabs[0].GetOr("") else ""
  }

  /** What a translation request leads to: the service's data, or the message of the error it raised. */
  function TranslationOutcome(reply: Reply<TranslationData>): (m: Message)
    ensures m.TranslationResult? || m.TranslationError?
    ensures reply.Http? && !Ok(reply.status) && reply.status >= 0 ==> m == TranslationError(ApiError(reply.status))
    ensures m.TranslationResult? <==> reply.Http? && Ok(reply.status) && reply.body.Parsed?
    ensures m.TranslationResult? ==> m.translationData == reply.body.value
    ensures reply.TransportError? ==> m == TranslationError(reply.message)
    ensures reply.Http? && Ok(reply.status) && reply.body.Malformed? ==> m == TranslationError(reply.body.message)
  {
    match reply
    case TransportError(message) => TranslationError(message)
    case Http(status, body) =>
      if !Ok(status) then TranslationError("API error: " + IntText(status))
      else match body
        case Parsed(data) => TranslationResult(data)
        case Malformed(message) => TranslationError(message)
  }

  /** A status in a template literal. */
  function IntText(n: int): string {
    if n >= 0 then Decimal(n) else "-" + Decimal(-n)
  }

  // ------------------------------------------------------------------ validation

  /** The fields of the validation service's answer the worker reads. */
  datatype ValidatedData = ValidatedData(
    songTitle: Option<string>, artistName: Option<string>, album: Option<string>, releaseYear: Option<string>,
    genres: Option<Genres>)

  /** JavaScript truthiness of `genres`: an array always, a string when not empty. */
  predicate GenresTruthy(g: Option<Genres>) {
    g.Some? && (g.value.GenreList? || g.value.text != "")
  }

  /** The body sent for validation, or `None` when there is too little to validate and no request is made. */
  function ValidationRequest(info: Metadata): (r: Option<ValidateBody>)
    ensures r.None? <==> !Truthy(info.songTitle) && !Truthy(info.artistName) && !Truthy(info.url)
    ensures r.Some? ==> r.value.songTitle == (if Truthy(info.songTitle) then info.songTitle.value else "")
    ensures r.Some? ==> r.value.artistName == (if Truthy(info.artistName) then info.artistName.value else "")
    ensures r.Some? ==> r.value.album == (if Truthy(info.album) then info.album.value else "")
    ensures r.Some? ==> r.value.releaseYear == (if Truthy(info.releaseYear) then info.releaseYear.value else "")
    ensures r.Some? ==> r.value.source == (if Truthy(info.source) then info.source.value else "")
    ensures r.Some? ==> r.value.url == (if Truthy(info.url) then info.url.value else "")
    ensures r.Some? ==> r.value.confidence == (if Truthy(info.confidence) then info.confidence.value else "medium")
  {
    if !Truthy(info.songTitle) && !Truthy(info.artistName) && !Truthy(info.url) then None
    else Some(ValidateBody(
      OrEmpty(info.songTitle), OrEmpty(info.artistName), OrEmpty(info.album), OrEmpty(info.releaseYear),
      OrEmpty(info.source), OrEmpty(info.url), OrDefault(info.confidence, "medium")))
  }

  /** The combined metadata: every validated field that is set wins, everything else is kept. */
  function Merge(info: Metadata, v: ValidatedData): Metadata {
    info.(
      songTitle := Or(v.songTitle, info.songTitle),
      artistName := Or(v.artistName, info.artistName),
      album := Or(v.album, info.album),
      releaseYear := Or(v.releaseYear, info.releaseYear),
      genres := if GenresTruthy(v.genres) then v.genres else info.genres,
      confidence := Some("high"),
      validatedByLLM := Some(true))
  }

  /** What `validateMetadataWithLLM(info)` resolves to: the merged metadata on success, the original otherwise. */
  function ValidatedMetadata(info: Metadata, reply: Reply<ValidatedData>): Metadata {
    if ValidationRequest(info).None? then info
    else match reply
      case Http(status, Parsed(v)) => if Ok(status) then Merge(info, v) else info
      case _ => info
  }

  /** The `!==` test on title, artist and album that decides whether an enhancement is broadcast. */
  predicate EnhancementDiffers(original: Metadata, enhanced: Metadata) {
    || enhanced.songTitle != original.songTitle
    || enhanced.artistName != original.artistName
    || enhanced.album != original.album
  }

  /** Merging again with the same answer changes nothing. */
  lemma MergeIdempotent(info: Metadata, v: ValidatedData)
    ensures Merge(Merge(info, v), v) == Merge(info, v)
  {
  }

  /** Merging never loses a field the page gave, and keeps where the metadata came from. */
  lemma MergeKeepsGivenFields(info: Metadata, v: ValidatedData)
    ensures Truthy(info.songTitle) ==> Truthy(Merge(info, v).songTitle)
    ensures Truthy(info.artistName) ==> Truthy(Merge(info, v).artistName)
    ensures Truthy(info.album) ==> Truthy(Merge(info, v).album)
    ensures Truthy(info.releaseYear) ==> Truthy(Merge(info, v).releaseYear)
    ensures Merge(info, v).source == info.source && Merge(info, v).url == info.url
    ensures Merge(info, v).validatedByLLM == Some(true) && Merge(info, v).confidence == Some("high")
  {
  }

  /** A validated field the page lacked is taken over. */
  lemma MergeFillsMissingTitle(info: Metadata, v: ValidatedData)
    requires Truthy(v.songTitle)
    ensures Merge(info, v).songTitle == v.songTitle
  {
  }

  /** An enhancement is broadcast exactly when the service names a title, artist or album that differs from the page's. */
  lemma EnhancementDiffersIff(info: Metadata, v: ValidatedData)
    ensures EnhancementDiffers(info, Merge(info, v)) <==>
      || (Truthy(v.songTitle) && v.songTitle != info.songTitle)
      || (Truthy(v.artistName) && v.artistName != info.artistName)
      || (Truthy(v.album) && v.album != info.album)
  {
  }

  /** A failed validation hands back the original metadata, so no enhancement is broadcast. */
  lemma FailedValidationChangesNothing(info: Metadata, reply: Reply<ValidatedData>)
    requires reply.TransportError? || (reply.Http? && (!Ok(reply.status) || reply.body.Malformed?))
    ensures ValidatedMetadata(info, reply) == info
    ensures !EnhancementDiffers(info, ValidatedMetadata(info, reply))
  {
  }

  // ------------------------------------------------------------------ the worker

  /** The options `chrome.sidePanel.setOptions` receives. */
  datatype PanelOptions = PanelOptions(enabled: bool, path: string)

  class Background {
    var sidePanelOptions: Option<PanelOptions>
    /** `chrome.storage.local`: the two keys the worker writes. */
    var storedText: Option<string>
    var storedMetadata: Option<Metadata>
    /** `chrome.runtime.sendMessage`, in order. */
    var broadcasts: seq<Message>
    /** `chrome.tabs.sendMessage`, with the tab id. */
    var tabMessages: seq<(int, Message)>
    /** The tabs `chrome.sidePanel.open` was called for. */
    var openedPanels: seq<int>
    /** Every `fetch`, in order. */
    var requests: seq<Request>

    constructor ()
      ensures sidePanelOptions == None && storedText == None && storedMetadata == None
      ensures broadcasts == [] && tabMessages == [] && openedPanels == [] && requests == []
    {
      sidePanelOptions, storedText, storedMetadata := None, None, None;
      broadcasts, tabMessages, openedPanels, requests := [], [], [], [];
    }

    /** `runtime.onInstalled`: register the side panel. */
    method OnInstalled()
      modifies this`sidePanelOptions
      ensures sidePanelOptions == Some(PanelOptions(true, "side-panel/index.html"))
    {
      sidePanelOptions := Some(PanelOptions(true, "side-panel/index.html"));
    }

    /** `action.onClicked`: open the panel on the tab and ask its content script for the selection. */
    method OnActionClicked(tabId: int)
      modifies this`openedPanels, this`tabMessages
      ensures openedPanels == old(openedPanels) + [tabId]
      ensures tabMessages == old(tabMessages) + [(tabId, Message.ProcessSelectedText)]
    {
      openedPanels := openedPanels + [tabId];
      tabMessages := tabMessages + [(tabId, Message.ProcessSelectedText)];
    }

    /** `validateMetadataWithLLM(info)`, with the service's reply as a parameter. */
    method ValidateMetadataWithLLM(info: Metadata, reply: Reply<ValidatedData>) returns (result: Metadata)
      modifies this`requests
      ensures result == ValidatedMetadata(info, reply)
      ensures ValidationRequest(info).None? ==> requests == old(requests)
      ensures ValidationRequest(info).Some? ==> requests == old(requests) + [Validate(ValidationRequest(info).value)]
    {
      if !Truthy(info.songTitle) && !Truthy(info.artistName) && !Truthy(info.url) {
        return info;
      }
      var body := ValidateBody(
        OrEmpty(info.songTitle), OrEmpty(info.artistName), OrEmpty(info.album), OrEmpty(info.releaseYear),
        OrEmpty(info.source), OrEmpty(info.url), OrDefault(info.confidence, "medium"));
      requests := requests + [Validate(body)];
      result := info;
      if reply.Http? && Ok(reply.status) && reply.body.Parsed? {
        result := Merge(info, reply.body.value);
      }
    }

    /** The `processHighlightedText` branch: store and forward the selection, then validate its metadata. */
    method ProcessHighlightedText(text: string, metadata: Option<Metadata>, reply: Reply<ValidatedData>)
      modifies this`storedText, this`storedMetadata, this`broadcasts, this`requests
      ensures storedText == Some(text)
      ensures var m := metadata.GetOr(NoMetadata);
        var e := ValidatedMetadata(m, reply);
        && (Truthy(m.songTitle) || Truthy(m.artistName) ==>
              && requests == old(requests) + [Validate(ValidationRequest(m).value)]
              && (EnhancementDiffers(m, e) ==>
                    storedMetadata == Some(e) && broadcasts == old(broadcasts) + [DisplayHighlightedText(text, m), MetadataEnhanced(e)])
              && (!EnhancementDiffers(m, e) ==>
                    storedMetadata == Some(m) && broadcasts == old(broadcasts) + [DisplayHighlightedText(text, m)]))
        && (!(Truthy(m.songTitle) || Truthy(m.artistName)) ==>
              && requests == old(requests) && storedMetadata == Some(m)
              && broadcasts == old(broadcasts) + [DisplayHighlightedText(text, m)])
    {
      var m := metadata.GetOr(NoMetadata);
      storedText, storedMetadata := Some(text), Some(m);
      broadcasts := broadcasts + [DisplayHighlightedText(text, m)];
      if Truthy(m.songTitle) || Truthy(m.artistName) {
        var enhanced := ValidateMetadataWithLLM(m, reply);
        if enhanced.songTitle != m.songTitle || enhanced.artistName != m.artistName || enhanced.album != m.album {
          storedMetadata := Some(enhanced);
          broadcasts := broadcasts + [MetadataEnhanced(enhanced)];
        }
      }
    }

    /** `fetchTranslation`, with the service's reply as a parameter. */
    method FetchTranslation(text: string, language: string, metadata: Metadata, pageUrl: string, reply: Reply<TranslationData>)
      returns (outcome: Message)
      modifies this`requests
      ensures requests == old(requests) + [Translate(TranslateBodyOf(text, language, metadata, pageUrl))]
      ensures outcome == TranslationOutcome(reply)
    {
      requests := requests + [Translate(TranslateBodyOf(text, language, metadata, pageUrl))];
      match reply {
        case TransportError(message) =>
          outcome := TranslationError(message);
        case Http(status, body) =>
          if !Ok(status) {
            outcome := TranslationError("API error: " + IntText(status));
          } else if body.Parsed? {
            outcome := TranslationResult(body.value);
          } else {
            outcome := TranslationError(body.message);
          }
      }
    }

    /** The `requestTranslation` branch: translate for the active tab's page and report the outcome. */
    method RequestTranslation(text: string, language: string, metadata: Metadata, activeTabs: seq<Option<string>>, reply: Reply<TranslationData>)
      modifies this`requests, this`broadcasts
      ensures requests == old(requests) + [Translate(TranslateBodyOf(text, language, metadata, ActiveTabUrl(activeTabs)))]
      ensures broadcasts == old(broadcasts) + [TranslationOutcome(reply)]
    {
      var currentUrl := if |activeTabs| > 0 then activeTabs[0].GetOr("") else "";
      var outcome := FetchTranslation(text, language, metadata, currentUrl, reply);
      broadcasts := broadcasts + [outcome];
    }

    /** The `openSidePanel` branch: only a message from a tab opens a panel. */
    method OpenSidePanel(senderTab: Option<int>)
      modifies this`openedPanels
      ensures senderTab.Some? ==> openedPanels == old(openedPanels) + [senderTab.value]
      ensures senderTab.None? ==> openedPanels == old(openedPanels)
    {
      if senderTab.Some? {
        openedPanels := openedPanels + [senderTab.value];
      }
    }

    /** The runtime message listener. */
    method OnMessage(message: Message, senderTab: Option<int>, activeTabs: seq<Option<string>>,
                     validation: Reply<ValidatedData>, translation: Reply<TranslationData>)
      modifies this`storedText, this`storedMetadata, this`broadcasts, this`requests, this`openedPanels
      ensures message.ProcessHighlightedText? ==> storedText == Some(message.text)
      ensures message.RequestTranslation? ==> broadcasts == old(broadcasts) + [TranslationOutcome(translation)]
      ensures !message.OpenSidePanel? ==> openedPanels == old(openedPanels)
      ensures !(message.ProcessHighlightedText? || message.RequestTranslation?) ==>
        broadcasts == old(broadcasts) && requests == old(requests) && storedText == old(storedText)
    {
      match message {
        case ProcessHighlightedText(text, metadata) =>
          ProcessHighlightedText(text, metadata, validation);
        case RequestTranslation(text, language, metadata) =>
          RequestTranslation(text, language, metadata, activeTabs, translation);
        case OpenSidePanel =>
          OpenSidePanel(senderTab);
        case _ =>
      }
    }
  }
}
