/** The transcription screen (`TranscribePage`). */
module TranscriptionConsole {
  import opened Wrappers
  import opened JsString
  import opened WebPlatform

  const GatePath := "/"
  const AutoLanguage := "auto"
  const InvalidUrlMessage := "Please enter a valid YouTube URL"
  const DoneMessage := "Transcription completed successfully"
  const GenericErrorMessage := "An error occurred"

  /** The JSON body posted to the transcription service. */
  datatype TranscribeRequest = TranscribeRequest(
    url: string,
    sourceLanguage: Option<string>,  // `null` when None
    apiKey: Option<string>)          // `null` when the slot is missing

  /** A successful response body. */
  datatype Transcript = Transcript(originalText: string, englishText: Option<string>)

  /** What `axios` throws: `error.response?.data?.detail` is read off it. */
  datatype ErrorBody = ErrorBody(detail: Option<string>)
  datatype ErrorResponse = ErrorResponse(data: Option<ErrorBody>)
  datatype RequestError = RequestError(response: Option<ErrorResponse>)

  /** How the awaited `axios.post` settled. */
  datatype Outcome = Resolved(data: Transcript) | Rejected(error: RequestError)

  /** A collapsible section: its text is in the page only while expanded. */
  datatype Section = Collapsed | Expanded(text: string)

  /** The results column. */
  datatype ResultsPanel =
    | Spinner
    | Placeholder
    | Sections(english: Option<Section>, original: Section)

  /** The submit handler's URL check. */
  predicate ValidUrl(url: string)
    ensures ValidUrl(url) ==> |url| >= 8
  {
    Includes(url, "youtube.com") || Includes(url, "youtu.be")
  }

  /** A URL is accepted exactly when one of the two host names occurs in it. */
  lemma ValidUrlIffOccurs(url: string)
    ensures ValidUrl(url) <==> (exists i :: OccursAt(url, "youtube.com", i)) ||
                               (exists i :: OccursAt(url, "youtu.be", i))
  {
    IncludesIffOccurs(url, "youtube.com");
    IncludesIffOccurs(url, "youtu.be");
  }

  const ShortLink := "https://youtu.be/x"

  /** The short link names `youtu.be`, at index 8. */
  lemma ShortLinkNamesShortHost()
    ensures Includes(ShortLink, "youtu.be")
  {
    assert OccursAt(ShortLink, "youtu.be", 8);
    IncludesIffOccurs(ShortLink, "youtu.be");
  }

  /** The short link does not name `youtube.com`: no start has its `b` at offset 5. */
  lemma ShortLinkLacksLongHost()
    ensures !Includes(ShortLink, "youtube.com")
  {
    var long := "youtube.com";
    forall i
      ensures !OccursAt(ShortLink, long, i)
    {
      if 0 <= i <= |ShortLink| - |long| {
        assert ShortLink[i..i + 11][5] == ShortLink[i + 5] != 'b' == long[5];
      }
    }
    IncludesIffOccurs(ShortLink, long);
  }

  /** A short link is accepted even though it does not name `youtube.com`. */
  lemma ShortLinkAccepted()
    ensures ValidUrl(ShortLink)
    ensures !Includes(ShortLink, "youtube.com")
  {
    ShortLinkNamesShortHost();
    ShortLinkLacksLongHost();
  }

  /** `language === "auto" ? null : language`. */
  function SourceLanguage(language: string): (r: Option<string>)
    ensures r.None? <==> language == AutoLanguage
    ensures r.Some? ==> r.value == language
  {
    if language == AutoLanguage then None else Some(language)
  }

  /** The request body for the form's current values and the stored key. */
  function BuildRequest(url: string, language: string, storedKey: Option<string>): (r: TranscribeRequest)
    ensures r.url == url && r.apiKey == storedKey
    ensures r.sourceLanguage.None? <==> language == AutoLanguage
    ensures r.sourceLanguage.Some? ==> r.sourceLanguage.value == language
  {
    TranscribeRequest(url, SourceLanguage(language), storedKey)
  }

  /** The selected language can be read back from the request body. */
  lemma LanguageRecoverable(url: string, language: string, storedKey: Option<string>)
    ensures BuildRequest(url, language, storedKey).sourceLanguage.GetOr(AutoLanguage) == language
  {
  }

  /** `error.response?.data?.detail`: undefined as soon as a link is missing. */
  function Detail(e: RequestError): (d: Option<string>)
    ensures d.Some? <==> e.response.Some? && e.response.value.data.Some? &&
                         e.response.value.data.value.detail.Some?
    ensures d.Some? ==> d.value == e.response.value.data.value.detail.value
  {
    match e.response
    case None => None
    case Some(resp) =>
      match resp.data
      case None => None
      case Some(body) => body.detail
  }

  /**
   * `detail || "An error occurred"`: the service's message when it is a
   * non-empty string, the generic one otherwise; never empty.
   */
  function ErrorText(e: RequestError): (m: string)
    ensures m != ""
    ensures Truthy(Detail(e)) ==> m == Detail(e).value
    ensures !Truthy(Detail(e)) ==> m == GenericErrorMessage
  {
    var d := Detail(e);
    if d.Some? && d.value != "" then d.value else GenericErrorMessage
  }

  /** Whether the English section is rendered: `result.english_text` is truthy. */
  predicate HasEnglish(t: Transcript)
    ensures HasEnglish(t) <==> t.englishText.Some? && |t.englishText.value| > 0
  {
    Truthy(t.englishText)
  }

  function SectionFor(open: bool, text: string): Section {
    if open then Expanded(text) else Collapsed
  }

  /** The results column for the page's state. */
  function RenderResults(loading: bool, result: Option<Transcript>,
                         isEnglishOpen: bool, isOriginalOpen: bool): (p: ResultsPanel)
    ensures p.Spinner? <==> loading
    ensures p.Placeholder? <==> !loading && result.None?
    ensures p.Sections? <==> !loading && result.Some?
    ensures p.Sections? ==> (p.english.Some? <==> HasEnglish(result.value))
    ensures p.Sections? && p.english.Some? ==>
              (p.english.value.Expanded? <==> isEnglishOpen) &&
              (p.english.value.Expanded? ==> p.english.value.text == result.value.englishText.value)
    ensures p.Sections? ==>
              (p.original.Expanded? <==> isOriginalOpen) &&
              (p.original.Expanded? ==> p.original.text == result.value.originalText)
  {
    if loading then Spinner
    else match result
      case None => Placeholder
      case Some(t) =>
        Sections(if HasEnglish(t) then Some(SectionFor(isEnglishOpen, t.englishText.value)) else None,
                 SectionFor(isOriginalOpen, t.originalText))
  }

  /** Flipping the English flag changes nothing but the English section's expansion. */
  lemma ToggleEnglishIsLocal(loading: bool, result: Option<Transcript>, e: bool, o: bool)
    ensures var p, q := RenderResults(loading, result, e, o), RenderResults(loading, result, !e, o);
            p.Sections? == q.Sections? &&
            (p.Sections? ==> p.original == q.original && p.english.Some? == q.english.Some?)
  {
  }

  /** Flipping the Original flag changes nothing but the Original section's expansion. */
  lemma ToggleOriginalIsLocal(loading: bool, result: Option<Transcript>, e: bool, o: bool)
    ensures var p, q := RenderResults(loading, result, e, o), RenderResults(loading, result, e, !o);
            p.Sections? == q.Sections? && (p.Sections? ==> p.english == q.english)
  {
  }

  class TranscribePage {
    var url: string
    var language: string
    var loading: bool
    var result: Option<Transcript>
    var isEnglishOpen: bool
    var isOriginalOpen: bool
    const browser: Browser
    /** The request awaiting its response, if any. */
    ghost var inFlight: Option<TranscribeRequest>

    /** A request is in flight exactly while loading, and it passed the URL check. */
    ghost predicate Valid()
      reads this
    {
      (loading <==> inFlight.Some?) &&
      (inFlight.Some? ==> ValidUrl(inFlight.value.url))
    }

    constructor (browser: Browser)
      ensures Valid() && this.browser == browser
      ensures url == "" && language == AutoLanguage && !loading && result == None
      ensures isEnglishOpen && !isOriginalOpen
    {
      url := "";
      language := AutoLanguage;
      loading := false;
      result := None;
      isEnglishOpen := true;
      isOriginalOpen := false;
      this.browser := browser;
      inFlight := None;
    }

    /** The entry effect: a missing or empty stored key sends the user back to the gate. */
    method Mount()
      modifies browser`navigatedTo, browser`log
      ensures !Truthy(browser.GetItem(SlotKey)) ==>
                browser.navigatedTo == Some(GatePath) &&
                browser.log == old(browser.log) + [Navigated(GatePath)]
      ensures Truthy(browser.GetItem(SlotKey)) ==>
                browser.navigatedTo == old(browser.navigatedTo) && browser.log == old(browser.log)
    {
      var apiKey := browser.GetItem(SlotKey);
      if !Truthy(apiKey) {
        browser.Push(GatePath);
      }
    }

    method EditUrl(text: string)
      requires Valid()
      modifies this`url
      ensures Valid()
      ensures url == text
    {
      url := text;
    }

    method SelectLanguage(code: string)
      requires Valid()
      modifies this`language
      ensures Valid()
      ensures language == code
    {
      language := code;
    }

    /** The submit control is disabled while a request is in flight. */
    function SubmitDisabled(): (d: bool)
      reads this
      requires Valid()
      ensures d <==> inFlight.Some?
    {
      loading
    }

    /**
     * A form submission. While loading the control is disabled and nothing
     * happens. Otherwise a URL without either host name only shows an error;
     * an accepted one sets `loading` and returns the request to post.
     */
    method Submit() returns (req: Option<TranscribeRequest>)
      requires Valid()
      modifies this`loading, this`inFlight, browser`lastToast, browser`log
      ensures Valid()
      ensures old(loading) ==>
                req == None && loading && inFlight == old(inFlight) &&
                unchanged(browser)
      ensures !old(loading) && !ValidUrl(url) ==>
                req == None && !loading && inFlight == None &&
                browser.lastToast == Some(Error(InvalidUrlMessage)) &&
                browser.log == old(browser.log) + [Notified(Error(InvalidUrlMessage))]
      ensures !old(loading) && ValidUrl(url) ==>
                req == Some(BuildRequest(url, language, browser.GetItem(SlotKey))) &&
                loading && inFlight == req && unchanged(browser)
    {
      if loading {
        return None;
      }
      if !ValidUrl(url) {
        browser.ShowToast(Error(InvalidUrlMessage));
        return None;
      }
      loading := true;
      var r := TranscribeRequest(url, SourceLanguage(language), browser.GetItem(SlotKey));
      inFlight := Some(r);
      req := Some(r);
    }

    /**
     * The awaited post settles. On success the body becomes the result; on
     * failure the previous result stays. Either way `loading` ends false.
     */
    method Complete(outcome: Outcome)
      requires Valid() && loading
      modifies this`loading, this`result, this`inFlight, browser`lastToast, browser`log
      ensures Valid() && !loading && inFlight == None
      ensures outcome.Resolved? ==>
                result == Some(outcome.data) &&
                browser.lastToast == Some(Success(DoneMessage)) &&
                browser.log == old(browser.log) + [Notified(Success(DoneMessage))]
      ensures outcome.Rejected? ==>
                result == old(result) &&
                browser.lastToast == Some(Error(ErrorText(outcome.error))) &&
                browser.log == old(browser.log) + [Notified(Error(ErrorText(outcome.error)))]
    {
      match outcome {
        case Resolved(data) =>
          result := Some(data);
          browser.ShowToast(Success(DoneMessage));
        case Rejected(error) =>
          browser.ShowToast(Error(ErrorText(error)));
      }
      // the `finally` block
      loading := false;
      inFlight := None;
    }

    method ToggleEnglish()
      requires Valid()
      modifies this`isEnglishOpen
      ensures Valid()
      ensures isEnglishOpen == !old(isEnglishOpen)
    {
      isEnglishOpen := !isEnglishOpen;
    }

    method ToggleOriginal()
      requires Valid()
      modifies this`isOriginalOpen
      ensures Valid()
      ensures isOriginalOpen == !old(isOriginalOpen)
    {
      isOriginalOpen := !isOriginalOpen;
    }

    /** What the results column shows now. */
    function Panel(): (p: ResultsPanel)
      reads this
      ensures p.Spinner? <==> loading
      ensures p.Sections? <==> !loading && result.Some?
    {
      RenderResults(loading, result, isEnglishOpen, isOriginalOpen)
    }
  }
}
