/** The two screens together: gate, then console, over one browser tab. */
module Flow {
  import opened Wrappers
  import opened JsString
  import opened WebPlatform
  import opened CredentialGate
  import opened TranscriptionConsole

  /**
   * Whatever the storage held before, once the gate accepts a key the
   * console's entry guard lets the user in: the stored key is never empty.
   */
  lemma AcceptedKeyOpensConsole(m: map<string, string>, apiKey: string)
    requires ValidKey(apiKey)
    ensures Lookup(m[SlotKey := apiKey], SlotKey) == Some(apiKey)
    ensures Truthy(Lookup(m[SlotKey := apiKey], SlotKey))
  {
    ValidKeyIsTruthy(apiKey);
  }

  /**
   * The two pages in sequence over a tab with any prior storage: the gate
   * accepts a valid key, then the console's entry guard does not send the
   * user back, so the tab stays on the console with the raw key stored.
   */
  method SignInThenEnterConsole(tab: Browser, text: string)
    requires ValidKey(text)
    modifies tab
    ensures tab.GetItem(SlotKey) == Some(text)
    ensures tab.navigatedTo == Some(ConsolePath)
    ensures tab.log == old(tab.log) +
              [Stored(SlotKey, text), Notified(Success(KeySavedMessage)), Navigated(ConsolePath)]
  {
    var gate := new ApiKeyPage(tab);
    gate.EditKey(text);
    gate.HandleSubmit();
    var console := new TranscribePage(tab);
    console.Mount();
  }

  /** A key typed with leading blanks is accepted: it trims to `sk-abc`. */
  lemma PaddedKeyAccepted()
    ensures ValidKey("  sk-abc")
  {
    var k := "  sk-abc";
    assert TrimmedAt(k, 2, 8) by {
      assert IsWhiteSpace(k[0]) && IsWhiteSpace(k[1]);
      assert !IsWhiteSpace(k[2]) && !IsWhiteSpace(k[7]);
    }
    TrimCharacterized(k, k[2..8]);
    assert Trim(k)[..3] == KeyPrefix;
  }

  /** A key lacking the dash is rejected: it is its own trim and does not start with `sk-`. */
  lemma DashlessKeyRejected()
    ensures !ValidKey("sk_abc")
  {
    var k := "sk_abc";
    assert TrimmedAt(k, 0, 6) by {
      assert !IsWhiteSpace(k[0]) && !IsWhiteSpace(k[5]);
    }
    TrimCharacterized(k, k[0..6]);
    assert Trim(k) == k;
    assert k[..3] != KeyPrefix by { assert k[..3][2] == '_'; }
  }

  /** A first visit to the gate: a dashless key is refused, a padded one saved as typed. */
  method FirstVisit()
  {
    var tab := new Browser(map[]);
    var gate := new ApiKeyPage(tab);
    gate.Mount();
    assert tab.navigatedTo == None;

    gate.EditKey("sk_abc");
    DashlessKeyRejected();
    gate.HandleSubmit();
    assert tab.storage == map[] && tab.navigatedTo == None;

    gate.EditKey("  sk-abc");
    PaddedKeyAccepted();
    gate.HandleSubmit();
    assert tab.storage[SlotKey] == "  sk-abc";
    assert tab.navigatedTo == Some(ConsolePath);
    TranscribeTwice(tab);
  }

  /** The console after sign-in: one transcription succeeds, the next one fails. */
  method TranscribeTwice(tab: Browser)
    requires tab.GetItem(SlotKey) == Some("  sk-abc")
    modifies tab
  {
    var console := new TranscribePage(tab);
    console.Mount();

    console.EditUrl("https://youtu.be/x");
    console.SelectLanguage("es");
    assert ValidUrl("https://youtu.be/x") by { ShortLinkAccepted(); }
    var req := console.Submit();
    assert req == Some(TranscribeRequest("https://youtu.be/x", Some("es"), Some("  sk-abc")));
    assert console.Panel() == Spinner;

    var hola := Transcript("hola", Some("hello"));
    console.Complete(Resolved(hola));
    assert console.Panel() == Sections(Some(Expanded("hello")), Collapsed);
    console.ToggleOriginal();
    assert console.Panel() == Sections(Some(Expanded("hello")), Expanded("hola"));

    req := console.Submit();
    assert req.Some?;
    var quota := RequestError(Some(ErrorResponse(Some(ErrorBody(Some("quota exceeded"))))));
    console.Complete(Rejected(quota));
    assert console.result == Some(hola);
    assert tab.lastToast == Some(Error("quota exceeded"));
  }
}
