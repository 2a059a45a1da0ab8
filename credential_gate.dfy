/** The API-key capture screen (`ApiKeyPage`). */
module CredentialGate {
  import opened Wrappers
  import opened JsString
  import opened WebPlatform

  const ConsolePath := "/transcribe"
  const KeyPrefix := "sk-"
  const InvalidKeyMessage := "Please enter a valid OpenAI API key"
  const KeySavedMessage := "API key saved successfully"

  /** The submit handler's shape check: the trimmed text starts with `sk-`. */
  predicate ValidKey(apiKey: string)
    ensures ValidKey(apiKey) ==> |apiKey| >= 3
  {
    StartsWith(Trim(apiKey), KeyPrefix)
  }

  /** Reference shape: optional leading white space, then `sk-`. */
  ghost predicate HasKeyShape(apiKey: string) {
    exists i :: WhiteBefore(apiKey, i) && i + 3 <= |apiKey| && apiKey[i..i + 3] == KeyPrefix
  }

  /**
   * A key is accepted exactly when, after any leading white space, it
   * starts with `sk-`; whatever follows, trailing white space included,
   * does not matter.
   */
  lemma ValidKeyIffShape(apiKey: string)
    ensures ValidKey(apiKey) <==> HasKeyShape(apiKey)
  {
    var a, b := TrimIndices(apiKey);
    if ValidKey(apiKey) {
      assert apiKey[a..b][..3] == apiKey[a..a + 3];
      assert WhiteBefore(apiKey, a);
    }
    if HasKeyShape(apiKey) {
      var i :| WhiteBefore(apiKey, i) && i + 3 <= |apiKey| && apiKey[i..i + 3] == KeyPrefix;
      assert apiKey[i] == 's' && apiKey[i + 2] == '-';
      assert !IsWhiteSpace(apiKey[i]) && !IsWhiteSpace(apiKey[i + 2]);
      assert a <= i;
      assert i + 2 < b;
      assert a == i;
      assert apiKey[a..b][..3] == apiKey[i..i + 3];
    }
  }

  /** An accepted key is never empty, so the stored slot is truthy. */
  lemma ValidKeyIsTruthy(apiKey: string)
    requires ValidKey(apiKey)
    ensures |apiKey| >= 3 && Truthy(Some(apiKey))
  {
  }

  /** Leading and trailing white space never decide acceptance. */
  lemma ValidKeyIgnoresPadding(apiKey: string)
    ensures ValidKey(apiKey) <==> ValidKey(Trim(apiKey))
  {
    TrimIdempotent(apiKey);
  }

  class ApiKeyPage {
    /** The text in the masked input. */
    var apiKey: string
    /** Whether the "How to get your API key" panel is expanded. */
    var isInstructionsOpen: bool
    const browser: Browser

    constructor (browser: Browser)
      ensures apiKey == "" && !isInstructionsOpen && this.browser == browser
    {
      apiKey := "";
      isInstructionsOpen := false;
      this.browser := browser;
    }

    /**
     * The entry effect: a truthy stored key sends the user straight to the
     * console; a missing or empty one leaves the form in place.
     */
    method Mount()
      modifies browser`navigatedTo, browser`log
      ensures Truthy(browser.GetItem(SlotKey)) ==>
                browser.navigatedTo == Some(ConsolePath) &&
                browser.log == old(browser.log) + [Navigated(ConsolePath)]
      ensures !Truthy(browser.GetItem(SlotKey)) ==>
                browser.navigatedTo == old(browser.navigatedTo) && browser.log == old(browser.log)
    {
      var storedKey := browser.GetItem(SlotKey);
      if Truthy(storedKey) {
        browser.Push(ConsolePath);
      }
    }

    /** The input's `onChange`. */
    method EditKey(text: string)
      modifies this`apiKey
      ensures apiKey == text
    {
      apiKey := text;
    }

    /** The instructions button flips its panel and nothing else. */
    method ToggleInstructions()
      modifies this`isInstructionsOpen
      ensures isInstructionsOpen == !old(isInstructionsOpen)
    {
      isInstructionsOpen := !isInstructionsOpen;
    }

    /**
     * The form's submit handler. A rejected key only shows an error. An
     * accepted key is stored as typed (untrimmed), then a success toast is
     * shown, then the router moves to the console, in that order.
     */
    method HandleSubmit()
      modifies browser
      ensures !ValidKey(apiKey) ==>
                browser.storage == old(browser.storage) &&
                browser.navigatedTo == old(browser.navigatedTo) &&
                browser.lastToast == Some(Error(InvalidKeyMessage)) &&
                browser.log == old(browser.log) + [Notified(Error(InvalidKeyMessage))]
      ensures ValidKey(apiKey) ==>
                browser.storage == old(browser.storage)[SlotKey := apiKey] &&
                browser.navigatedTo == Some(ConsolePath) &&
                browser.lastToast == Some(Success(KeySavedMessage)) &&
                browser.log == old(browser.log) +
                  [Stored(SlotKey, apiKey), Notified(Success(KeySavedMessage)), Navigated(ConsolePath)]
      ensures ValidKey(apiKey) ==> Truthy(browser.GetItem(SlotKey))
    {
      if !ValidKey(apiKey) {
        browser.ShowToast(Error(InvalidKeyMessage));
        return;
      }
      browser.SetItem(SlotKey, apiKey);
      browser.ShowToast(Success(KeySavedMessage));
      browser.Push(ConsolePath);
      ValidKeyIsTruthy(apiKey);
    }
  }
}
