# Transcriber client: the two page state machines in Dafny

The client has two screens. The API-key gate (`ApiKeyPage`, `app/page.js`)
checks the text the user typed. If the trimmed text starts with `sk-`, the
gate stores the text in localStorage exactly as typed and sends the user on
to `/transcribe`. The transcription console (`TranscribePage`,
`app/transcribe/page.js`) accepts a URL only if it contains `youtube.com` or
`youtu.be`. It posts the URL, the source language and the stored key, and
then shows the result in two collapsible sections.

The model has these modules:

- `Wrappers`: `Option`, which stands for JavaScript's `null`/`undefined`.
- `JsString`: the ECMAScript built-ins `trim` (through `trimStart` and
  `trimEnd`), `startsWith` and `includes`. WhiteSpace and LineTerminator
  follow the ECMAScript code-point list. `trim` and `includes` are proved
  equal to independent characterisations. `startsWith` is defined as the
  prefix slice, and its contract equates that with a character-by-character
  comparison.
- `WebPlatform`: a `Browser` class that stands for `localStorage`, the
  router and the toast library. It holds a key-value `storage` map, the
  latest navigation target, the latest toast, and a ghost `log` of the
  state-changing foreign calls (`setItem`, `router.push`, `toast`) in
  order; reads through `getItem` are not logged. `Truthy` is JavaScript
  truthiness on what `getItem` returns.
- `CredentialGate`: the key check `ValidKey` and the `ApiKeyPage` class.
- `TranscriptionConsole`:
  - the URL check, the request body, the error text and the rendering of
    the results column, written as pure functions;
  - the `TranscribePage` class.

  The awaited `axios.post` is split into two events:
  - `Submit` validates the URL, sets `loading` and returns the request
    body.
  - `Complete(outcome)` takes the settled response: `Resolved(data)` or
    `Rejected(error)`.
- `Flow`: lemmas that join the two pages, and two client scenarios that
  drive the pages through their methods.

## Behaviour worth noting

- `isOriginalOpen` starts `false` (app/transcribe/page.js:15). After a
  success the Original section is therefore present but collapsed, and its
  text appears only after a toggle (`Flow.TranscribeTwice`).
- `detail || "An error occurred"` (app/transcribe/page.js:45) turns an
  empty `detail` into the generic message.
- The console redirects when the stored value is empty as well as when it
  is missing (app/transcribe/page.js:20).

## Model

| member | source | states |
|---|---|---|
| `JsString.StartsWith` | app/page.js:28 | `s.startsWith(p)` holds iff `p` is no longer than `s` and agrees with `s` character by character; see `StartsWithIffOccursAtZero` |
| `JsString.StartsWithIffOccursAtZero` | app/page.js:28 | `startsWith` is an occurrence at index 0 |
| `JsString.Trim` | app/page.js:28 | `trim()` never lengthens its input, and a non-empty result neither starts nor ends with white space; see `TrimCharacterized` for the exact slice |
| `JsString.Includes` | app/transcribe/page.js:27 | `includes(sub)` implies `sub` fits in `s`, and the empty string is included everywhere; see `IncludesIffOccurs` |
| `JsString.TrimCharacterized` | app/page.js:28 | `trim(s)` is exactly `s[a..b]`, where everything outside the slice is white space or a line terminator and a non-empty slice neither starts nor ends with one |
| `JsString.TrimIdempotent` | app/page.js:28 | trimming an already trimmed string changes nothing |
| `JsString.IncludesIffOccurs` | app/transcribe/page.js:27 | `s.includes(sub)` holds iff `sub` occurs at some index of `s` |
| `CredentialGate.ValidKey` | app/page.js:28 | the key check `trim().startsWith("sk-")`; an accepted key has at least 3 characters; see `ValidKeyIffShape` |
| `CredentialGate.ValidKeyIffShape` | app/page.js:28 | the key check accepts exactly the texts made of optional leading white space, then `sk-`, then anything (trailing white space included) |
| `CredentialGate.ValidKeyIgnoresPadding` | app/page.js:28 | a text is accepted iff its trimmed form is accepted |
| `CredentialGate.ValidKeyIsTruthy` | app/page.js:28-32 | an accepted key has at least 3 characters, so the stored slot is truthy |
| `CredentialGate.ApiKeyPage.constructor` | app/page.js:15-16 | the page starts with an empty key and the instructions collapsed |
| `CredentialGate.ApiKeyPage.Mount` | app/page.js:19-24 | on entry, navigates to `/transcribe` iff the stored slot is truthy; a missing or empty slot causes no navigation, and storage is never touched |
| `CredentialGate.ApiKeyPage.EditKey` | app/page.js:130 | the input's `onChange` replaces the key text |
| `CredentialGate.ApiKeyPage.ToggleInstructions` | app/page.js:54 | flips `isInstructionsOpen` and changes nothing else (key, storage, navigation) |
| `CredentialGate.ApiKeyPage.HandleSubmit` | app/page.js:26-35 | rejected key: storage and navigation unchanged, error toast shown. Accepted key: the slot becomes the raw untrimmed text, other keys are unchanged, then a success toast, then navigation to `/transcribe`, logged in that order, and the slot is left truthy |
| `WebPlatform.Lookup` | app/page.js:20 | `getItem` returns the stored value iff the key is present, else `null` |
| `WebPlatform.Browser.GetItem` | app/transcribe/page.js:19 | `localStorage.getItem` on the tab's storage: the value iff the key is present, else `null`; also read at app/page.js:20 and app/transcribe/page.js:39 |
| `WebPlatform.SetThenGet` | app/page.js:32 | after `setItem(k, v)`, `getItem(k)` returns `v` and every other key reads as before |
| `WebPlatform.Browser.SetItem` | app/page.js:32 | `localStorage.setItem` updates one key and logs the write |
| `WebPlatform.Browser.Push` | app/page.js:22 | `router.push` records the target and logs it |
| `WebPlatform.Browser.ShowToast` | app/page.js:29 | `toast.error` / `toast.success` record the message and log it |
| `TranscriptionConsole.ValidUrl` | app/transcribe/page.js:27 | the URL check; an accepted URL has at least 8 characters; see `ValidUrlIffOccurs` |
| `TranscriptionConsole.ValidUrlIffOccurs` | app/transcribe/page.js:27 | a URL is accepted iff `youtube.com` or `youtu.be` occurs in it at some index |
| `TranscriptionConsole.ShortLinkAccepted` | app/transcribe/page.js:27 | a `youtu.be` short link is accepted, and it does not contain `youtube.com`, so the second host name alone decides |
| `TranscriptionConsole.SourceLanguage` | app/transcribe/page.js:38 | `source_language` is `null` iff the language is `"auto"`, and otherwise equals the language |
| `TranscriptionConsole.BuildRequest` | app/transcribe/page.js:36-40 | the body carries the URL as entered, `null` iff `"auto"` (else the code), and the slot's current value as `api_key` (`null` when the slot is missing) |
| `TranscriptionConsole.LanguageRecoverable` | app/transcribe/page.js:38 | the selected language can be read back from the body (`null` reads as `"auto"`) |
| `TranscriptionConsole.Detail` | app/transcribe/page.js:45 | `error.response?.data?.detail` is defined iff every link of the chain is present, and then it is the body's `detail` |
| `TranscriptionConsole.ErrorText` | app/transcribe/page.js:45 | the error toast is never empty; it is `detail` when that is a non-empty string, else `"An error occurred"` |
| `TranscriptionConsole.HasEnglish` | app/transcribe/page.js:132 | the English section is rendered iff `english_text` is present and non-empty |
| `TranscriptionConsole.RenderResults` | app/transcribe/page.js:125-177 | while loading only the spinner shows; otherwise, with no result, the placeholder shows; with a result, the Original section is always present, the English section is present iff `english_text` is non-empty, and each section shows its text iff its flag is set |
| `TranscriptionConsole.ToggleEnglishIsLocal` | app/transcribe/page.js:132-155 | flipping the English flag leaves the Original section and the presence of the English section as they were |
| `TranscriptionConsole.ToggleOriginalIsLocal` | app/transcribe/page.js:158-177 | flipping the Original flag leaves the English section as it was |
| `TranscriptionConsole.TranscribePage.constructor` | app/transcribe/page.js:10-15 | initial state: empty URL, language `"auto"`, not loading, no result, English expanded, Original collapsed |
| `TranscriptionConsole.TranscribePage.Mount` | app/transcribe/page.js:18-23 | on entry, navigates to `/` iff the slot is missing or empty; storage is never touched |
| `TranscriptionConsole.TranscribePage.EditUrl` | app/transcribe/page.js:70 | the URL input's `onChange` replaces the URL and keeps `Valid()` |
| `TranscriptionConsole.TranscribePage.SelectLanguage` | app/transcribe/page.js:84 | the select's `onChange` replaces the language code and keeps `Valid()` |
| `TranscriptionConsole.TranscribePage.SubmitDisabled` | app/transcribe/page.js:107 | the submit control is disabled exactly while a request is in flight |
| `TranscriptionConsole.TranscribePage.Submit` | app/transcribe/page.js:25-41 | while loading: nothing happens. Invalid URL: no request, `loading` stays false, the result is unchanged, an error toast is shown. Valid URL: `loading` becomes true, the returned body is `BuildRequest(url, language, slot)`, no toast is shown, and it stays the only request in flight |
| `TranscriptionConsole.TranscribePage.Complete` | app/transcribe/page.js:42-48 | success: the result becomes the response data plus a success toast. Failure: the result is unchanged plus the `ErrorText` toast. In both cases `loading` ends false and nothing is left in flight |
| `TranscriptionConsole.TranscribePage.ToggleEnglish` | app/transcribe/page.js:135 | flips `isEnglishOpen` and nothing else (result, loading and the other flag are untouched), keeping `Valid()` |
| `TranscriptionConsole.TranscribePage.ToggleOriginal` | app/transcribe/page.js:160 | flips `isOriginalOpen` and nothing else, keeping `Valid()` |
| `TranscriptionConsole.TranscribePage.Panel` | app/transcribe/page.js:125-129 | the spinner shows iff loading; the sections show iff not loading and a result exists |
| `Flow.AcceptedKeyOpensConsole` | app/transcribe/page.js:18-23 | whatever storage held before, once the gate stores an accepted key the console's entry guard does not redirect |
| `Flow.SignInThenEnterConsole` | app/transcribe/page.js:18-23 | over any prior storage, after the gate accepts a key and the console mounts, the raw key is stored and the tab stays on `/transcribe`: the console adds no redirect to the gate's three logged calls |
| `Flow.PaddedKeyAccepted` | app/page.js:28-32 | `"  sk-abc"` is accepted (and `HandleSubmit` then stores it with its leading blanks) |
| `Flow.DashlessKeyRejected` | app/page.js:28-31 | `"sk_abc"` is rejected |

## Left out

- JSX markup, CSS classes, icons and the instructions text: these are presentation only. What the results column shows is modelled by `RenderResults`.
- The toast library, the Next.js router and `localStorage` are foreign code. They are modelled only by the state they leave behind: the latest toast, the latest navigation target and a key-value map. The order of the calls is kept in a ghost log. Toast timing and history entries are not modelled.
- `axios.post`, the network and the fixed endpoint `http://localhost:8000/api/v1/transcribe` are I/O. The response is an argument of `Complete`, so it can be any success body or any error.
- async/await and React scheduling are runtime behaviour, not the handlers' logic. This includes whether the form renders before the entry effect redirects, state batching, and an unmount while a request is pending.
- TranscriptionConsole.TranscribePage.Complete: requires `loading`. It stands for the continuation of the awaited post, which runs only after `Submit` set `loading`.
- TranscriptionConsole.TranscribePage.Submit: while loading, the model treats a submission as not delivered. The handler has no such test; the disabled button (line 107) blocks the form's submit event.
- Browser-enforced HTML validation (`required`, `type="url"`, `type="password"`) is not done by the handlers.
- The fixed `<option>` list of language codes: the handler only compares the language with `"auto"`, so the model takes any string.
- Response bodies of other shapes: the model does not cover a `detail` that is not a string (such as a list of validation errors), a missing `original_text`, or a falsy `response.data`. The model takes a success body with a string `original_text` and an optional `english_text`, and a `detail` that is a string or absent.
- `localStorage.getItem`/`setItem` can throw (SecurityError, QuotaExceededError). An exception at app/page.js:32 would skip the toast and the navigation; the model's `SetItem` cannot throw.
- JavaScript strings are UTF-16 code units, while Dafny `string` holds Unicode scalar values, so a lone surrogate in the typed key or URL cannot be represented. Apart from that, `trim`, `startsWith("sk-")` and the ASCII `includes` checks behave the same.
- `useState("")` for the key and the field's `value` binding are covered only by `EditKey`, `EditUrl` and `SelectLanguage`. Keystroke-level input is not modelled.
