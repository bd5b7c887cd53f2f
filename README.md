# PixScribe core, modelled in Dafny

PixScribe is a small React web app with an Express proxy. It turns a text prompt into an
image and keeps a gallery of saved images in browser storage. This project models its
logic and proves its behaviour:

- **the creations store** (`src/utils/storage.js`): one storage slot holding the list
  of saved creations, with read, save (prepend), delete (filter by id) and clear. It is
  the class `Creations.CreationsStore`, whose field is the slot.
- **the generation client** (`src/utils/api.js`), module `GenerationClient`. It checks
  the prompt and then the token before any request, then sorts the proxy's reply into
  an image handle or an error message:
  - a network error;
  - a fixed message per status;
  - a message carrying the error detail read from a JSON or text body.

  It also covers the default file name of `downloadImage`.
- **the three pages with logic** (`Generate.jsx`, `Result.jsx`, `MyCreations.jsx`). Each
  page is a class whose fields are the component's state fields, with one method per
  handler. Every method is proved against a pure transition function of the page
  state, and the page behaviour is proved about those functions as lemmas.
- **the proxy** (`server.js`), module `Proxy`. It builds the upstream URL with
  `encodeURIComponent`, forwards a non-ok upstream status with a JSON error body, passes
  the image bytes of an ok reply through unchanged, and answers 500 when anything
  throws. `Proxy.ResponseWriter` models the Express response object the handler drives.
- **`encodeURIComponent`** (module `UriEncoding`), as ECMA-262 defines it under "URI
  Handling Functions": percent-encoding as in section 2.1 of RFC 3986, over UTF-8. A
  reference decoder is its partner, and the round trip is proved.
- **`EndToEnd`**: what the client makes of each upstream outcome once it has passed
  through the proxy.

Modules `Base` (Option, byte, settled reads) and `JsStrings` model the JavaScript
built-ins the code relies on: `trim`, `includes`, the decimal `toString` and UTF-16
`length`.

Everything the code gets from the outside world is a parameter of the model:
- storage writes that succeed or throw;
- the settled `fetch`, `json()`, `text()` and `blob()`;
- `Date.now()` and `toISOString()`;
- `window.confirm`;
- the result of `blobUrlToBase64`;
- the environment token.

An `async` handler is split at its `await`. A `Begin…` method does the part before it,
a `Complete…` method the continuation, and a `Handle…` method composes the two. The
awaited outcome feeds the continuation.

Facts of the code the model keeps:
- The code enforces no upper limit on the prompt length.
- The saved record's time field is `timestamp`.
- `saveCreation` returns a boolean, not the record.
- Ids are unique only if the clock readings used for them are. `Creations.LaterClockIdUnused`
  and `Creations.SaveKeepsIdsIssuedBefore` state that assumption.

## Model

| member | source | states |
|---|---|---|
| Base.IsOkStatus | src/utils/api.js:70 | `response.ok`, tested here and at server.js:27: the status is in the range 200 to 299 |
| JsStrings.IsWhiteSpace | src/pages/Generate.jsx:15 | the characters `trim` removes: ECMAScript's WhiteSpace and LineTerminator code points |
| JsStrings.TrimStart | src/pages/Generate.jsx:15 | what is dropped from the front is white space, and the rest starts with a non-white-space character or is empty |
| JsStrings.TrimEnd | src/pages/Generate.jsx:15 | what is dropped from the back is white space, and the rest ends with a non-white-space character or is empty |
| JsStrings.Trim | src/pages/Generate.jsx:15 | `trim()` keeps one slice of the input, with only white space outside it; the result neither starts nor ends with white space |
| JsStrings.TrimEmptyIff | src/pages/Generate.jsx:15 | a string trims to nothing exactly when every character of it is white space |
| JsStrings.Includes | src/pages/Result.jsx:96 | `s.includes(sub)` by scanning from the front; `IncludesIff` proves it means an occurrence at some position |
| JsStrings.IncludesIff | src/pages/Result.jsx:96 | `includes` holds exactly when the substring occurs at some position |
| JsStrings.IncludesChar | src/pages/Result.jsx:96 | a one-character `includes` is membership of that character |
| JsStrings.DecimalString | src/utils/storage.js:28 | `toString()` of a non-negative integer is a non-empty run of digits without a leading zero (except for 0 itself) |
| JsStrings.ParseDecimal | src/utils/storage.js:28 | reads a run of decimal digits as a number, most significant first: the reference inverse of `DecimalString`, as `ParseDecimalString` proves |
| JsStrings.ParseDecimalString | src/utils/storage.js:28 | reading the decimal string back gives the number: the partner of `DecimalString` |
| JsStrings.DecimalStringInjective | src/utils/storage.js:28 | different clock readings give different ids |
| JsStrings.Utf16Length | src/pages/Generate.jsx:20 | `length` counts UTF-16 code units: between one and two per code point, and exactly one each when no code point lies above U+FFFF |
| Creations.IdOf | src/utils/storage.js:49 | `c.id`: the record's id, or none when it has no `id` field |
| Creations.NewRecord | src/utils/storage.js:27-31 | the new record has `id` and `timestamp` plus the caller's fields; the caller's fields win over the generated ones, and the id is the clock reading in decimal unless the caller gave one |
| Creations.Without | src/utils/storage.js:49 | the filter keeps exactly the records whose id is not the target, and never lengthens the list |
| Creations.WithoutAppend | src/utils/storage.js:49 | filtering distributes over concatenation, so the surviving records keep their order |
| Creations.WithoutLength | src/utils/storage.js:49 | a delete removes exactly as many records as carry the id |
| Creations.WithoutAbsent | src/utils/storage.js:49 | deleting an id no record carries leaves the list as it is |
| Creations.WithoutAbsentWhenUnused | src/utils/storage.js:49 | the same fact, stated for every list, as the delete method uses it |
| Creations.WithoutPresentDistinct | src/utils/storage.js:49 | with distinct ids, deleting a present id removes exactly one record |
| Creations.CountIdDistinct | src/utils/storage.js:49 | with distinct ids, a present id is carried by exactly one record |
| Creations.CountIdAbsent | src/utils/storage.js:49 | an unused id is carried by no record |
| Creations.WithoutKeepsDistinct | src/utils/storage.js:49-50 | a delete keeps the ids distinct |
| Creations.PrependKeepsDistinct | src/utils/storage.js:32 | putting a record whose id is new in front of the list keeps the ids distinct |
| Creations.SaveKeepsDistinct | src/utils/storage.js:28-32 | a save at a clock reading not used as an id (with fields that bring no id) keeps the ids distinct |
| Creations.LaterClockIdUnused | src/utils/storage.js:28 | a clock reading later than every reading used so far yields an id no record carries |
| Creations.SaveKeepsIdsIssuedBefore | src/utils/storage.js:28-32 | saves at increasing clock readings keep every id issued before the next reading, so within a session the ids stay distinct |
| Creations.DeleteUndoesSave | src/utils/storage.js:28-50 | deleting the id a save has just handed out restores the list from before the save |
| Creations.CreationsStore.constructor | src/utils/storage.js:3 | the store is the one slot under the key `pixscribe_creations`, starting on the given contents |
| Creations.CreationsStore.GetCreations | src/utils/storage.js:9-17 | the stored list, or the empty list when the key is missing or reading throws; it never fails |
| Creations.CreationsStore.SetItem | src/utils/storage.js:33 | a write that returns replaces the slot wholly; one that throws leaves it as it was |
| Creations.CreationsStore.SaveCreation | src/utils/storage.js:24-39 | on success the slot holds the new record followed by the old list in order (one longer), and true is returned; on a failed write false is returned and the slot is unchanged |
| Creations.CreationsStore.DeleteCreation | src/utils/storage.js:46-56 | on success the slot holds the old list filtered by id; an absent id leaves the list unchanged and still returns true; a failed write returns false and changes nothing |
| Creations.CreationsStore.ClearAllCreations | src/utils/storage.js:62-70 | after a successful clear the key is gone and every read yields the empty list; a failed removal changes nothing |
| GenerationClient.TokenFromEnv | src/utils/api.js:15 | `VITE_HUGGINGFACE_API_TOKEN \|\| ''`: the environment value, or the empty string when it is unset |
| GenerationClient.IsTokenConfigured | src/utils/api.js:18-20 | the token is non-empty and not the placeholder `your_api_token_here`; `TokenConfiguredIff` states it against the environment |
| GenerationClient.ErrorDetail | src/utils/api.js:72-88 | the detail of a non-ok reply: the JSON `error` member or the serialized body, the body text, or `Unknown error`; `ErrorDetailSource` states the cases |
| GenerationClient.StatusMessage | src/utils/api.js:91-105 | the message thrown for each status, in the order of the `if` chain; `FixedStatusMessages` and `DetailedStatusMessages` state its shape |
| GenerationClient.Requests | src/utils/api.js:29-43 | the two gates pass: the trimmed prompt is not empty and the token is configured |
| GenerationClient.Attempt | src/utils/api.js:51-118 | the inner `try`: a rejected fetch gives the network error, a non-ok reply its status message, an ok reply the handle on its bytes or the blob's own error |
| GenerationClient.Rethrown | src/utils/api.js:119-130 | the outer `catch`: a message is passed on, an empty one becomes the generic message |
| GenerationClient.GenerationOutcome | src/utils/api.js:28-131 | the whole of `generateImage`: the prompt gate, then the token gate, then the attempt; the lemmas below state its behaviour |
| GenerationClient.GenerateImage | src/utils/api.js:28-131 | the request goes out exactly when the prompt is not blank and the token is configured; the result is `GenerationOutcome`; every rejection carries a non-empty message |
| GenerationClient.TokenConfiguredIff | src/utils/api.js:15-20 | the token counts as configured exactly when the environment gives a non-empty value other than the placeholder |
| GenerationClient.BlankPromptRejected | src/utils/api.js:29-31 | an empty or white-space-only prompt fails with `Prompt cannot be empty` whatever the token and the network, and no request is made |
| GenerationClient.PromptCheckPassed | src/utils/api.js:29-43 | once the prompt has a non-white-space character, the token check alone decides whether the request goes out; without a token the setup message is thrown |
| GenerationClient.NoRequestNoNetwork | src/utils/api.js:29-43 | without a request the outcome is one of the two gate messages and does not depend on the network |
| GenerationClient.NetworkErrorDistinct | src/utils/api.js:62-65 | a rejected fetch gives `Network error: …` followed by the error's message, and this differs from every status message |
| GenerationClient.StatusMessageStart | src/utils/api.js:91-105 | every status message is non-empty and none starts like the network error |
| GenerationClient.FixedStatusMessages | src/utils/api.js:91-100 | 503, 401, 403, 404 and 429 each give one fixed message whatever the detail, and the five are pairwise distinct |
| GenerationClient.DetailedStatusMessages | src/utils/api.js:101-105 | 400 gives `Bad request: ` and the detail; any other status without a fixed message gives `Failed to generate image (`, the code (which reads back as the status), `): ` and the detail |
| GenerationClient.GenericStatusMessage | src/utils/api.js:104 | the layout of the generic status message: prefix, decimal code, then the detail |
| GenerationClient.ErrorDetailSource | src/utils/api.js:72-88 | a JSON content type reads the `error` member, or the serialized body when it is missing or empty; any other type reads the text; an unreadable body gives `Unknown error` |
| GenerationClient.OkReplyResolves | src/utils/api.js:110-118 | an ok reply with a readable body resolves to a handle on exactly those bytes |
| GenerationClient.NonOkReplyFails | src/utils/api.js:70-106 | a non-ok reply always rejects, with the message for its status and the detail from its body |
| GenerationClient.FailuresCarryMessages | src/utils/api.js:119-130 | every rejection has a non-empty message; an error with a message is re-thrown unchanged |
| GenerationClient.DownloadImage | src/utils/api.js:138-150 | the anchor gets the given handle and the given name, or `pixscribe-creation.png` when no name is given; a DOM failure throws `Failed to download image` |
| UriEncoding.IsUnreserved | server.js:21 | the code points `encodeURIComponent` leaves as they are: ASCII letters and digits and `- _ . ! ~ * ' ( )` |
| UriEncoding.HexDigit | server.js:21 | the upper-case hex digit of a value below 16, itself an unreserved character |
| UriEncoding.Utf8 | server.js:21 | a code point takes one to four octets, and one exactly for ASCII |
| UriEncoding.PercentOctets | server.js:21 | three characters per octet, each `%` or a hex digit |
| UriEncoding.EncodeChar | server.js:21 | one character, the code point itself, exactly when it is unreserved; otherwise 3 to 12 characters starting with `%` |
| UriEncoding.EncodeUriComponent | server.js:21 | the encoding holds only unreserved characters and `%` |
| UriEncoding.HexRoundTrip | server.js:21 | the two hex digits of an octet read back as that octet |
| UriEncoding.PercentDecodeOctet | server.js:21 | percent-decoding reads one `%HH` triple back as its octet |
| UriEncoding.PercentDecodeOctets | server.js:21 | percent-decoding undoes the triples of a run of octets |
| UriEncoding.PercentDecodeChar | server.js:21 | percent-decoding turns one encoded code point into its UTF-8 octets |
| UriEncoding.PercentDecodeEncoded | server.js:21 | percent-decoding the encoding of a string gives its UTF-8 octets |
| UriEncoding.DecodeFirstUtf8 | server.js:21 | the UTF-8 decoder reads exactly the front code point back |
| UriEncoding.Utf8RoundTrip | server.js:21 | UTF-8 decoding undoes UTF-8 encoding |
| UriEncoding.UriRoundTrip | server.js:21 | decoding the encoding of a prompt gives the prompt back |
| UriEncoding.EncodeInjective | server.js:21 | different prompts are encoded differently |
| Proxy.PromptText | server.js:16-21 | the value `encodeURIComponent` receives: the prompt's string form, or `undefined` when the body has no prompt |
| Proxy.UpstreamUrl | server.js:21-22 | the upstream URL: the fixed prefix, the encoded prompt and the fixed query; `UpstreamUrlShape` and `UpstreamUrlInjective` state its properties |
| Proxy.Respond | server.js:27-43 | the reply for each upstream outcome: 500 on a throw, the upstream status with a JSON error on a non-ok reply, the bytes as `image/jpeg` otherwise |
| Proxy.ResponseWriter.constructor | server.js:14 | a fresh response has status 200, the headers set before the handler, and no body |
| Proxy.ResponseWriter.Sent | server.js:29-37 | the reply once a body has been sent: status, `Content-Type` header and body |
| Proxy.ResponseWriter.Status | server.js:29 | `res.status` sets the status and nothing else |
| Proxy.ResponseWriter.Set | server.js:36 | `res.set` sets one header and nothing else |
| Proxy.ResponseWriter.Send | server.js:37 | `res.send` sends the bytes, typed `application/octet-stream` only when no content type is set yet |
| Proxy.ResponseWriter.Json | server.js:29-32 | `res.json` sends the object, typed JSON when no content type is set yet |
| Proxy.HandleGenerateImage | server.js:14-44 | for every prompt value (no validation) the handler fetches `UpstreamUrl` of it and sends exactly `Respond(upstream)`; headers set earlier are kept |
| Proxy.SegmentHasNoDelimiters | server.js:21-22 | the encoded prompt holds no `/`, `?`, `#` or `&` |
| Proxy.UpstreamUrlShape | server.js:21-22 | the URL is the fixed prefix, the encoded prompt and the fixed query; the segment has no delimiter and decodes back to the prompt |
| Proxy.UpstreamUrlSegment | server.js:22 | the encoded prompt sits in the URL right after the fixed prefix |
| Proxy.UpstreamUrlInjective | server.js:21-22 | different prompts are sent upstream as different URLs |
| Proxy.NonOkStatusForwarded | server.js:27-33 | a non-ok upstream status is the reply's status, with body `{error: 'Failed to generate image', status}` carrying the same status |
| Proxy.OkBytesPassThrough | server.js:35-37 | the reply carries bytes exactly when the upstream reply was ok and readable: status 200, `image/jpeg` and exactly the upstream bytes |
| Proxy.ThrownIsServerError | server.js:40-43 | a thrown fetch or body read is answered with 500 and `{error: message}` |
| GeneratePage.Initial | src/pages/Generate.jsx:8-11 | the initial state: empty prompt, not loading, no image, no error |
| GeneratePage.ValidationError | src/pages/Generate.jsx:15-23 | the blank check first, then the check of at least 3 UTF-16 code units on the trimmed prompt, each with its own message |
| GeneratePage.Begin | src/pages/Generate.jsx:14-27 | the part before the `await`: the validation error alone, or loading on with error and image cleared |
| GeneratePage.Complete | src/pages/Generate.jsx:31-40 | the continuation: on success the image and the navigation to `/result`, on failure the message (or the default text) and loading off |
| GeneratePage.Handle | src/pages/Generate.jsx:14-41 | the whole handler: `Begin`, then `Complete` with the client's outcome for the untrimmed prompt when validation passed |
| GeneratePage.GenerateDisabled | src/pages/Generate.jsx:127 | `!prompt.trim() \|\| isLoading` |
| GeneratePage.KeyTriggersGenerate | src/pages/Generate.jsx:44 | `e.key === 'Enter' && !e.shiftKey` |
| GeneratePage.Generate.constructor | src/pages/Generate.jsx:8-12 | the page starts with an empty prompt, no loading, no image, no error |
| GeneratePage.Generate.SetPrompt | src/pages/Generate.jsx:117 | typing or picking an example sets the prompt and nothing else |
| GeneratePage.Generate.BeginGenerate | src/pages/Generate.jsx:14-27 | the part before the `await` is `Begin`; the untrimmed prompt is handed on exactly when validation passes |
| GeneratePage.Generate.CompleteGenerate | src/pages/Generate.jsx:31-40 | the continuation after the `await` is `Complete` |
| GeneratePage.Generate.HandleGenerate | src/pages/Generate.jsx:14-41 | the handler is `Handle`; a request goes out exactly when the page's and the client's checks both pass |
| GeneratePage.Generate.HandleKeyPress | src/pages/Generate.jsx:43-48 | Enter without Shift prevents the default and generates; any other key, Shift+Enter included, changes nothing |
| GeneratePage.BlankPromptSetsError | src/pages/Generate.jsx:15-18 | a white-space-only prompt sets only the empty-prompt error: no loading, no call |
| GeneratePage.ShortPromptSetsError | src/pages/Generate.jsx:15-23 | a non-blank prompt under 3 code units once trimmed sets only the length error; the blank check comes first |
| GeneratePage.ValidPromptLength | src/pages/Generate.jsx:20-23 | 3 trimmed code points always pass; 2 pass only when one lies above U+FFFF; 1 never does |
| GeneratePage.ValidPromptStartsLoading | src/pages/Generate.jsx:25-27 | a valid prompt sets loading, clears the error and the old image, and keeps the prompt |
| GeneratePage.SuccessNavigates | src/pages/Generate.jsx:31-36 | on success the image and the navigation to `/result` carry the same handle and the untrimmed prompt, and loading stays on |
| GeneratePage.FailureShowsMessage | src/pages/Generate.jsx:37-40 | on failure the client's (non-empty) message is shown and loading stops |
| GeneratePage.ValidPromptPassesClient | src/pages/Generate.jsx:15-30 | a prompt the page accepts always passes the client's blank check, so only the token can stop the request |
| GeneratePage.GenerateDisabledIff | src/pages/Generate.jsx:127 | the button is disabled exactly when loading or the prompt is all white space |
| ResultPage.Initial | src/pages/Result.jsx:12-14 | the initial state: the navigation state, not regenerating, no message |
| ResultPage.RedirectTarget | src/pages/Result.jsx:16-21 | the mount effect navigates to `/` exactly when there is no image data |
| ResultPage.RendersNothing | src/pages/Result.jsx:68-70 | the component returns `null` exactly when there is no image data |
| ResultPage.SavedFields | src/pages/Result.jsx:28-31 | the object handed to `saveCreation`: the converted image and the prompt |
| ResultPage.SaveStores | src/pages/Result.jsx:26-33 | a save stores a record when there is image data, the conversion resolved and the write returned |
| ResultPage.AfterSave | src/pages/Result.jsx:23-45 | the state after `handleSave`: the success message when the record was stored, the failure message on every other path |
| ResultPage.BeginRegen | src/pages/Result.jsx:47-51 | the part before the `await`: the flag on, or without image data the alert and the flag off at once |
| ResultPage.CompleteRegen | src/pages/Result.jsx:51-61 | the continuation: the new handle with the prompt sent, or one alert, and the flag off |
| ResultPage.HandleRegen | src/pages/Result.jsx:47-62 | the whole handler: `BeginRegen`, then `CompleteRegen` with the client's outcome for the current prompt |
| ResultPage.IsSuccessStyled | src/pages/Result.jsx:96 | `saveMessage.includes('✅')` |
| ResultPage.Result.constructor | src/pages/Result.jsx:12-14 | the page starts from the navigation state, not regenerating, with no message |
| ResultPage.Result.HandleSave | src/pages/Result.jsx:23-45 | the state becomes `AfterSave`; the store gets the converted image and the prompt exactly when there is data, the conversion resolved and the write succeeded, and is untouched otherwise |
| ResultPage.Result.ClearSaveMessage | src/pages/Result.jsx:35 | the timer callback clears the message and nothing else |
| ResultPage.Result.BeginRegenerate | src/pages/Result.jsx:47-51 | the part before the `await` is `BeginRegen`; the current prompt is handed on exactly when there is image data |
| ResultPage.Result.CompleteRegenerate | src/pages/Result.jsx:51-61 | the continuation is `CompleteRegen` |
| ResultPage.Result.HandleRegenerate | src/pages/Result.jsx:47-62 | the handler is `HandleRegen` |
| ResultPage.MissingStateRedirects | src/pages/Result.jsx:16-21 | without navigation state the page redirects to `/` and renders nothing; with it, it does neither |
| ResultPage.SaveMessageIff | src/pages/Result.jsx:33-44 | the success message shows exactly when the record was stored, the failure message otherwise; nothing else changes |
| ResultPage.SavedFieldsKept | src/pages/Result.jsx:26-31 | the saved record carries the converted image and the prompt unchanged, plus id and timestamp |
| ResultPage.RegenerateKeepsPrompt | src/pages/Result.jsx:51-55 | a successful regenerate replaces the handle, keeps the prompt and shows no alert |
| ResultPage.RegenerateFailureKeepsImage | src/pages/Result.jsx:56-58 | a failed regenerate keeps the image data and shows one alert |
| ResultPage.RegeneratingFlag | src/pages/Result.jsx:48-61 | the flag is on while the request is out and off afterwards in every outcome; the image data is never lost |
| ResultPage.SaveMessageStyle | src/pages/Result.jsx:95-99 | the success message is styled green and the failure message red |
| ResultPage.SuccessStyleIff | src/pages/Result.jsx:96 | a message is styled green exactly when it holds the check mark somewhere |
| MyCreationsPage.SelectedHasId | src/pages/MyCreations.jsx:25 | `selectedCreation?.id === id` |
| MyCreationsPage.AfterDelete | src/pages/MyCreations.jsx:21-29 | the state after `handleDelete`: unchanged when not confirmed; otherwise the list the store then yields, and the selection cleared when it has the deleted id |
| MyCreationsPage.AfterClearAll | src/pages/MyCreations.jsx:31-37 | the state after `handleClearAll`: unchanged when not confirmed; otherwise the list the store then yields and nothing selected |
| MyCreationsPage.ViewOf | src/pages/MyCreations.jsx:104-127 | the content area: empty state for an empty list, else the detail view of the selection, else the grid |
| MyCreationsPage.ShowsClearAll | src/pages/MyCreations.jsx:89 | the Clear All button is rendered when the list is not empty |
| MyCreationsPage.Noun | src/pages/MyCreations.jsx:75 | `creation` for one, `creations` otherwise |
| MyCreationsPage.CountLabel | src/pages/MyCreations.jsx:75 | the count, the noun and `saved`; `CountLabelReadsBack` proves what can be read out of it |
| MyCreationsPage.FieldText | src/pages/MyCreations.jsx:53-54 | a record field as a string property or a template literal receives it: the value, or `undefined` when the field is missing |
| MyCreationsPage.IdText | src/pages/MyCreations.jsx:54 | `${creation.id}`: the id, or `undefined` when the record has none |
| MyCreationsPage.DownloadFileName | src/pages/MyCreations.jsx:54 | `pixscribe-${creation.id}.png`; `FileNameRoundTrip` and `FileNameInjective` state its properties |
| MyCreationsPage.MyCreations.constructor | src/pages/MyCreations.jsx:9-14 | mounting shows what the store yields, with nothing selected |
| MyCreationsPage.MyCreations.LoadCreations | src/pages/MyCreations.jsx:16-19 | the list shown becomes what the store yields |
| MyCreationsPage.MyCreations.HandleDelete | src/pages/MyCreations.jsx:21-29 | the state becomes `AfterDelete`; a confirmed delete writes the filtered list and shows what is stored; an unconfirmed one touches nothing |
| MyCreationsPage.MyCreations.HandleClearAll | src/pages/MyCreations.jsx:31-37 | the state becomes `AfterClearAll`; a confirmed clear empties the store and the selection |
| MyCreationsPage.MyCreations.Select | src/pages/MyCreations.jsx:174 | a card click selects that creation |
| MyCreationsPage.MyCreations.Back | src/pages/MyCreations.jsx:136 | the back button clears the selection |
| MyCreationsPage.MyCreations.HandleDownload | src/pages/MyCreations.jsx:50-58 | the anchor's `href` is the record's `imageUrl`, or the string `undefined` when it has none, and it is named `pixscribe-<id>.png` |
| MyCreationsPage.DeleteShowsFiltered | src/pages/MyCreations.jsx:21-24 | after a confirmed delete the list shown is the stored list filtered by id, with no record of that id; with distinct ids it is one shorter |
| MyCreationsPage.DeleteSelection | src/pages/MyCreations.jsx:25-27 | the selection is cleared exactly when it has the deleted id, and otherwise kept |
| MyCreationsPage.UnconfirmedChangesNothing | src/pages/MyCreations.jsx:22-32 | an unconfirmed delete or clear changes neither the list nor the selection |
| MyCreationsPage.ClearAllEmpties | src/pages/MyCreations.jsx:31-36 | a confirmed clear leaves an empty list, no selection, the empty view and no Clear All button |
| MyCreationsPage.ViewCases | src/pages/MyCreations.jsx:104-127 | the empty view shows exactly when Clear All is hidden; the detail view needs a non-empty list and a selection; the grid shows the list |
| MyCreationsPage.CountLabelReadsBack | src/pages/MyCreations.jsx:75 | the label starts with the count, which reads back, and uses `creation` exactly for one |
| MyCreationsPage.FileNameRoundTrip | src/pages/MyCreations.jsx:54 | the id text can be read back out of the download file name |
| MyCreationsPage.FileNameInjective | src/pages/MyCreations.jsx:54 | records with different ids download under different names |
| EndToEnd.AsSeenByClient | server.js:29-37 | the proxy's reply as the client's `fetch` hands it over: its status and content type, the JSON error body, and the bytes as the blob |
| EndToEnd.ClientOutcome | server.js:14-44 | how `generateImage` settles when the proxy met a given upstream outcome |
| EndToEnd.JsonTypeRecognised | src/utils/api.js:76 | the proxy's JSON content type is one the client reads as JSON |
| EndToEnd.ProxyErrorDetail | src/utils/api.js:76-79 | the client reads a proxy error body back as its `error` text, or the serialized body when that text is empty |
| EndToEnd.SuccessBytesReachClient | server.js:35-37 | the upstream image bytes are exactly the bytes the client's handle points at |
| EndToEnd.UpstreamStatusReachesClient | server.js:27-33 | a non-ok upstream status reaches the client unchanged, so the client shows its message for that status |
| EndToEnd.ProxyFailureReachesClient | server.js:40-43 | a failure inside the proxy reaches the client as the 500 message carrying the proxy's error text |
| EndToEnd.ServerErrorMessage | src/utils/api.js:104 | the client's message for status 500 is `Failed to generate image (500): ` and the detail |
| EndToEnd.PromptArrivesUpstream | src/utils/api.js:58-60 | the prompt the client posts is what the upstream service reads from the URL path segment |

## Left out

- Browser storage and JSON: `localStorage`, `JSON.parse` and `JSON.stringify` are
  outside the model. The slot is one of three values: missing or empty, unreadable, or
  holding a list. A stored value that parses to something other than an array is not
  modelled.
- The anchor's `href` is the string assigned to it. Resolving that string against the
  page's URL, which the browser does when it follows the link, is not modelled.
- Record values are strings. A JSON value of another type in a stored record (a number
  `id`, say) is not modelled, nor a record where `id` is missing in `deleteCreation`'s
  comparison with an `undefined` id.
- `blobUrlToBase64` (src/utils/api.js:157-172) depends on `fetch` of a blob URL and
  `FileReader`, foreign calls with no visible source. Its settled result is a
  parameter of `HandleSave`, and no base64 or data-URL round trip is claimed.
- `fetch`, `Blob`, `URL.createObjectURL` and the DOM anchor click are parameters or
  abstract values. An object URL stands for the bytes it points at.
- Timers and async ordering are left out: the 3-second clearing of the save message
  (modelled as a separate `ClearSaveMessage` step), the 500 ms delay before navigating,
  and interleaving of handlers. Each handler is one sequence split at its `await`.
- `alert` boxes are recorded as a sequence of messages in the page state.
- `encodeURIComponent` throws `URIError` on a lone surrogate. Dafny's `char` is a
  Unicode scalar value, so a lone surrogate is not representable and that case is not
  modelled.
- An `error` member of a proxy error body that is not a string (a number, an object,
  `true`) is not modelled. Such a member has a string form JavaScript would use as the
  detail, or `serialized` when it is falsy. A truthy member whose string form is empty
  (`[]`) is left out too.
- `DecimalString` does not model the exponent form (`1e+21`) JavaScript's `toString`
  prints for integers of 10^21 and more. Clock readings, status codes and list lengths
  never get that large.
- `formatDate` (src/pages/MyCreations.jsx:39-48) depends on the locale data behind
  `toLocaleDateString`.
- The unused `MODELS` constant (src/utils/api.js:4-8), the logging calls, and the
  presentation-only files (Landing, Navbar, Loader, ImageCard, PromptInput, App,
  tailwind config).
- The Express, cors and node-fetch plumbing, `app.listen` and the dotenv setup. Header
  names are compared exactly here, while Express compares them case-insensitively.
  `ResponseWriter.Send` and `ResponseWriter.Json` leave the headers as they are when a
  content type is already set. Express would still add `Content-Length`, usually an
  `ETag`, and a charset on string bodies. The handler never takes that path.
- The client checks the token but never sends it to the proxy. The model likewise
  uses the token only in the gate.
- An upstream 2xx reply other than 200 is answered with 200, as the code does: it
  never calls `res.status` on that path. This is modelled, not left out.
- The shape of `location.state` is taken as given: either missing or an object with
  `imageUrl` and `prompt`.
- A prompt value that is an object or an array is not converted by the model: its
  `String(...)` form is taken as given, as the text of `Present(text)`.
