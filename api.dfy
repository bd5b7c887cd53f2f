/** The generation client of `src/utils/api.js`: the gate that runs before any request
    (prompt, then token), the request to the proxy, and the classification of the
    reply into an image handle or an error message. */
module GenerationClient {
  import opened Base
  import opened JsStrings

  const TokenPlaceholder := "your_api_token_here"
  const JsonContentType := "application/json"

  // Each message below is the text the client throws, character for character. The
  // split into pieces keeps each message's first words a short sequence of their own, so
  // the proofs that the messages start differently (StatusMessageStart,
  // NetworkErrorDistinct) read them off cheaply.
  const EmptyPromptMessage := "Prompt cannot be empty"
  const TokenSetupMessage :=
    "API token not configured. Please add your HuggingFace API token to the .env file.\n\n" +
    "Steps:\n" +
    "1. Visit: https://huggingface.co/settings/tokens\n" +
    "2. Create a new token with \"Read\" permission\n" +
    "3. Copy the token (starts with hf_)\n" +
    "4. Open the .env file in your project root\n" +
    "5. Add: VITE_HUGGINGFACE_API_TOKEN=your_token_here\n" +
    "6. Restart the dev server (npm run dev)"
  const NetworkErrorPrefix :=
    "Network error: " + "Unable to connect to proxy server. " +
    "Make sure the server is running (npm run server). " + "Error: "
  const ModelLoadingMessage :=
    "Model is loading. " + "Please wait 20-30 seconds and try again. " + "(This is normal for the first request!)"
  const InvalidTokenMessage :=
    "Invalid API token. " + "Please check your HuggingFace API key in the .env file."
  const ForbiddenMessage :=
    "Access forbidden. " + "Your API token may not have the required permissions. " +
    "Make sure you created a token with \"Read\" permission."
  const ModelNotFoundMessage :=
    "Model not found. " + "The AI model may be temporarily unavailable. " + "Please try again in a few moments."
  const RateLimitMessage := "Rate limit exceeded. " + "Please wait a few minutes and try again."
  const BadRequestPrefix := "Bad request: "
  const GenericStatusPrefix := "Failed to generate image ("
  const UnknownDetail := "Unknown error"
  const GenericFailureMessage := "Unknown error occurred during image generation. Check console for details."
  const DownloadFailureMessage := "Failed to download image"
  const DefaultDownloadName := "pixscribe-creation.png"

  /** `import.meta.env.VITE_HUGGINGFACE_API_TOKEN || ''`. */
  function TokenFromEnv(env: Option<string>): string {
    if env.Some? then env.value else ""
  }

  /** `isTokenConfigured()`: the token is set and is not the placeholder of the sample `.env`. */
  predicate IsTokenConfigured(token: string) {
    token != "" && |token| > 0 && token != TokenPlaceholder
  }

  /** A transient handle (`URL.createObjectURL(blob)`), standing for the bytes it points at. */
  datatype ObjectUrl = ObjectUrl(bytes: seq<byte>)

  /** What `response.json()` resolves to on an error reply:
      JsonNull   the body is `null`, so reading `.error` of it throws;
      JsonValue  any other value: `error` is the string value of its `error` member,
                 None when that member is missing or `null`; `serialized` is
                 `JSON.stringify` of the whole value. An empty string is falsy, so
                 `Some("")` falls back to `serialized` as the code does. */
  datatype ErrorJson = JsonNull | JsonValue(error: Option<string>, serialized: string)

  /** The proxy's reply as `fetch` hands it over: the status, the `content-type` header,
      and what each body reader would settle to. Only one reader is ever used. */
  datatype Response = Response(
    status: nat,
    contentType: Option<string>,
    json: Read<ErrorJson>,
    text: Read<string>,
    blob: Read<seq<byte>>)

  /** The settled `fetch(PROXY_API_URL, ...)`: rejected (the proxy is unreachable) or a reply. */
  datatype FetchOutcome = FetchRejected(message: string) | FetchResolved(response: Response)

  /** How `generateImage` settles: it resolves with a handle or rejects with an error message. */
  datatype Generation = Image(url: ObjectUrl) | Failure(message: string)

  /** The error detail of a non-ok reply: the `error` member of a JSON body (or the
      whole body serialized when it has none), the text of any other body, and
      `'Unknown error'` when the body cannot be read. */
  function ErrorDetail(r: Response): string {
    if r.contentType.Some? && Includes(r.contentType.value, JsonContentType) then
      match r.json
      case Done(JsonValue(error, serialized)) =>
        if error.Some? && error.value != "" then error.value else serialized
      case Done(JsonNull) => UnknownDetail
      case Failed(_) => UnknownDetail
    else
      match r.text
      case Done(text) => text
      case Failed(_) => UnknownDetail
  }

  /** The message thrown for a non-ok status, given the detail read from the body. */
  function StatusMessage(status: nat, detail: string): string {
    if status == 503 then ModelLoadingMessage
    else if status == 401 then InvalidTokenMessage
    else if status == 403 then ForbiddenMessage
    else if status == 404 then ModelNotFoundMessage
    else if status == 429 then RateLimitMessage
    else if status == 400 then BadRequestPrefix + detail
    else GenericStatusPrefix + DecimalString(status) + "): " + detail
  }

  /** The statuses that get a fixed message of their own. */
  predicate HasFixedMessage(status: nat) {
    status == 503 || status == 401 || status == 403 || status == 404 || status == 429
  }

  /** Whether `generateImage` gets as far as issuing the request. */
  predicate Requests(prompt: string, token: string) {
    Trim(prompt) != [] && IsTokenConfigured(token)
  }

  /** The value the inner `try` block of `generateImage` produces, or the message it throws. */
  function Attempt(fetch: FetchOutcome): Generation {
    match fetch
    case FetchRejected(m) => Failure(NetworkErrorPrefix + m)
    case FetchResolved(r) =>
      if !IsOkStatus(r.status) then Failure(StatusMessage(r.status, ErrorDetail(r)))
      else
        match r.blob
        case Done(bytes) => Image(ObjectUrl(bytes))
        case Failed(m) => Failure(m)
  }

  /** The outer `catch`: an error with a message is re-thrown as it is, one without a
      message becomes the generic error. */
  function Rethrown(g: Generation): Generation {
    if g.Failure? && g.message == "" then Failure(GenericFailureMessage) else g
  }

  /** How `generateImage(prompt)` settles with the configured `token` and the settled `fetch`. */
  function GenerationOutcome(prompt: string, token: string, fetch: FetchOutcome): Generation {
    if prompt == "" || Trim(prompt) == [] then Failure(EmptyPromptMessage)
    else if !IsTokenConfigured(token) then Failure(TokenSetupMessage)
    else Rethrown(Attempt(fetch))
  }

  /** `generateImage(prompt)`: `requested` says whether the request to the proxy was issued. */
  method GenerateImage(prompt: string, token: string, fetch: FetchOutcome) returns (result: Generation, requested: bool)
    ensures requested <==> Requests(prompt, token)
    ensures result == GenerationOutcome(prompt, token, fetch)
    ensures result.Failure? ==> result.message != ""
  {
    if prompt == "" || |Trim(prompt)| == 0 {
      return Failure(EmptyPromptMessage), false;
    }
    if !IsTokenConfigured(token) {
      return Failure(TokenSetupMessage), false;
    }
    requested := true;
    var thrown: string;
    match fetch {
      case FetchRejected(m) =>
        thrown := NetworkErrorPrefix + m;
      case FetchResolved(response) =>
        if !IsOkStatus(response.status) {
          var errorMessage := ErrorDetail(response);
          thrown := StatusMessage(response.status, errorMessage);
        } else {
          match response.blob {
            case Done(bytes) =>
              return Image(ObjectUrl(bytes)), true;
            case Failed(m) =>
              thrown := m;
          }
        }
    }
    if thrown != "" {
      result := Failure(thrown);
    } else {
      result := Failure(GenericFailureMessage);
    }
  }

  /** An empty or white-space-only prompt is rejected with its own message whatever the
      token and the network would do: the prompt check comes first. */
  lemma BlankPromptRejected(prompt: string, token: string, fetch: FetchOutcome)
    requires forall k :: 0 <= k < |prompt| ==> IsWhiteSpace(prompt[k])
    ensures GenerationOutcome(prompt, token, fetch) == Failure(EmptyPromptMessage)
    ensures !Requests(prompt, token)
  {
    TrimEmptyIff(prompt);
  }

  /** A prompt with a non-white-space character passes the prompt check; the token
      check then decides whether the request is issued. */
  lemma PromptCheckPassed(prompt: string, token: string, fetch: FetchOutcome)
    requires exists k :: 0 <= k < |prompt| && !IsWhiteSpace(prompt[k])
    ensures GenerationOutcome(prompt, token, fetch) != Failure(EmptyPromptMessage) || Requests(prompt, token)
    ensures !IsTokenConfigured(token) ==> GenerationOutcome(prompt, token, fetch) == Failure(TokenSetupMessage)
    ensures IsTokenConfigured(token) <==> Requests(prompt, token)
  {
    TrimEmptyIff(prompt);
  }

  /** Without a request the outcome cannot depend on the network. */
  lemma NoRequestNoNetwork(prompt: string, token: string, f1: FetchOutcome, f2: FetchOutcome)
    requires !Requests(prompt, token)
    ensures GenerationOutcome(prompt, token, f1) == GenerationOutcome(prompt, token, f2)
    ensures GenerationOutcome(prompt, token, f1) in {Failure(EmptyPromptMessage), Failure(TokenSetupMessage)}
  {
  }

  /** The token gate accepts exactly the non-empty tokens other than the placeholder. */
  lemma TokenConfiguredIff(env: Option<string>)
    ensures IsTokenConfigured(TokenFromEnv(env)) <==> env.Some? && env.value != "" && env.value != TokenPlaceholder
  {
  }

  /** The first character of a status message: none of them starts like the network error. */
  lemma StatusMessageStart(status: nat, detail: string)
    ensures StatusMessage(status, detail) != [] && StatusMessage(status, detail)[0] != 'N'
  {
    var m := StatusMessage(status, detail);
    if status == 400 {
      assert m == BadRequestPrefix + detail;
      assert m[0] == 'B';
    } else if !HasFixedMessage(status) {
      var p := GenericStatusPrefix + DecimalString(status);
      assert m == p + ("): " + detail);
      assert p[0] == 'F';
    } else {
      assert ModelLoadingMessage[0] == 'M' && InvalidTokenMessage[0] == 'I' && ForbiddenMessage[0] == 'A';
      assert ModelNotFoundMessage[0] == 'M' && RateLimitMessage[0] == 'R';
    }
  }

  /** A rejected `fetch` is reported as a network error that starts with its own fixed
      text and differs from every status message. */
  lemma NetworkErrorDistinct(m: string, token: string, prompt: string, status: nat, detail: string)
    requires Requests(prompt, token)
    ensures GenerationOutcome(prompt, token, FetchRejected(m)) == Failure(NetworkErrorPrefix + m)
    ensures NetworkErrorPrefix <= NetworkErrorPrefix + m
    ensures NetworkErrorPrefix + m != StatusMessage(status, detail)
  {
    StatusMessageStart(status, detail);
    assert NetworkErrorPrefix[0] == 'N';
    assert (NetworkErrorPrefix + m)[0] == 'N';
  }

  /** Statuses 503, 401, 403, 404 and 429 each give one fixed message whatever the body
      says, and the five messages are pairwise distinct. */
  lemma FixedStatusMessages(s1: nat, s2: nat, d1: string, d2: string)
    requires HasFixedMessage(s1) && HasFixedMessage(s2)
    ensures StatusMessage(s1, d1) == StatusMessage(s1, d2)
    ensures StatusMessage(s1, d1) == StatusMessage(s2, d2) <==> s1 == s2
  {
    // the five messages have five different lengths
    var m1, m2 := StatusMessage(s1, d1), StatusMessage(s2, d2);
    if s1 != s2 {
      assert |m1| != |m2|;
    }
  }

  /** Status 400 carries the detail after `'Bad request: '`; any other status without a
      fixed message carries its code and the detail, and the code can be read back. */
  lemma DetailedStatusMessages(status: nat, detail: string)
    requires !HasFixedMessage(status)
    ensures status == 400 ==> StatusMessage(status, detail) == BadRequestPrefix + detail
    ensures status != 400 ==> GenericStatusReadBack(StatusMessage(status, detail), status, detail)
  {
    if status != 400 {
      var d := DecimalString(status);
      var rest := "): " + detail;
      GenericStatusMessage(status, detail);
      SliceOfJoin(GenericStatusPrefix, d, rest);
      ParseDecimalString(status);
    }
  }

  /** `m` is the generic status message: the prefix, then the decimal code, which reads
      back as `status`, then the detail. */
  predicate GenericStatusReadBack(m: string, status: nat, detail: string) {
    var n := |GenericStatusPrefix|;
    var k := |DecimalString(status)|;
    && GenericStatusPrefix <= m
    && n + k <= |m|
    && ParseDecimal(m[n..n + k]) == status
    && m[n + k..] == "): " + detail
  }

  /** The generic status message regrouped as prefix, code and detail. */
  lemma GenericStatusMessage(status: nat, detail: string)
    requires !HasFixedMessage(status) && status != 400
    ensures StatusMessage(status, detail) == GenericStatusPrefix + (DecimalString(status) + ("): " + detail))
  {
    assert StatusMessage(status, detail) == GenericStatusPrefix + DecimalString(status) + "): " + detail;
    JoinAssoc(GenericStatusPrefix, DecimalString(status), "): ", detail);
  }

  /** Where the detail comes from: a reply whose content type mentions
      `application/json` is read as JSON, any other as text. */
  lemma ErrorDetailSource(r: Response)
    ensures (r.contentType.Some? && exists i :: OccursAt(r.contentType.value, JsonContentType, i)) ==>
      ErrorDetail(r) == match r.json
        case Done(JsonValue(e, serialized)) => if e.Some? && e.value != "" then e.value else serialized
        case _ => UnknownDetail
    ensures (r.contentType.None? || forall i :: !OccursAt(r.contentType.value, JsonContentType, i)) ==>
      ErrorDetail(r) == if r.text.Done? then r.text.value else UnknownDetail
  {
    if r.contentType.Some? {
      IncludesIff(r.contentType.value, JsonContentType);
    }
  }

  /** Once the request is issued, an ok reply whose body can be read resolves to a handle
      on exactly those bytes. */
  lemma OkReplyResolves(prompt: string, token: string, r: Response)
    requires Requests(prompt, token)
    requires IsOkStatus(r.status) && r.blob.Done?
    ensures GenerationOutcome(prompt, token, FetchResolved(r)) == Image(ObjectUrl(r.blob.value))
  {
    assert Attempt(FetchResolved(r)) == Image(ObjectUrl(r.blob.value));
  }

  /** Once the request is issued, a non-ok reply is always an error: the message for its
      status with the detail read from its body. */
  lemma NonOkReplyFails(prompt: string, token: string, r: Response)
    requires Requests(prompt, token)
    requires !IsOkStatus(r.status)
    ensures GenerationOutcome(prompt, token, FetchResolved(r)) == Failure(StatusMessage(r.status, ErrorDetail(r)))
  {
    StatusMessageStart(r.status, ErrorDetail(r));
    assert Attempt(FetchResolved(r)) == Failure(StatusMessage(r.status, ErrorDetail(r)));
  }

  /** Every rejection carries a non-empty message: an error with a message is passed
      on unchanged, and one without a message becomes the generic message. */
  lemma FailuresCarryMessages(prompt: string, token: string, fetch: FetchOutcome)
    ensures GenerationOutcome(prompt, token, fetch).Failure? ==> GenerationOutcome(prompt, token, fetch).message != ""
    ensures Requests(prompt, token) && Attempt(fetch).Failure? && Attempt(fetch).message != "" ==>
      GenerationOutcome(prompt, token, fetch) == Attempt(fetch)
    ensures Requests(prompt, token) && Attempt(fetch) == Failure("") ==>
      GenerationOutcome(prompt, token, fetch) == Failure(GenericFailureMessage)
  {
  }

  /** What `downloadImage(imageUrl, filename)` does: an anchor with that `href` and
      `download` name is clicked, or the error `'Failed to download image'` is thrown. */
  datatype Download<H> = Started(href: H, filename: string) | DownloadFailed(message: string)

  /** `downloadImage(href, filename = 'pixscribe-creation.png')`; `clickSucceeds` says
      whether the DOM calls returned. The handle is only read, never released. */
  function DownloadImage<H>(href: H, filename: Option<string>, clickSucceeds: bool): (r: Download<H>)
    ensures r.Started? <==> clickSucceeds
    ensures r.Started? ==> r.href == href
    ensures r.Started? && filename.None? ==> r.filename == DefaultDownloadName
    ensures r.Started? && filename.Some? ==> r.filename == filename.value
    ensures r.DownloadFailed? ==> r.message == DownloadFailureMessage
  {
    if clickSucceeds then
      Started(href, if filename.Some? then filename.value else DefaultDownloadName)
    else
      DownloadFailed(DownloadFailureMessage)
  }
}
