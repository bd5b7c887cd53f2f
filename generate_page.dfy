/** The Generate page of `src/pages/Generate.jsx`: prompt validation, the loading flag
    around the call to the generation client, and the hand-over to the result page. */
module GeneratePage {
  import opened Base
  import opened JsStrings
  import opened GenerationClient

  const ResultPath := "/result"
  const EnterKey := "Enter"
  const MinPromptLength := 3
  const EmptyPromptError := "Please enter a prompt to generate an image"
  const ShortPromptError := "Prompt should be at least 3 characters long"
  const DefaultGenerateError := "Failed to generate image. Please try again."

  /** `generatedImage`: the handle the client resolved with and the prompt it was made from. */
  datatype GeneratedImage = GeneratedImage(url: ObjectUrl, prompt: string)

  /** `navigate(path, { state: { imageUrl, prompt } })`. */
  datatype Navigation = Navigation(path: string, imageUrl: ObjectUrl, prompt: string)

  /** The page's state fields as one value; `navigation` is the navigation the page has
      scheduled, if any. */
  datatype PageState = PageState(
    prompt: string,
    isLoading: bool,
    generatedImage: Option<GeneratedImage>,
    error: string,
    navigation: Option<Navigation>)

  /** The state of a freshly mounted page. */
  function Initial(): PageState {
    PageState("", false, None, "", None)
  }

  /** The validation `handleGenerate` does first: a blank prompt, then a trimmed prompt
      shorter than 3 UTF-16 code units, is rejected with its own message. */
  function ValidationError(prompt: string): Option<string> {
    if Trim(prompt) == [] then Some(EmptyPromptError)
    else if Utf16Length(Trim(prompt)) < MinPromptLength then Some(ShortPromptError)
    else None
  }

  /** The part of `handleGenerate` before the `await`. */
  function Begin(s: PageState): PageState {
    var v := ValidationError(s.prompt);
    if v.Some? then s.(error := v.value)
    else s.(isLoading := true, error := "", generatedImage := None)
  }

  /** The part of `handleGenerate` after the `await`, for the prompt `sent` and how the
      client settled. */
  function Complete(s: PageState, sent: string, outcome: Generation): PageState {
    match outcome
    case Image(url) =>
      s.(generatedImage := Some(GeneratedImage(url, sent)), navigation := Some(Navigation(ResultPath, url, sent)))
    case Failure(m) =>
      s.(error := if m != "" then m else DefaultGenerateError, isLoading := false)
  }

  /** The whole of `handleGenerate` with the generation client's token and network outcome. */
  function Handle(s: PageState, token: string, fetch: FetchOutcome): PageState {
    if ValidationError(s.prompt).Some? then Begin(s)
    else Complete(Begin(s), s.prompt, GenerationOutcome(s.prompt, token, fetch))
  }

  /** `disabled={!prompt.trim() || isLoading}` of the Generate button. */
  predicate GenerateDisabled(s: PageState) {
    Trim(s.prompt) == [] || s.isLoading
  }

  /** `e.key === 'Enter' && !e.shiftKey`. */
  predicate KeyTriggersGenerate(key: string, shiftKey: bool) {
    key == EnterKey && !shiftKey
  }

  /** The page component and its handlers. */
  class Generate {
    var prompt: string
    var isLoading: bool
    var generatedImage: Option<GeneratedImage>
    var error: string
    var navigation: Option<Navigation>

    function State(): PageState
      reads this
    {
      PageState(prompt, isLoading, generatedImage, error, navigation)
    }

    constructor ()
      ensures State() == Initial()
    {
      prompt := "";
      isLoading := false;
      generatedImage := None;
      error := "";
      navigation := None;
    }

    /** The input's `onChange`, and the example buttons: `setPrompt(value)`. */
    method SetPrompt(value: string)
      modifies this
      ensures State() == old(State()).(prompt := value)
    {
      prompt := value;
    }

    /** `handleGenerate` up to the `await`: `sent` is the prompt handed to the client,
        untrimmed, or None when validation stopped the handler. */
    method BeginGenerate() returns (sent: Option<string>)
      modifies this
      ensures State() == Begin(old(State()))
      ensures sent.Some? <==> ValidationError(old(prompt)).None?
      ensures sent.Some? ==> sent.value == old(prompt)
    {
      BeginCases(State());
      var trimmed := Trim(prompt);
      if trimmed == "" {
        error := EmptyPromptError;
        return None;
      }
      if Utf16Length(trimmed) < MinPromptLength {
        error := ShortPromptError;
        return None;
      }
      isLoading := true;
      error := "";
      generatedImage := None;
      sent := Some(prompt);
    }

    /** `handleGenerate` after the `await`: store the image and schedule the navigation
        to the result page, or show the error and stop loading. */
    method CompleteGenerate(sent: string, outcome: Generation)
      modifies this
      ensures State() == Complete(old(State()), sent, outcome)
    {
      match outcome {
        case Image(url) =>
          generatedImage := Some(GeneratedImage(url, sent));
          navigation := Some(Navigation(ResultPath, url, sent));
        case Failure(m) =>
          error := if m != "" then m else DefaultGenerateError;
          isLoading := false;
      }
    }

    /** `handleGenerate()` with the client's token and network outcome; `requested` says
        whether the request to the proxy went out. */
    method HandleGenerate(token: string, fetch: FetchOutcome) returns (requested: bool)
      modifies this
      ensures State() == Handle(old(State()), token, fetch)
      ensures requested <==> ValidationError(old(prompt)).None? && Requests(old(prompt), token)
    {
      var sent := BeginGenerate();
      requested := false;
      if sent.Some? {
        var outcome;
        outcome, requested := GenerateImage(sent.value, token, fetch);
        CompleteGenerate(sent.value, outcome);
      }
    }

    /** `handleKeyPress(e)`: Enter without Shift prevents the default and generates;
        any other key does nothing. */
    method HandleKeyPress(key: string, shiftKey: bool, token: string, fetch: FetchOutcome)
      returns (defaultPrevented: bool, requested: bool)
      modifies this
      ensures defaultPrevented == KeyTriggersGenerate(key, shiftKey)
      ensures State() == if defaultPrevented then Handle(old(State()), token, fetch) else old(State())
      ensures requested <==> defaultPrevented && ValidationError(old(prompt)).None? && Requests(old(prompt), token)
    {
      defaultPrevented := KeyTriggersGenerate(key, shiftKey);
      requested := false;
      if defaultPrevented {
        requested := HandleGenerate(token, fetch);
      }
    }
  }

  /** The three ways the part before the `await` can go. */
  lemma BeginCases(s: PageState)
    ensures Trim(s.prompt) == [] ==> ValidationError(s.prompt) == Some(EmptyPromptError) && Begin(s) == s.(error := EmptyPromptError)
    ensures Trim(s.prompt) != [] && Utf16Length(Trim(s.prompt)) < MinPromptLength ==>
      ValidationError(s.prompt) == Some(ShortPromptError) && Begin(s) == s.(error := ShortPromptError)
    ensures Trim(s.prompt) != [] && Utf16Length(Trim(s.prompt)) >= MinPromptLength ==>
      ValidationError(s.prompt) == None && Begin(s) == s.(isLoading := true, error := "", generatedImage := None)
  {
  }

  /** A prompt of white space only is rejected with the empty-prompt message and nothing
      else changes: no loading, no request. */
  lemma BlankPromptSetsError(s: PageState, token: string, fetch: FetchOutcome)
    requires forall k :: 0 <= k < |s.prompt| ==> IsWhiteSpace(s.prompt[k])
    ensures Handle(s, token, fetch) == s.(error := EmptyPromptError)
  {
    TrimEmptyIff(s.prompt);
  }

  /** A prompt with a non-white-space character but fewer than 3 code units once trimmed
      gets the length message: the blank check comes first, and nothing else changes. */
  lemma ShortPromptSetsError(s: PageState, token: string, fetch: FetchOutcome)
    requires exists k :: 0 <= k < |s.prompt| && !IsWhiteSpace(s.prompt[k])
    requires Utf16Length(Trim(s.prompt)) < MinPromptLength
    ensures Handle(s, token, fetch) == s.(error := ShortPromptError)
  {
    TrimEmptyIff(s.prompt);
  }

  /** Which prompts pass: the length is counted in UTF-16 code units, so a trimmed
      prompt of 3 code points always passes and one of 2 passes exactly when one of them
      lies above U+FFFF; a single code point never does. */
  lemma ValidPromptLength(prompt: string)
    ensures |Trim(prompt)| >= 3 ==> ValidationError(prompt).None?
    ensures ValidationError(prompt).None? ==> |Trim(prompt)| >= 2
    ensures |Trim(prompt)| == 2 ==>
      (ValidationError(prompt).None? <==> (Trim(prompt)[0] as int) >= 0x10000 || (Trim(prompt)[1] as int) >= 0x10000)
  {
    var t := Trim(prompt);
    if |t| == 2 {
      assert t[1..][1..] == [];
      assert Utf16Length(t) == (if (t[0] as int) < 0x10000 then 1 else 2) + (if (t[1] as int) < 0x10000 then 1 else 2);
    }
  }

  /** A valid prompt starts loading, clears the error and the previous image, and is
      handed to the client as typed, surrounding white space included. */
  lemma ValidPromptStartsLoading(s: PageState)
    requires ValidationError(s.prompt).None?
    ensures Begin(s) == PageState(s.prompt, true, None, "", s.navigation)
  {
  }

  /** On success the image and the scheduled navigation carry the same handle and the
      untrimmed prompt, and the loader stays on. */
  lemma SuccessNavigates(s: PageState, token: string, fetch: FetchOutcome)
    requires ValidationError(s.prompt).None?
    ensures var g := GenerationOutcome(s.prompt, token, fetch);
      var t := Handle(s, token, fetch);
      g.Image? ==>
        && t.generatedImage == Some(GeneratedImage(g.url, s.prompt))
        && t.navigation == Some(Navigation(ResultPath, g.url, s.prompt))
        && t.isLoading && t.error == "" && t.prompt == s.prompt
  {
  }

  /** On failure the client's message is shown and loading stops. The client rejects
      only with a non-empty message, so the page's default text is never what shows. */
  lemma FailureShowsMessage(s: PageState, token: string, fetch: FetchOutcome)
    requires ValidationError(s.prompt).None?
    requires GenerationOutcome(s.prompt, token, fetch).Failure?
    ensures var t := Handle(s, token, fetch);
      && t.error == GenerationOutcome(s.prompt, token, fetch).message
      && t.error != ""
      && !t.isLoading && t.generatedImage == None && t.navigation == s.navigation
  {
    FailuresCarryMessages(s.prompt, token, fetch);
  }

  /** A prompt that passes the page's validation always passes the client's blank check,
      so the client's own outcome is decided by the token and the network alone. */
  lemma ValidPromptPassesClient(prompt: string, token: string, fetch: FetchOutcome)
    requires ValidationError(prompt).None?
    ensures Requests(prompt, token) <==> IsTokenConfigured(token)
    ensures !IsTokenConfigured(token) ==> GenerationOutcome(prompt, token, fetch) == Failure(TokenSetupMessage)
  {
  }

  /** The button is enabled exactly when the prompt has a non-white-space character
      and nothing is loading; an enabled button can still meet the length check. */
  lemma GenerateDisabledIff(s: PageState)
    ensures GenerateDisabled(s) <==> s.isLoading || forall k :: 0 <= k < |s.prompt| ==> IsWhiteSpace(s.prompt[k])
    ensures !GenerateDisabled(s) ==> ValidationError(s.prompt) != Some(EmptyPromptError)
  {
    TrimEmptyIff(s.prompt);
  }
}
