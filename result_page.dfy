/** The Result page of `src/pages/Result.jsx`: the image handed over by the Generate
    page, saving it to the creations store, and regenerating it from the same prompt. */
module ResultPage {
  import opened Base
  import opened JsStrings
  import opened GenerationClient
  import Creations

  const HomePath := "/"
  const SuccessMark := '\U{2705}'
  const FailureMark := '\U{274C}'
  const SaveSuccessMessage := [SuccessMark] + " Saved to My Creations!"
  const SaveFailureMessage := [FailureMark] + " Failed to save. Please try again."
  const RegenerateAlert := "Failed to regenerate image. Please try again."

  /** `imageData`: the handle shown and the prompt it was made from. */
  datatype ImageData = ImageData(imageUrl: ObjectUrl, prompt: string)

  /** The page's state fields as one value; `alerts` are the alert boxes shown so far. */
  datatype PageState = PageState(
    imageData: Option<ImageData>,
    isRegenerating: bool,
    saveMessage: Option<string>,
    alerts: seq<string>)

  /** The state of a freshly mounted page, for the navigation state it was given. */
  function Initial(incoming: Option<ImageData>): PageState {
    PageState(incoming, false, None, [])
  }

  /** Where the mount effect navigates: home when there is no image data. */
  function RedirectTarget(s: PageState): Option<string> {
    if s.imageData.None? then Some(HomePath) else None
  }

  /** The component returns `null` instead of markup. */
  predicate RendersNothing(s: PageState) {
    s.imageData.None?
  }

  /** The record `handleSave` hands to `saveCreation`: the converted image and the prompt. */
  function SavedFields(imageUrl: string, prompt: string): Creations.Record {
    map["imageUrl" := imageUrl, "prompt" := prompt]
  }

  /** Whether the save stores a record: there is image data, the conversion to a data URL
      resolves, and the storage write succeeds. */
  predicate SaveStores(s: PageState, converted: Read<string>, writeSucceeds: bool) {
    s.imageData.Some? && converted.Done? && writeSucceeds
  }

  /** The state after `handleSave`. */
  function AfterSave(s: PageState, converted: Read<string>, writeSucceeds: bool): PageState {
    s.(saveMessage := Some(if SaveStores(s, converted, writeSucceeds) then SaveSuccessMessage else SaveFailureMessage))
  }

  /** `handleRegenerate` up to the `await`. Without image data reading its prompt throws
      at once, so the alert is shown and the flag is reset in the same step. */
  function BeginRegen(s: PageState): PageState {
    if s.imageData.None? then s.(alerts := s.alerts + [RegenerateAlert], isRegenerating := false)
    else s.(isRegenerating := true)
  }

  /** `handleRegenerate` after the `await`, for the prompt sent and how the client settled. */
  function CompleteRegen(s: PageState, sent: string, outcome: Generation): PageState {
    match outcome
    case Image(url) => s.(imageData := Some(ImageData(url, sent)), isRegenerating := false)
    case Failure(_) => s.(alerts := s.alerts + [RegenerateAlert], isRegenerating := false)
  }

  /** The whole of `handleRegenerate` with the client's token and network outcome. */
  function HandleRegen(s: PageState, token: string, fetch: FetchOutcome): PageState {
    if s.imageData.None? then BeginRegen(s)
    else CompleteRegen(BeginRegen(s), s.imageData.value.prompt, GenerationOutcome(s.imageData.value.prompt, token, fetch))
  }

  /** `saveMessage.includes('✅')`: the message is styled green rather than red. */
  predicate IsSuccessStyled(message: string) {
    Includes(message, [SuccessMark])
  }

  /** The page component and its handlers. */
  class Result {
    var imageData: Option<ImageData>
    var isRegenerating: bool
    var saveMessage: Option<string>
    var alerts: seq<string>

    function State(): PageState
      reads this
    {
      PageState(imageData, isRegenerating, saveMessage, alerts)
    }

    /** Mounting with the navigation state `incoming` (`location.state`). */
    constructor (incoming: Option<ImageData>)
      ensures State() == Initial(incoming)
    {
      imageData := incoming;
      isRegenerating := false;
      saveMessage := None;
      alerts := [];
    }

    /** `handleSave()`: `converted` is how `blobUrlToBase64` settled, `now` and `iso` the
        clock readings `saveCreation` takes, `writeSucceeds` whether its write returned. */
    method HandleSave(store: Creations.CreationsStore, converted: Read<string>, now: nat, iso: string, writeSucceeds: bool)
      modifies this, store
      ensures State() == AfterSave(old(State()), converted, writeSucceeds)
      ensures SaveStores(old(State()), converted, writeSucceeds) ==>
        store.slot == Creations.Holds([Creations.NewRecord(now, iso, SavedFields(converted.value, old(imageData).value.prompt))] + old(store.Creations()))
      ensures !SaveStores(old(State()), converted, writeSucceeds) ==> store.slot == old(store.slot)
    {
      if imageData.None? {
        saveMessage := Some(SaveFailureMessage);
        return;
      }
      match converted {
        case Failed(_) =>
          saveMessage := Some(SaveFailureMessage);
        case Done(base64Image) =>
          var success := store.SaveCreation(SavedFields(base64Image, imageData.value.prompt), now, iso, writeSucceeds);
          if success {
            saveMessage := Some(SaveSuccessMessage);
          } else {
            saveMessage := Some(SaveFailureMessage);
          }
      }
    }

    /** The timer callback `setSaveMessage(null)`. */
    method ClearSaveMessage()
      modifies this
      ensures State() == old(State()).(saveMessage := None)
    {
      saveMessage := None;
    }

    /** `handleRegenerate` up to the `await`: `sent` is the prompt handed to the client. */
    method BeginRegenerate() returns (sent: Option<string>)
      modifies this
      ensures State() == BeginRegen(old(State()))
      ensures sent.Some? <==> old(imageData).Some?
      ensures sent.Some? ==> sent.value == old(imageData).value.prompt
    {
      isRegenerating := true;
      if imageData.None? {
        alerts := alerts + [RegenerateAlert];
        isRegenerating := false;
        return None;
      }
      sent := Some(imageData.value.prompt);
    }

    /** `handleRegenerate` after the `await`: the new handle with the same prompt, or the
        alert; the flag is reset either way. */
    method CompleteRegenerate(sent: string, outcome: Generation)
      modifies this
      ensures State() == CompleteRegen(old(State()), sent, outcome)
    {
      match outcome {
        case Image(newImageUrl) =>
          imageData := Some(ImageData(newImageUrl, sent));
        case Failure(_) =>
          alerts := alerts + [RegenerateAlert];
      }
      isRegenerating := false;
    }

    /** `handleRegenerate()` with the client's token and network outcome. */
    method HandleRegenerate(token: string, fetch: FetchOutcome)
      modifies this
      ensures State() == HandleRegen(old(State()), token, fetch)
    {
      var sent := BeginRegenerate();
      if sent.Some? {
        var outcome, _ := GenerateImage(sent.value, token, fetch);
        CompleteRegenerate(sent.value, outcome);
      }
    }
  }

  /** Without navigation state the page redirects home and renders nothing; with it, it
      stays and renders. */
  lemma MissingStateRedirects(incoming: Option<ImageData>)
    ensures RedirectTarget(Initial(incoming)) == Some("/") <==> incoming.None?
    ensures RendersNothing(Initial(incoming)) <==> RedirectTarget(Initial(incoming)).Some?
  {
  }

  /** The success message is shown exactly when the record was stored; every other path
      (no data, a failed conversion, a failed write) shows the failure message. */
  lemma SaveMessageIff(s: PageState, converted: Read<string>, writeSucceeds: bool)
    ensures var m := AfterSave(s, converted, writeSucceeds).saveMessage;
      && (m == Some(SaveSuccessMessage) <==> SaveStores(s, converted, writeSucceeds))
      && (m == Some(SaveFailureMessage) <==> !SaveStores(s, converted, writeSucceeds))
    ensures AfterSave(s, converted, writeSucceeds).(saveMessage := s.saveMessage) == s
  {
    assert |SaveSuccessMessage| != |SaveFailureMessage|;
  }

  /** The saved record carries the converted image and the prompt unchanged. */
  lemma SavedFieldsKept(imageUrl: string, prompt: string, now: nat, iso: string)
    ensures var r := Creations.NewRecord(now, iso, SavedFields(imageUrl, prompt));
      && r["imageUrl"] == imageUrl && r["prompt"] == prompt
      && r.Keys == {"id", "timestamp", "imageUrl", "prompt"}
      && Creations.IdOf(r) == Some(DecimalString(now))
  {
  }

  /** A successful regenerate replaces the handle and keeps the prompt. */
  lemma RegenerateKeepsPrompt(s: PageState, token: string, fetch: FetchOutcome)
    requires s.imageData.Some?
    ensures var g := GenerationOutcome(s.imageData.value.prompt, token, fetch);
      var t := HandleRegen(s, token, fetch);
      g.Image? ==>
        && t.imageData == Some(ImageData(g.url, s.imageData.value.prompt))
        && t.alerts == s.alerts
  {
  }

  /** A failed regenerate leaves the image data as it was and shows one alert. */
  lemma RegenerateFailureKeepsImage(s: PageState, token: string, fetch: FetchOutcome)
    requires s.imageData.Some?
    ensures var t := HandleRegen(s, token, fetch);
      GenerationOutcome(s.imageData.value.prompt, token, fetch).Failure? ==>
        && t.imageData == s.imageData
        && t.alerts == s.alerts + [RegenerateAlert]
  {
  }

  /** The flag is on while the request is out and off once the handler ends, whatever
      the outcome; the page never loses its image data, so the redirect cannot fire later. */
  lemma RegeneratingFlag(s: PageState, sent: string, outcome: Generation, token: string, fetch: FetchOutcome)
    ensures s.imageData.Some? ==> BeginRegen(s).isRegenerating
    ensures !CompleteRegen(BeginRegen(s), sent, outcome).isRegenerating
    ensures !HandleRegen(s, token, fetch).isRegenerating
    ensures s.imageData.Some? ==> HandleRegen(s, token, fetch).imageData.Some?
  {
  }

  /** The save message is green exactly for the success message. */
  lemma SaveMessageStyle()
    ensures IsSuccessStyled(SaveSuccessMessage)
    ensures !IsSuccessStyled(SaveFailureMessage)
  {
    IncludesChar(SaveSuccessMessage, SuccessMark);
    assert SaveSuccessMessage[0] == SuccessMark;
    IncludesChar(SaveFailureMessage, SuccessMark);
    assert SuccessMark !in [FailureMark];
    assert SuccessMark !in " Failed to save. ";
    assert SuccessMark !in "Please try again.";
  }

  /** A message is styled green exactly when it holds the check mark somewhere. */
  lemma SuccessStyleIff(message: string)
    ensures IsSuccessStyled(message) <==> exists i :: 0 <= i < |message| && message[i] == SuccessMark
  {
    IncludesChar(message, SuccessMark);
  }
}
