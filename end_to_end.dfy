/** The generation client talking to the proxy: the proxy's reply, as `fetch` hands it
    to `generateImage`, and what the client makes of each upstream outcome. */
module EndToEnd {
  import opened Base
  import opened JsStrings
  import opened UriEncoding
  import opened GenerationClient
  import Proxy

  /** The proxy's reply as the client's `fetch` sees it. `serialized` is the JSON text
      of an error body, `bodyText` the body read as text. */
  function AsSeenByClient(reply: Proxy.Reply, serialized: string, bodyText: string): Response {
    Response(
      reply.status,
      Some(reply.contentType),
      match reply.body
        case ErrorBody(e, _) => Done(JsonValue(Some(e), serialized))
        case Bytes(_) => Failed("Unexpected token in JSON"),
      Done(bodyText),
      match reply.body
        case Bytes(b) => Done(b)
        case ErrorBody(_, _) => Done([]))
  }

  /** How `generateImage(prompt)` settles when the proxy met the upstream outcome `up`. */
  function ClientOutcome(prompt: string, token: string, up: Proxy.Upstream, serialized: string, bodyText: string): Generation {
    GenerationOutcome(prompt, token, FetchResolved(AsSeenByClient(Proxy.Respond(up), serialized, bodyText)))
  }

  /** The proxy's JSON replies are read as JSON by the client. */
  lemma JsonTypeRecognised()
    ensures Includes(Proxy.JsonType, JsonContentType)
  {
    assert Proxy.JsonType[..|JsonContentType|] == JsonContentType;
  }

  /** The image bytes the upstream service sent are the bytes the client's handle points at. */
  lemma SuccessBytesReachClient(prompt: string, token: string, status: nat, bytes: seq<byte>, serialized: string, bodyText: string)
    requires Requests(prompt, token)
    requires IsOkStatus(status)
    ensures ClientOutcome(prompt, token, Proxy.UpstreamReplied(status, Done(bytes)), serialized, bodyText) == Image(ObjectUrl(bytes))
  {
    var r := AsSeenByClient(Proxy.Respond(Proxy.UpstreamReplied(status, Done(bytes))), serialized, bodyText);
    ImageReplySeen(status, bytes, serialized, bodyText);
    OkReplyResolves(prompt, token, r);
  }

  /** The client sees an ok status and the bytes when the upstream reply was ok and readable. */
  lemma ImageReplySeen(status: nat, bytes: seq<byte>, serialized: string, bodyText: string)
    requires IsOkStatus(status)
    ensures var r := AsSeenByClient(Proxy.Respond(Proxy.UpstreamReplied(status, Done(bytes))), serialized, bodyText);
      IsOkStatus(r.status) && r.blob == Done(bytes)
  {
    assert Proxy.Respond(Proxy.UpstreamReplied(status, Done(bytes))) == Proxy.Reply(200, Proxy.ImageType, Proxy.Bytes(bytes));
  }

  /** The error body of a proxy reply is read back by the client as the detail: its
      `error` member, or the whole serialized body when that member is empty. */
  lemma ProxyErrorDetail(status: nat, e: string, st: Option<nat>, serialized: string, bodyText: string)
    ensures ErrorDetail(AsSeenByClient(Proxy.Reply(status, Proxy.JsonType, Proxy.ErrorBody(e, st)), serialized, bodyText))
      == if e != "" then e else serialized
  {
    JsonTypeRecognised();
  }

  /** A non-ok upstream status reaches the client unchanged, so the client's message for
      that status is shown, with the proxy's error text as the detail. */
  lemma UpstreamStatusReachesClient(prompt: string, token: string, status: nat, body: Read<seq<byte>>, serialized: string, bodyText: string)
    requires Requests(prompt, token)
    requires !IsOkStatus(status)
    ensures ClientOutcome(prompt, token, Proxy.UpstreamReplied(status, body), serialized, bodyText) == Failure(StatusMessage(status, Proxy.UpstreamFailure))
  {
    var reply := Proxy.Reply(status, Proxy.JsonType, Proxy.ErrorBody(Proxy.UpstreamFailure, Some(status)));
    assert Proxy.Respond(Proxy.UpstreamReplied(status, body)) == reply;
    var r := AsSeenByClient(reply, serialized, bodyText);
    ProxyErrorDetail(status, Proxy.UpstreamFailure, Some(status), serialized, bodyText);
    NonOkReplyFails(prompt, token, r);
  }

  /** A failure inside the proxy reaches the client as status 500 with the proxy's error
      message, or the serialized body when that message is empty. */
  lemma ProxyFailureReachesClient(prompt: string, token: string, m: string, serialized: string, bodyText: string)
    requires Requests(prompt, token)
    ensures ClientOutcome(prompt, token, Proxy.UpstreamThrew(m), serialized, bodyText)
      == Failure(StatusMessage(500, if m != "" then m else serialized))
  {
    var reply := Proxy.Reply(500, Proxy.JsonType, Proxy.ErrorBody(m, None));
    assert Proxy.Respond(Proxy.UpstreamThrew(m)) == reply;
    var r := AsSeenByClient(reply, serialized, bodyText);
    ProxyErrorDetail(500, m, None, serialized, bodyText);
    NonOkReplyFails(prompt, token, r);
  }

  /** The message the client shows for status 500 names the status and the detail. */
  lemma ServerErrorMessage(detail: string)
    ensures StatusMessage(500, detail) == GenericStatusPrefix + "500" + "): " + detail
  {
    GenericStatusMessage(500, detail);
    assert DecimalString(500) == "500" by {
      assert DecimalString(50) == "50";
    }
  }

  /** The client posts the prompt as typed, so the upstream service reads back exactly
      that prompt from the URL path segment. */
  lemma PromptArrivesUpstream(prompt: string)
    ensures var url := Proxy.UpstreamUrl(Proxy.PromptText(Proxy.Present(prompt)));
      var n := |Proxy.UpstreamPrefix|;
      var seg := EncodeUriComponent(prompt);
      && n + |seg| <= |url| && url[n..n + |seg|] == seg
      && DecodeUriComponent(seg) == Some(prompt)
  {
    Proxy.UpstreamUrlSegment(prompt);
    UriRoundTrip(prompt);
  }
}
