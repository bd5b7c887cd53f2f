/** The proxy of `server.js`: the `POST /api/generate-image` handler builds the upstream
    URL from the prompt, forwards a non-ok upstream status with a JSON error body,
    passes the image bytes of an ok reply through untouched, and answers 500 when
    anything throws. */
module Proxy {
  import opened Base
  import opened JsStrings
  import opened UriEncoding

  const UpstreamPrefix := "https://image.pollinations.ai/prompt/"
  const UpstreamQuery := "?width=1024&height=1024&nologo=true"
  const UpstreamFailure := "Failed to generate image"
  const ContentTypeHeader := "Content-Type"
  const JsonType := "application/json; charset=utf-8"
  const ImageType := "image/jpeg"
  const OctetStreamType := "application/octet-stream"

  /** The `prompt` member of the JSON request body. When present, `text` is the string
      `encodeURIComponent` converts it to: the string itself, or `String(value)` for a
      number, boolean or `null`. */
  datatype PromptField = Missing | Present(text: string)

  /** What `encodeURIComponent(prompt)` sees: a missing member is `undefined`. */
  function PromptText(p: PromptField): string {
    if p.Missing? then "undefined" else p.text
  }

  /** The upstream request URL for a prompt. */
  function UpstreamUrl(prompt: string): string {
    UpstreamPrefix + EncodeUriComponent(prompt) + UpstreamQuery
  }

  /** The settled upstream `fetch(imageUrl)`: it throws (DNS, refused connection, ...),
      or replies with a status and the settled `response.arrayBuffer()`. */
  datatype Upstream = UpstreamThrew(message: string) | UpstreamReplied(status: nat, body: Read<seq<byte>>)

  /** A reply body: raw bytes, or the JSON object `{error, status?}`. */
  datatype Body = Bytes(bytes: seq<byte>) | ErrorBody(error: string, status: Option<nat>)

  /** A complete reply: status, `Content-Type` and body. */
  datatype Reply = Reply(status: nat, contentType: string, body: Body)

  /** The reply the handler sends for an upstream outcome. */
  function Respond(upstream: Upstream): Reply {
    match upstream
    case UpstreamThrew(m) => Reply(500, JsonType, ErrorBody(m, None))
    case UpstreamReplied(status, body) =>
      if !IsOkStatus(status) then Reply(status, JsonType, ErrorBody(UpstreamFailure, Some(status)))
      else
        match body
        case Done(bytes) => Reply(200, ImageType, Bytes(bytes))
        case Failed(m) => Reply(500, JsonType, ErrorBody(m, None))
  }

  /** The Express response object, as far as the handler uses it. */
  class ResponseWriter {
    var status: nat
    var headers: map<string, string>
    var body: Option<Body>

    /** A fresh response: status 200, the headers earlier middleware set, nothing sent. */
    constructor (headers: map<string, string>)
      ensures status == 200 && this.headers == headers && body == None
    {
      status := 200;
      this.headers := headers;
      body := None;
    }

    /** The reply once a body has been sent. */
    function Sent(): Option<Reply>
      reads this
    {
      if body.Some? then
        Some(Reply(status, if ContentTypeHeader in headers then headers[ContentTypeHeader] else "", body.value))
      else None
    }

    /** `res.status(code)`. */
    method Status(code: nat)
      modifies this
      ensures status == code && headers == old(headers) && body == old(body)
    {
      status := code;
    }

    /** `res.set(name, value)`. */
    method Set(name: string, value: string)
      modifies this
      ensures headers == old(headers)[name := value]
      ensures status == old(status) && body == old(body)
    {
      headers := headers[name := value];
    }

    /** `res.send(buffer)`: the bytes as the body, typed `application/octet-stream`
        unless a content type is already set. */
    method Send(bytes: seq<byte>)
      modifies this
      ensures body == Some(Bytes(bytes)) && status == old(status)
      ensures ContentTypeHeader in old(headers) ==> headers == old(headers)
      ensures ContentTypeHeader !in old(headers) ==> headers == old(headers)[ContentTypeHeader := OctetStreamType]
    {
      if ContentTypeHeader !in headers {
        headers := headers[ContentTypeHeader := OctetStreamType];
      }
      body := Some(Bytes(bytes));
    }

    /** `res.json({error, status})`: the object as the body, typed JSON unless a content
        type is already set. */
    method Json(error: string, errorStatus: Option<nat>)
      modifies this
      ensures body == Some(ErrorBody(error, errorStatus)) && status == old(status)
      ensures ContentTypeHeader in old(headers) ==> headers == old(headers)
      ensures ContentTypeHeader !in old(headers) ==> headers == old(headers)[ContentTypeHeader := JsonType]
    {
      if ContentTypeHeader !in headers {
        headers := headers[ContentTypeHeader := JsonType];
      }
      body := Some(ErrorBody(error, errorStatus));
    }
  }

  /** The `/api/generate-image` handler. `requestedUrl` is the URL it fetches; the
      prompt is not validated, so every request body gets as far as the URL builder. */
  method HandleGenerateImage(prompt: PromptField, upstream: Upstream, res: ResponseWriter) returns (requestedUrl: string)
    requires res.status == 200 && res.body == None && ContentTypeHeader !in res.headers
    modifies res
    ensures requestedUrl == UpstreamUrl(PromptText(prompt))
    ensures res.Sent() == Some(Respond(upstream))
    ensures forall h :: h in old(res.headers) ==> h in res.headers && res.headers[h] == old(res.headers)[h]
  {
    var encodedPrompt := EncodeUriComponent(PromptText(prompt));
    requestedUrl := UpstreamPrefix + encodedPrompt + UpstreamQuery;
    match upstream {
      case UpstreamThrew(m) =>
        res.Status(500);
        res.Json(m, None);
      case UpstreamReplied(status, body) =>
        if !IsOkStatus(status) {
          res.Status(status);
          res.Json(UpstreamFailure, Some(status));
          return;
        }
        match body {
          case Done(bytes) =>
            res.Set(ContentTypeHeader, ImageType);
            res.Send(bytes);
          case Failed(m) =>
            res.Status(500);
            res.Json(m, None);
        }
    }
  }

  /** The characters that would end the path segment or start a query parameter. */
  predicate IsUrlDelimiter(c: char) {
    c == '/' || c == '?' || c == '#' || c == '&'
  }

  /** The encoded segment has no `/`, `?`, `#` or `&`, so the prompt can neither leave
      the path segment nor add query parameters. */
  lemma SegmentHasNoDelimiters(prompt: string)
    ensures forall i :: 0 <= i < |EncodeUriComponent(prompt)| ==> !IsUrlDelimiter(EncodeUriComponent(prompt)[i])
  {
    var seg := EncodeUriComponent(prompt);
    forall i | 0 <= i < |seg| ensures !IsUrlDelimiter(seg[i]) {
      assert IsUnreserved(seg[i]) || seg[i] == '%';
    }
  }

  /** The upstream URL is the fixed prefix, the encoded prompt and the fixed query; the
      encoded segment holds no delimiter and decodes back to the prompt. */
  lemma UpstreamUrlShape(prompt: string)
    ensures var seg := EncodeUriComponent(prompt);
      && UpstreamUrl(prompt) == UpstreamPrefix + seg + UpstreamQuery
      && (forall i :: 0 <= i < |seg| ==> !IsUrlDelimiter(seg[i]))
      && DecodeUriComponent(seg) == Some(prompt)
  {
    SegmentHasNoDelimiters(prompt);
    UriRoundTrip(prompt);
  }

  /** The encoded prompt sits in the URL right after the fixed prefix. */
  lemma UpstreamUrlSegment(prompt: string)
    ensures var n := |UpstreamPrefix|;
      var seg := EncodeUriComponent(prompt);
      n + |seg| <= |UpstreamUrl(prompt)| && UpstreamUrl(prompt)[n..n + |seg|] == seg
  {
    var seg := EncodeUriComponent(prompt);
    SliceOfJoin(UpstreamPrefix, seg, UpstreamQuery);
    assert UpstreamUrl(prompt) == UpstreamPrefix + (seg + UpstreamQuery);
  }

  /** Equal strings with the same prefix and suffix have the same middle. */
  lemma CancelAffixes(p: string, a: string, b: string, q: string)
    requires p + a + q == p + b + q
    ensures a == b
  {
    var w := p + a + q;
    assert |a| == |b|;
    forall i | 0 <= i < |a|
      ensures a[i] == b[i]
    {
      assert a[i] == w[|p| + i];
      assert b[i] == (p + b + q)[|p| + i];
    }
  }

  /** Different prompts are sent upstream as different URLs. */
  lemma UpstreamUrlInjective(p: string, q: string)
    ensures UpstreamUrl(p) == UpstreamUrl(q) ==> p == q
  {
    if UpstreamUrl(p) == UpstreamUrl(q) {
      CancelAffixes(UpstreamPrefix, EncodeUriComponent(p), EncodeUriComponent(q), UpstreamQuery);
      EncodeInjective(p, q);
    }
  }

  /** A non-ok upstream status is forwarded unchanged, and the JSON body reports the same status. */
  lemma NonOkStatusForwarded(status: nat, body: Read<seq<byte>>)
    requires !IsOkStatus(status)
    ensures var r := Respond(UpstreamReplied(status, body));
      && r.status == status
      && r.body.ErrorBody? && r.body.status == Some(r.status)
      && r.body.error == UpstreamFailure
  {
  }

  /** An ok upstream reply whose bytes can be read is answered with status 200, type
      `image/jpeg` and exactly those bytes; the reply carries bytes only in that case. */
  lemma OkBytesPassThrough(upstream: Upstream)
    ensures Respond(upstream).body.Bytes? <==>
      upstream.UpstreamReplied? && IsOkStatus(upstream.status) && upstream.body.Done?
    ensures Respond(upstream).body.Bytes? ==>
      && Respond(upstream) == Reply(200, ImageType, Bytes(upstream.body.value))
  {
  }

  /** Whatever throws (the upstream fetch or reading its body) is answered with 500 and
      the error's message. */
  lemma ThrownIsServerError(upstream: Upstream)
    requires upstream.UpstreamThrew? || (upstream.UpstreamReplied? && IsOkStatus(upstream.status) && upstream.body.Failed?)
    ensures var m := if upstream.UpstreamThrew? then upstream.message else upstream.body.message;
      Respond(upstream) == Reply(500, JsonType, ErrorBody(m, None))
  {
  }
}
