/** The request executor of models/internal/internal.go (`client.DoRequest`)
    with the JSON marshaller, `http.NewRequest`, the transport, the body
    reader and the two decoders taken as oracles. */
module Internal {
  import opened Common

  /** `http.Header`: canonical header name to its list of values. */
  type Header = map<string, seq<string>>

  /** `Header.Set`: the name now holds exactly this one value. */
  function SetHeader(h: Header, name: string, value: string): (r: Header)
    ensures name in r && r[name] == [value]
    ensures forall k | k != name :: (k in r <==> k in h) && (k in h ==> r[k] == h[k])
  {
    h[name := [value]]
  }

  /** The request body as the caller passes it: nil, a `[]byte`, or any
      other value, which is marshalled to JSON. */
  datatype Body<V> = NoBody | Raw(bytes: Bytes) | Structured(value: V)

  /** The decoder chosen for the response body. */
  datatype Format = Json | Xml

  /** The outgoing request as it is handed to the transport. */
  datatype Request = Request(verb: string, url: string, header: Header, body: Bytes)

  /** The transport's response, as far as the executor looks at it. */
  datatype Response = Response(status: int, header: Header)

  /** A decoder's effect: the decode target afterwards (fields missing from
      the payload keep their earlier values) and the decoder's error. */
  datatype Decoded<T> = Decoded(target: T, err: Option<Error>)

  /** The collaborators `DoRequest` calls and does not define. */
  datatype Transport<-V, !T> = Transport(
    marshal: V -> Result<Bytes>,                  // json.Marshal
    newRequest: (string, string) -> Option<Error>,  // http.NewRequest's verdict on method and URL
    send: Request -> Result<Response>,            // http.Client.Do
    read: Response -> Result<Bytes>,              // io.ReadAll of the response body
    decodeJson: (Bytes, T) -> Decoded<T>,         // json.Unmarshal
    decodeXml: (Bytes, T) -> Decoded<T>)          // xml.Unmarshal

  /** Everything one call of `DoRequest` does: the request it handed to the
      transport (if it got that far), whether it read the response body,
      which decoder it ran, the decode target afterwards, and the
      `(*http.Response, error)` pair it returned. */
  datatype Exchange<T> = Exchange(
    sent: Option<Request>,
    bodyRead: bool,
    format: Option<Format>,
    target: Option<T>,
    response: Option<Response>,
    err: Option<Error>)

  /** The bytes a body turns into, or the marshaller's error. */
  function EncodeBody<V>(marshal: V -> Result<Bytes>, body: Body<V>): (r: Result<Bytes>)
    ensures body.NoBody? ==> r == Ok([])
    ensures body.Raw? ==> r == Ok(body.bytes)
    ensures body.Structured? ==> r == marshal(body.value)
  {
    match body
    case NoBody => Ok([])
    case Raw(bytes) => Ok(bytes)
    case Structured(v) => marshal(v)
  }

  /** Neither a nil nor a `[]byte` body reaches the marshaller: any two
      marshallers give the same outcome for it, which never fails; a byte
      body is sent as it is. */
  lemma RawBodyNotMarshalled<V>(m1: V -> Result<Bytes>, m2: V -> Result<Bytes>, bytes: Bytes)
    ensures EncodeBody(m1, Raw(bytes)) == EncodeBody(m2, Raw(bytes)) == Ok(bytes)
    ensures EncodeBody(m1, NoBody) == EncodeBody(m2, NoBody) == Ok([])
  {
  }

  /** The header has a `Content-Type` entry with at least one value. */
  predicate HasContentType(h: Header)
  {
    "Content-Type" in h && |h["Content-Type"]| >= 1
  }

  /** The header of the outgoing request: the hook runs on the new request's
      empty header first, then `Content-Type` is set to `application/json`
      only if the hook left it without a value. */
  function OutgoingHeader(hook: Option<Header -> Header>): (r: Header)
    ensures hook.None? ==> r == map["Content-Type" := ["application/json"]]
    ensures hook.Some? && HasContentType(hook.value(map[])) ==> r == hook.value(map[])
    ensures hook.Some? && !HasContentType(hook.value(map[])) ==>
              r == SetHeader(hook.value(map[]), "Content-Type", "application/json")
  {
    var h: Header := if hook.Some? then hook.value(map[]) else map[];
    if HasContentType(h) then h else SetHeader(h, "Content-Type", "application/json")
  }

  /** Whatever the hook does, the outgoing request carries a Content-Type;
      every other header is exactly what the hook set. */
  lemma OutgoingHeaderDefaultsContentType(hook: Option<Header -> Header>)
    ensures HasContentType(OutgoingHeader(hook))
    ensures hook.Some? ==> forall k | k != "Content-Type" ::
              (k in OutgoingHeader(hook) <==> k in hook.value(map[])) &&
              (k in hook.value(map[]) ==> OutgoingHeader(hook)[k] == hook.value(map[])[k])
    ensures hook.None? ==> OutgoingHeader(hook)["Content-Type"] == ["application/json"]
  {
  }

  /** The JSON decoder is used exactly for the hints "text/json", "" and
      "application/json", compared as they are (case matters); every other
      hint selects XML. */
  function FormatFor(hint: string): (f: Format)
    ensures f == Json <==> hint in {"text/json", "", "application/json"}
  {
    if hint == "text/json" || hint == "" || hint == "application/json" then Json else Xml
  }

  /** Hints that differ from the JSON ones only by letter case select XML. */
  lemma FormatForIsCaseSensitive()
    ensures FormatFor("Application/JSON") == Xml
    ensures FormatFor("application/JSON") == Xml
    ensures FormatFor("TEXT/JSON") == Xml
  {
  }

  /** Runs the decoder of the given format. */
  function Decode<V, T>(t: Transport<V, T>, f: Format, bytes: Bytes, target: T): Decoded<T>
  {
    match f
    case Json => t.decodeJson(bytes, target)
    case Xml => t.decodeXml(bytes, target)
  }

  /** `client.DoRequest(ctx, method, url, hint, hook, body, target)`. */
  function DoRequest<V, T>(
    t: Transport<V, T>,
    verb: string,
    url: string,
    hint: string,
    hook: Option<Header -> Header>,
    body: Body<V>,
    target: Option<T>): (x: Exchange<T>)
    // A request is handed to the transport exactly when the body encoded
    // and the request could be built; it then carries the encoded body
    // and the defaulted header.
    ensures x.sent.Some? <==> EncodeBody(t.marshal, body).Ok? && t.newRequest(verb, url).None?
    ensures x.sent.Some? ==>
              && x.sent.value.verb == verb
              && x.sent.value.url == url
              && x.sent.value.body == EncodeBody(t.marshal, body).value
              && x.sent.value.header == OutgoingHeader(hook)
    // A marshalling failure is returned before any request exists.
    ensures EncodeBody(t.marshal, body).Err? ==>
              x.sent.None? && x.response.None? && x.err == Some(EncodeBody(t.marshal, body).error)
    // A request the HTTP library refuses to build is not sent either.
    ensures EncodeBody(t.marshal, body).Ok? && t.newRequest(verb, url).Some? ==>
              x.sent.None? && x.response.None? && x.err == t.newRequest(verb, url)
    // Whenever nothing was sent, nothing was read or decoded and an error came back.
    ensures x.sent.None? ==> x.response.None? && x.err.Some? && !x.bodyRead && x.format.None?
    // A send failure comes back with a nil response and nothing read.
    ensures x.sent.Some? && t.send(x.sent.value).Err? ==>
              x.response.None? && x.err == Some(t.send(x.sent.value).error) && !x.bodyRead && x.format.None?
    // Without a decode target the response comes back with a nil error, unread.
    ensures x.sent.Some? && t.send(x.sent.value).Ok? && target.None? ==>
              x.response == Some(t.send(x.sent.value).value) && x.err.None? && !x.bodyRead && x.format.None?
    // With a target the body is read; a read failure comes back with a nil response.
    ensures x.bodyRead <==> x.sent.Some? && t.send(x.sent.value).Ok? && target.Some?
    ensures x.bodyRead && t.read(t.send(x.sent.value).value).Err? ==>
              x.response.None? && x.err == Some(t.read(t.send(x.sent.value).value).error) && x.format.None?
    // A decoder runs exactly when the body was read; the hint picks it, and the
    // response is returned alongside the decoder's own error.
    ensures x.format.Some? <==> x.bodyRead && t.read(t.send(x.sent.value).value).Ok?
    ensures x.format.Some? ==>
              && x.format.value == FormatFor(hint)
              && x.response == Some(t.send(x.sent.value).value)
              && var d := Decode(t, x.format.value, t.read(t.send(x.sent.value).value).value, target.value);
                 x.err == d.err && x.target == Some(d.target)
    // The target is only touched by a decoder.
    ensures x.format.None? ==> x.target == target
    // A response is returned only after a successful send.
    ensures x.response.Some? ==> x.sent.Some? && x.response == Some(t.send(x.sent.value).value)
  {
    match EncodeBody(t.marshal, body)
    case Err(e) => Exchange(None, false, None, target, None, Some(e))
    case Ok(payload) =>
      match t.newRequest(verb, url)
      case Some(e) => Exchange(None, false, None, target, None, Some(e))
      case None =>
        var req := Request(verb, url, OutgoingHeader(hook), payload);
        match t.send(req)
        case Err(e) => Exchange(Some(req), false, None, target, None, Some(e))
        case Ok(resp) =>
          if target.None? then Exchange(Some(req), false, None, None, Some(resp), None)
          else
            match t.read(resp)
            case Err(e) => Exchange(Some(req), true, None, target, None, Some(e))
            case Ok(bytes) =>
              var f := FormatFor(hint);
              var d := Decode(t, f, bytes, target.value);
              Exchange(Some(req), true, Some(f), Some(d.target), Some(resp), d.err)
  }

  /** The call succeeds (nil error) exactly when the request went out and
      either there was no target, or the body was read and decoded without
      error; a nil response comes only with an error. */
  lemma DoRequestSuccess<V, T>(
    t: Transport<V, T>, verb: string, url: string, hint: string,
    hook: Option<Header -> Header>, body: Body<V>, target: Option<T>)
    ensures var x := DoRequest(t, verb, url, hint, hook, body, target);
      && (x.response.None? ==> x.err.Some?)
      && (x.err.None? <==>
            && x.sent.Some?
            && t.send(x.sent.value).Ok?
            && (|| target.None?
                || (&& t.read(t.send(x.sent.value).value).Ok?
                    && Decode(t, FormatFor(hint), t.read(t.send(x.sent.value).value).value, target.value).err.None?)))
      && (x.err.None? && target.Some? ==> x.target.Some? && x.format.Some?)
  {
  }
}
