/**
 * The request-handling vocabulary both servers share: the request as the handler
 * sees it, the header check `checkFormat`, the mapping of a caught error to a
 * response, the `switch` over the upper-cased method name, and the accumulation
 * of a request body from its data chunks.
 */
module Http {
  import opened Wrappers
  import opened Text

  /** The two headers `checkFormat` reads; `None` is a header the request does not carry. */
  datatype Headers = Headers(contentType: Option<string>, accept: Option<string>)

  /** What the handler reads from a request: its method (`verb`), its URL, its headers and the body chunks it receives. */
  datatype Request = Request(verb: string, url: string, headers: Headers, chunks: seq<string>)

  /** A JSON value, as `JSON.parse` produces it and `JSON.stringify` consumes it. */
  datatype Json =
    | JNull
    | JBool(b: bool)
    | JNumber(n: int)
    | JString(s: string)
    | JArray(items: seq<Json>)
    | JObject(members: seq<(string, Json)>)

  /** A thrown `Error`: its message and the status code attached as `cause.code`, if any. */
  datatype Error = Error(message: string, cause: Option<int>)

  /** What the server does with the response object for one request. */
  datatype Outcome =
    | Respond(status: int, body: string)  // writeHead(status) then end(body)
    | HeadersOnly(status: int)            // writeHead(status) and no end(): the response is never completed
    | NoResponse                          // nothing is written
    | Uncaught(message: string)           // thrown in a body callback, outside the try: no response

  /** The result of `checkFormat`: it returns, or it throws. */
  datatype Validation = Pass | Fail(error: Error)

  /** What one handler does synchronously inside the try block: it finishes, or it throws. */
  datatype Step = Done(outcome: Outcome) | Threw(error: Error)

  const RequiredContentType: string := "application/json"
  const AcceptJson: string := "application/json"
  const AcceptAny: string := "*/*"

  const ContentTypeMessage: string := "Sorry, we only support content type as json format."
  const AcceptMessage: string := "Sorry, we only support accept as json format."

  /**
   * The message of the TypeError thrown when `.includes` is called on a missing header,
   * in the wording of V8 as Node 16.9 and later use it; older engines say
   * "Cannot read property 'includes' of undefined".
   */
  const UndefinedIncludesMessage: string := "Cannot read properties of undefined (reading 'includes')"

  /** The declarative acceptance condition: a JSON content type and an accept header naming JSON or anything. */
  ghost predicate Acceptable(h: Headers)
  {
    && h.contentType.Some? && Mentions(h.contentType.value, RequiredContentType)
    && h.accept.Some? && (Mentions(h.accept.value, AcceptJson) || Mentions(h.accept.value, AcceptAny))
  }

  /** `checkFormat(req)`: the content type is checked first, then the accept header. */
  function CheckFormat(h: Headers): (r: Validation)
    ensures r.Pass? <==> Acceptable(h)
    ensures r.Fail? ==> r.error.message in {ContentTypeMessage, AcceptMessage, UndefinedIncludesMessage}
    ensures r.Fail? ==> (r.error.cause.None? <==> r.error.message == UndefinedIncludesMessage)
    ensures r.Fail? && r.error.cause.Some? ==> r.error.cause.value == 400
  {
    match h.contentType
    case None => Fail(Error(UndefinedIncludesMessage, None))
    case Some(contentType) =>
      IncludesIffMentions(contentType, RequiredContentType);
      if !Includes(contentType, RequiredContentType) then
        Fail(Error(ContentTypeMessage, Some(400)))
      else
        match h.accept
        case None => Fail(Error(UndefinedIncludesMessage, None))
        case Some(accept) =>
          IncludesIffMentions(accept, AcceptJson);
          IncludesIffMentions(accept, AcceptAny);
          if !(Includes(accept, AcceptJson) || Includes(accept, AcceptAny)) then
            Fail(Error(AcceptMessage, Some(400)))
          else
            Pass
  }

  /** A content type that does not mention JSON is refused with the content-type message, whatever the accept header. */
  lemma ContentTypeCheckedFirst(h: Headers)
    requires h.contentType.Some? && !Mentions(h.contentType.value, RequiredContentType)
    ensures CheckFormat(h) == Fail(Error(ContentTypeMessage, Some(400)))
  {
    IncludesIffMentions(h.contentType.value, RequiredContentType);
  }

  /** With an acceptable content type, an accept header naming neither JSON nor anything is refused with the accept message. */
  lemma AcceptChecked(h: Headers)
    requires h.contentType.Some? && Mentions(h.contentType.value, RequiredContentType)
    requires h.accept.Some? && !Mentions(h.accept.value, AcceptJson) && !Mentions(h.accept.value, AcceptAny)
    ensures CheckFormat(h) == Fail(Error(AcceptMessage, Some(400)))
  {
    IncludesIffMentions(h.contentType.value, RequiredContentType);
    IncludesIffMentions(h.accept.value, AcceptJson);
    IncludesIffMentions(h.accept.value, AcceptAny);
  }

  /** The catch block: the status is the attached cause code, or 400 without one; the body is the message. */
  function Catch(e: Error): (o: Outcome)
    ensures o.Respond? && o.body == e.message
    ensures e.cause.None? ==> o.status == 400
    ensures e.cause.Some? ==> o.status == e.cause.value
  {
    Respond(if e.cause.Some? then e.cause.value else 400, e.message)
  }

  /** Every failed header check becomes a 400 response carrying the check's message. */
  lemma RejectionIs400(h: Headers)
    requires CheckFormat(h).Fail?
    ensures Catch(CheckFormat(h).error) == Respond(400, CheckFormat(h).error.message)
  {
  }

  /**
   * The `createServer` callback both servers share: `checkFormat` inside the try
   * block, then the switch on the upper-cased method, whose selected handler `run`
   * either finishes or throws; what is thrown is answered by the catch block.
   */
  function Guarded(h: Headers, verb: string, run: Method -> Step): (o: Outcome)
    ensures !Acceptable(h) ==> o == Respond(400, CheckFormat(h).error.message)
    ensures Acceptable(h) && Selected(verb).None? ==> o == NoResponse
    ensures Acceptable(h) && Selected(verb).Some? && run(Selected(verb).value).Threw? ==>
      o == Catch(run(Selected(verb).value).error)
    ensures Acceptable(h) && Selected(verb).Some? && run(Selected(verb).value).Done? ==>
      o == run(Selected(verb).value).outcome
  {
    match CheckFormat(h)
    case Fail(e) => Catch(e)
    case Pass =>
      match Selected(verb)
      case None => NoResponse
      case Some(m) =>
        match run(m)
        case Done(r) => r
        case Threw(e) => Catch(e)
  }

  /** No handler runs for a rejected request: its outcome depends on its headers alone, and is a 400. */
  lemma RejectedBeforeDispatch(h: Headers, verb1: string, run1: Method -> Step, verb2: string, run2: Method -> Step)
    requires !Acceptable(h)
    ensures Guarded(h, verb1, run1) == Guarded(h, verb2, run2)
    ensures Guarded(h, verb1, run1).Respond? && Guarded(h, verb1, run1).status == 400
    ensures Guarded(h, verb1, run1).body in {ContentTypeMessage, AcceptMessage, UndefinedIncludesMessage}
  {
  }

  /** A content type that does not mention JSON is answered 400 with the content-type message, whatever else the request holds. */
  lemma ContentTypeRejected(h: Headers, verb: string, run: Method -> Step)
    requires h.contentType.Some? && !Mentions(h.contentType.value, RequiredContentType)
    ensures Guarded(h, verb, run) == Respond(400, ContentTypeMessage)
  {
    ContentTypeCheckedFirst(h);
  }

  /** With a JSON content type, an accept header naming neither JSON nor any type is answered 400 with the accept message. */
  lemma AcceptRejected(h: Headers, verb: string, run: Method -> Step)
    requires h.contentType.Some? && Mentions(h.contentType.value, RequiredContentType)
    requires h.accept.Some? && !Mentions(h.accept.value, AcceptJson) && !Mentions(h.accept.value, AcceptAny)
    ensures Guarded(h, verb, run) == Respond(400, AcceptMessage)
  {
    AcceptChecked(h);
  }

  /** A missing content type, or a missing accept after a JSON content type, throws a TypeError with no cause: 400. */
  lemma MissingHeaderRejected(h: Headers, verb: string, run: Method -> Step)
    requires h.contentType.None? || (Mentions(h.contentType.value, RequiredContentType) && h.accept.None?)
    ensures Guarded(h, verb, run) == Respond(400, UndefinedIncludesMessage)
  {
    if h.contentType.Some? {
      IncludesIffMentions(h.contentType.value, RequiredContentType);
    }
  }

  /** The nine methods the `switch` has a case for. */
  datatype Method = GET | POST | PUT | HEAD | DELETE | PATCH | OPTIONS | CONNECT | TRACE

  /** The case label of each method. */
  function Name(m: Method): (s: string)
    ensures AllAsciiUpper(s)
  {
    match m
    case GET => "GET"
    case POST => "POST"
    case PUT => "PUT"
    case HEAD => "HEAD"
    case DELETE => "DELETE"
    case PATCH => "PATCH"
    case OPTIONS => "OPTIONS"
    case CONNECT => "CONNECT"
    case TRACE => "TRACE"
  }

  /** The `switch (methodType)`: the case whose label equals the name, or none (there is no default). */
  function Route(methodType: string): (r: Option<Method>)
    ensures r.Some? ==> Name(r.value) == methodType
    ensures r.None? ==> forall m: Method :: Name(m) != methodType
  {
    if methodType == "GET" then Some(GET)
    else if methodType == "POST" then Some(POST)
    else if methodType == "PUT" then Some(PUT)
    else if methodType == "HEAD" then Some(HEAD)
    else if methodType == "DELETE" then Some(DELETE)
    else if methodType == "PATCH" then Some(PATCH)
    else if methodType == "OPTIONS" then Some(OPTIONS)
    else if methodType == "CONNECT" then Some(CONNECT)
    else if methodType == "TRACE" then Some(TRACE)
    else None
  }

  /** The method handler chosen for a request: `req.method.toUpperCase()` fed to the switch. */
  function Selected(verb: string): (r: Option<Method>)
    ensures r.Some? ==> Name(r.value) == UpperCase(verb)
    ensures r.None? ==> forall m: Method :: Name(m) != UpperCase(verb)
  {
    Route(UpperCase(verb))
  }

  /** The switch selects the same case for a method name and for its upper-case form. */
  lemma SelectedIgnoresCase(verb: string)
    ensures Selected(UpperCase(verb)) == Selected(verb)
  {
    UpperCaseIdempotent(verb);
  }

  /** Any ASCII casing of one of the nine names selects that method. */
  lemma SelectedCasing(verb: string, m: Method)
    requires AsciiCasingOf(verb, Name(m))
    ensures Selected(verb) == Some(m)
  {
    UpperCaseOfCasing(verb, Name(m));
  }

  /** The body text after every `data` chunk has been appended, in order. */
  function Concat(chunks: seq<string>): (body: string)
    ensures |body| == 0 <==> forall k :: 0 <= k < |chunks| ==> chunks[k] == ""
    ensures forall k :: 0 <= k < |chunks| ==> |chunks[k]| <= |body|
  {
    if chunks == [] then "" else Concat(chunks[..|chunks| - 1]) + chunks[|chunks| - 1]
  }

  /** Appending the chunks of two consecutive runs gives the two texts one after the other. */
  lemma {:induction false} ConcatAppend(a: seq<string>, b: seq<string>)
    ensures Concat(a + b) == Concat(a) + Concat(b)
    decreases |b|
  {
    if b == [] {
      assert a + b == a;
    } else {
      var front := b[..|b| - 1];
      assert (a + b)[..|a + b| - 1] == a + front;
      assert (a + b)[|a + b| - 1] == b[|b| - 1];
      ConcatAppend(a, front);
      assert Concat(a + b) == Concat(a + front) + b[|b| - 1];
      assert Concat(b) == Concat(front) + b[|b| - 1];
    }
  }

  /** The body reader: `body` starts empty and each `data` chunk is appended to it. */
  method ReadBody(chunks: seq<string>) returns (body: string)
    ensures body == Concat(chunks)
    ensures |body| == 0 <==> forall k :: 0 <= k < |chunks| ==> chunks[k] == ""
  {
    body := "";
    var i := 0;
    while i < |chunks|
      invariant 0 <= i <= |chunks|
      invariant body == Concat(chunks[..i])
      invariant |body| == 0 <==> forall k :: 0 <= k < i ==> chunks[k] == ""
    {
      assert chunks[..i + 1][..i] == chunks[..i];
      body := body + chunks[i];
      i := i + 1;
    }
    assert chunks[..i] == chunks;
  }
}
