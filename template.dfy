/**
 * The stub server template: the same header check, switch and catch block as the
 * document-store server, with nine handlers that each answer 200 and a fixed
 * message. `parseJson` stands for `JSON.parse`, the only collaborator it calls.
 */
module Template {
  import opened Wrappers
  import opened Text
  import opened Http

  /** The word each stub handler's message uses for its method. */
  function Word(m: Method): (w: string)
  {
    match m
    case GET => "get"
    case POST => "post"
    case PUT => "put"
    case HEAD => "head"
    case DELETE => "delete"
    case PATCH => "patch"
    case OPTIONS => "options"
    case CONNECT => "connect"
    case TRACE => "trace"
  }

  /** The message each stub handler ends its response with. */
  function Message(m: Method): (r: string)
    ensures r == "Successful " + LowerAscii(Name(m)) + " method"
  {
    MessageNamesMethod(m);
    "Successful " + Word(m) + " method"
  }

  /** The methods whose handler runs only once the body has been read and parsed. */
  predicate ReadsBody(m: Method)
  {
    m == POST || m == PUT || m == PATCH
  }

  /**
   * The handler the switch calls. For POST, PUT and PATCH the handler runs in the
   * body's `end` callback after `JSON.parse`; a parse error there is not caught.
   */
  function Handler(m: Method, req: Request, parseJson: string -> Result<Json, string>): (o: Outcome)
    ensures o.Respond? <==> !ReadsBody(m) || parseJson(Concat(req.chunks)).Ok?
    ensures o.Respond? ==> o == Respond(200, Message(m))
    ensures !o.Respond? ==> o == Uncaught(parseJson(Concat(req.chunks)).error)
  {
    if ReadsBody(m) then
      match parseJson(Concat(req.chunks))
      case Err(msg) => Uncaught(msg)
      case Ok(_) => Respond(200, Message(m))
    else
      Respond(200, Message(m))
  }

  /**
   * The `createServer` callback: the header check and the switch of `Guarded`, with
   * the stub handlers. A rejected request is answered 400 with the check's message,
   * and the switch writes nothing (`NoResponse`) exactly for a method outside the
   * nine. An `Uncaught` outcome also leaves a request unanswered.
   */
  function Handle(req: Request, parseJson: string -> Result<Json, string>): (o: Outcome)
    ensures !Acceptable(req.headers) ==> o == Respond(400, CheckFormat(req.headers).error.message)
    ensures o == NoResponse <==> Acceptable(req.headers) && forall m: Method :: Name(m) != UpperCase(req.verb)
  {
    Guarded(req.headers, req.verb, m => Done(Handler(m, req, parseJson)))
  }

  /** Each message names its method in lower case: "Successful <method> method". */
  lemma MessageNamesMethod(m: Method)
    ensures Word(m) == LowerAscii(Name(m))
  {
  }

  /** The outcome depends on the method name only through the case the switch selects. */
  lemma HandleBySelection(req1: Request, req2: Request, parseJson: string -> Result<Json, string>)
    requires req2 == req1.(verb := req2.verb)
    requires Selected(req1.verb) == Selected(req2.verb)
    ensures Handle(req1, parseJson) == Handle(req2, parseJson)
  {
  }

  /** The method name is matched through `toUpperCase`: a request and its upper-cased form are handled alike. */
  lemma DispatchIgnoresCase(req: Request, parseJson: string -> Result<Json, string>)
    ensures Handle(req.(verb := UpperCase(req.verb)), parseJson) == Handle(req, parseJson)
  {
    SelectedIgnoresCase(req.verb);
    HandleBySelection(req, req.(verb := UpperCase(req.verb)), parseJson);
  }

  /** An accepted request for any casing of one of the nine methods is answered 200 with that method's message, once its body, if read, parses. */
  lemma KnownMethodSucceeds(req: Request, parseJson: string -> Result<Json, string>, m: Method)
    requires Acceptable(req.headers) && AsciiCasingOf(req.verb, Name(m))
    requires ReadsBody(m) ==> parseJson(Concat(req.chunks)).Ok?
    ensures Handle(req, parseJson) == Respond(200, "Successful " + LowerAscii(Name(m)) + " method")
  {
    SelectedCasing(req.verb, m);
    MessageNamesMethod(m);
  }

  /** POST, PUT and PATCH answer the same whatever value the body parses to; only a parse failure changes the outcome. */
  lemma ParsedBodyIgnored(req: Request, p1: string -> Result<Json, string>, p2: string -> Result<Json, string>)
    requires p1(Concat(req.chunks)).Ok? && p2(Concat(req.chunks)).Ok?
    ensures Handle(req, p1) == Handle(req, p2)
  {
  }

  /** A body that does not parse as JSON is thrown outside the try block: POST, PUT and PATCH then give no response. */
  lemma UnparsableBodyUncaught(req: Request, parseJson: string -> Result<Json, string>)
    requires Acceptable(req.headers) && Selected(req.verb).Some? && ReadsBody(Selected(req.verb).value)
    requires parseJson(Concat(req.chunks)).Err?
    ensures Handle(req, parseJson) == Uncaught(parseJson(Concat(req.chunks)).error)
  {
  }
}
