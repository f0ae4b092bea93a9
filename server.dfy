/**
 * The request handler of the document-store server: header check, method switch,
 * the nine method handlers and the catch block. The store, the id parser and the
 * JSON codec are given as functions in `Env`; only their results enter the model.
 */
module Server {
  import opened Wrappers
  import opened Text
  import opened Http

  /** A document identifier, as `new ObjectId(text)` builds it from the URL path. */
  datatype ObjectId = ObjectId(hex: string)

  /**
   * The collaborators the handlers call:
   * - `parseId`: `new ObjectId(text)`, or the message of the error it throws;
   * - `find`: the document `findOne` resolves to for an id, or `None` for `null`;
   * - `insert`: the body as it stands once `insertOne` has been called on it, or the
   *   message of an error the call throws before returning (`DriverInsert` says what
   *   the driver may do to it);
   * - `parseJson`: `JSON.parse`, or the message of the error it throws;
   * - `stringify`: `JSON.stringify`.
   */
  datatype Env = Env(
    parseId: string -> Result<ObjectId, string>,
    find: ObjectId -> Option<Json>,
    insert: Json -> Result<Json, string>,
    parseJson: string -> Result<Json, string>,
    stringify: Json -> string)

  const NoDocumentMessage: string := "No document matches the provided query."
  const NotFoundMessage: string := "Not Found"
  const DeletingMessage: string := "The object is being deleted"
  const UpdatingMessage: string := "The object is being updated"

  /** The object the OPTIONS handler serialises. */
  const AcceptsDocument: Json :=
    JObject([("ACCEPTS", JArray([JString("GET"), JString("POST"), JString("DELETE"), JString("PATCH")]))])

  /** `doc[key]`: the value of the first member named `key`, if any. */
  function Member(members: seq<(string, Json)>, key: string): (r: Option<Json>)
  {
    if members == [] then None
    else if members[0].0 == key then Some(members[0].1)
    else Member(members[1..], key)
  }

  /** `doc[key] = v`: the member's value replaced where it stands, or the member appended when absent. */
  function SetMember(members: seq<(string, Json)>, key: string, v: Json): (r: seq<(string, Json)>)
    ensures Member(r, key) == Some(v)
    ensures forall other :: other != key ==> Member(r, other) == Member(members, other)
  {
    if members == [] then [(key, v)]
    else if members[0].0 == key then [(key, v)] + members[1..]
    else [members[0]] + SetMember(members[1..], key, v)
  }

  /** `doc._id == null`: an object without an `_id` member, or with a `null` one. */
  predicate LacksId(doc: Json)
  {
    doc.JObject? && (Member(doc.members, "_id").None? || Member(doc.members, "_id") == Some(JNull))
  }

  /**
   * What a returning `insertOne(doc)` leaves `doc` as: an object lacking an `_id`
   * is given a fresh non-null one in place; anything else is left as it is (an
   * `_id` property the driver sets on an array is not part of its JSON).
   */
  ghost predicate InsertedAs(doc: Json, stored: Json)
  {
    if LacksId(doc) then exists id :: id != JNull && stored == JObject(SetMember(doc.members, "_id", id))
    else stored == doc
  }

  /** The driver's `insertOne` changes the document it is given only by assigning its `_id`. */
  ghost predicate DriverInsert(insert: Json -> Result<Json, string>)
  {
    forall doc :: insert(doc).Ok? ==> InsertedAs(doc, insert(doc).value)
  }

  /** `req.url.substring(1)`: the URL without its first character. */
  function IdText(url: string): (t: string)
    ensures |url| > 0 ==> url == url[..1] + t
    ensures |url| == 0 ==> t == ""
  {
    if |url| == 0 then "" else url[1..]
  }

  /**
   * What happens once the body has been read: `JSON.parse` of the text, then the
   * handler. This runs in the `end` callback, after the try block has been left,
   * so an exception here is not caught: it becomes `Uncaught`.
   */
  function OnBody(m: Method, req: Request, env: Env): (o: Outcome)
    ensures o.Respond? || o.Uncaught?
    ensures env.parseJson(Concat(req.chunks)).Err? ==> o == Uncaught(env.parseJson(Concat(req.chunks)).error)
    ensures o.Respond? ==> o.status == (if m == POST then 201 else if m == PATCH then 202 else 404)
  {
    match env.parseJson(Concat(req.chunks))
    case Err(msg) => Uncaught(msg)
    case Ok(body) =>
      if m == POST then
        match env.insert(body)
        case Err(msg) => Uncaught(msg)
        case Ok(stored) => Respond(201, env.stringify(stored))
      else if m == PATCH then
        match env.parseId(IdText(req.url))
        case Err(msg) => Uncaught(msg)
        case Ok(_) => Respond(202, UpdatingMessage)
      else
        Respond(404, NotFoundMessage)
  }

  /** The handler the switch calls for each method, as run inside the try block. */
  function Handler(m: Method, req: Request, env: Env): (s: Step)
    ensures s.Threw? ==>
      && m in {GET, DELETE}
      && env.parseId(IdText(req.url)).Err?
      && s.error == Error(env.parseId(IdText(req.url)).error, None)
    ensures s.Done? ==> !s.outcome.NoResponse?
  {
    match m
    case GET =>
      (match env.parseId(IdText(req.url))
       case Err(msg) => Threw(Error(msg, None))
       case Ok(id) =>
         match env.find(id)
         case Some(doc) => Done(Respond(200, env.stringify(doc)))
         case None => Done(Respond(404, NoDocumentMessage)))
    case POST => Done(OnBody(POST, req, env))
    case PUT => Done(OnBody(PUT, req, env))
    case HEAD => Done(HeadersOnly(204))
    case DELETE =>
      (match env.parseId(IdText(req.url))
       case Err(msg) => Threw(Error(msg, None))
       case Ok(_) => Done(Respond(202, DeletingMessage)))
    case PATCH => Done(OnBody(PATCH, req, env))
    case OPTIONS => Done(Respond(200, env.stringify(AcceptsDocument)))
    case CONNECT => Done(Respond(404, NotFoundMessage))
    case TRACE => Done(Respond(404, NotFoundMessage))
  }

  /**
   * The `createServer` callback: the header check and the switch of `Guarded`, with
   * the handlers above. A rejected request is answered 400 with the check's message,
   * and the switch writes nothing (`NoResponse`) exactly for a method outside the
   * nine. `Uncaught` outcomes and HEAD's `HeadersOnly` also leave a request unanswered.
   */
  function Handle(req: Request, env: Env): (o: Outcome)
    ensures !Acceptable(req.headers) ==> o == Respond(400, CheckFormat(req.headers).error.message)
    ensures o == NoResponse <==> Acceptable(req.headers) && forall m: Method :: Name(m) != UpperCase(req.verb)
  {
    Guarded(req.headers, req.verb, m => Handler(m, req, env))
  }

  /** The outcome depends on the method name only through the case the switch selects. */
  lemma HandleBySelection(req1: Request, req2: Request, env: Env)
    requires req2 == req1.(verb := req2.verb)
    requires Selected(req1.verb) == Selected(req2.verb)
    ensures Handle(req1, env) == Handle(req2, env)
  {
  }

  /** The method name is matched case-insensitively: a request and its upper-cased form are handled alike. */
  lemma DispatchIgnoresCase(req: Request, env: Env)
    ensures Handle(req.(verb := UpperCase(req.verb)), env) == Handle(req, env)
  {
    SelectedIgnoresCase(req.verb);
    HandleBySelection(req, req.(verb := UpperCase(req.verb)), env);
  }

  /** Any ASCII casing of one of the nine method names is handled as that name. */
  lemma AnyCasingSelects(req: Request, env: Env, m: Method)
    requires AsciiCasingOf(req.verb, Name(m))
    ensures Handle(req, env) == Handle(req.(verb := Name(m)), env)
  {
    SelectedCasing(req.verb, m);
    SelectedCasing(Name(m), m);
    HandleBySelection(req, req.(verb := Name(m)), env);
  }

  /** The handlers that never touch the store or the id answer with fixed responses. */
  lemma FixedResponses(req: Request, env: Env)
    requires Acceptable(req.headers)
    ensures Selected(req.verb) in {Some(CONNECT), Some(TRACE)} ==> Handle(req, env) == Respond(404, NotFoundMessage)
    ensures Selected(req.verb) == Some(HEAD) ==> Handle(req, env) == HeadersOnly(204)
    ensures Selected(req.verb) == Some(OPTIONS) ==> Handle(req, env) == Respond(200, env.stringify(AcceptsDocument))
    ensures Selected(req.verb) == Some(PUT) ==>
      Handle(req, env) == (match env.parseJson(Concat(req.chunks))
                           case Ok(_) => Respond(404, NotFoundMessage)
                           case Err(msg) => Uncaught(msg))
  {
  }

  /** GET: 200 with the serialised document when one matches, 404 when none does, 400 with the parser's message for a malformed id. */
  lemma GetResponse(req: Request, env: Env)
    requires Acceptable(req.headers) && Selected(req.verb) == Some(GET)
    ensures env.parseId(IdText(req.url)).Err? ==> Handle(req, env) == Respond(400, env.parseId(IdText(req.url)).error)
    ensures env.parseId(IdText(req.url)).Ok? ==>
      var id := env.parseId(IdText(req.url)).value;
      Handle(req, env) == if env.find(id).Some? then Respond(200, env.stringify(env.find(id).value))
                          else Respond(404, NoDocumentMessage)
  {
  }

  /** DELETE: 202 without consulting the store for a well-formed id, 400 with the parser's message otherwise. */
  lemma DeleteResponse(req: Request, env: Env)
    requires Acceptable(req.headers) && Selected(req.verb) == Some(DELETE)
    ensures Handle(req, env) == match env.parseId(IdText(req.url))
                                case Ok(_) => Respond(202, DeletingMessage)
                                case Err(msg) => Respond(400, msg)
  {
  }

  /**
   * PATCH: 202 once the body parses and the id is well formed. Unlike DELETE, a
   * malformed id here is thrown inside the body callback and is never answered.
   */
  lemma PatchResponse(req: Request, env: Env)
    requires Acceptable(req.headers) && Selected(req.verb) == Some(PATCH)
    ensures env.parseJson(Concat(req.chunks)).Err? ==> Handle(req, env) == Uncaught(env.parseJson(Concat(req.chunks)).error)
    ensures env.parseJson(Concat(req.chunks)).Ok? ==>
      Handle(req, env) == match env.parseId(IdText(req.url))
                          case Ok(_) => Respond(202, UpdatingMessage)
                          case Err(msg) => Uncaught(msg)
  {
  }

  /**
   * POST: a body that does not parse, or an insert call that throws, is uncaught.
   * Otherwise 201 with the serialised body as the insert left it: the posted body
   * itself when it has an `_id` or is not an object, and otherwise the posted object
   * with a fresh `_id` and every other member unchanged.
   */
  lemma PostResponse(req: Request, env: Env)
    requires Acceptable(req.headers) && Selected(req.verb) == Some(POST)
    requires DriverInsert(env.insert)
    ensures env.parseJson(Concat(req.chunks)).Err? ==> Handle(req, env) == Uncaught(env.parseJson(Concat(req.chunks)).error)
    ensures env.parseJson(Concat(req.chunks)).Ok? ==>
      var body := env.parseJson(Concat(req.chunks)).value;
      match env.insert(body)
      case Err(msg) => Handle(req, env) == Uncaught(msg)
      case Ok(stored) =>
        && Handle(req, env) == Respond(201, env.stringify(stored))
        && (!LacksId(body) ==> stored == body)
        && (LacksId(body) ==>
              && stored.JObject?
              && Member(stored.members, "_id").Some? && Member(stored.members, "_id") != Some(JNull)
              && forall key :: key != "_id" ==> Member(stored.members, key) == Member(body.members, key))
  {
    var text := Concat(req.chunks);
    if env.parseJson(text).Ok? {
      var body := env.parseJson(text).value;
      if env.insert(body).Ok? && LacksId(body) {
        var id :| id != JNull && env.insert(body).value == JObject(SetMember(body.members, "_id", id));
      }
    }
  }

  /** Only GET waits for the store: for every other request the lookup result makes no difference. */
  lemma OnlyGetReadsStore(req: Request, env1: Env, env2: Env)
    requires env1.(find := env2.find) == env2
    requires Selected(req.verb) != Some(GET)
    ensures Handle(req, env1) == Handle(req, env2)
  {
  }

  /** Every exception thrown inside the try block is one without a cause, and is answered 400 with its message. */
  lemma SynchronousThrowIs400(req: Request, env: Env)
    requires Acceptable(req.headers) && Selected(req.verb).Some?
    requires Handler(Selected(req.verb).value, req, env).Threw?
    ensures Selected(req.verb) in {Some(GET), Some(DELETE)}
    ensures Handle(req, env) == Respond(400, env.parseId(IdText(req.url)).error)
  {
  }
}
