# web-server: request decision layer

This project models the part of the web-server that decides what each HTTP request gets back. The server is a thin HTTP front end over a MongoDB collection. The model has two servers:

- `server.js`, the document-store server, in module `Server`;
- `templates/server-template.js`, the stub template, in module `Template`.

Both run the same three steps on every request. `Http.Guarded` models them once, and each server supplies its own handlers:

1. **`checkFormat`**, the header check. The `content-type` header must contain `application/json`. Only then is the `accept` header checked: it must contain `application/json` or `*/*`. A failure throws an `Error` whose cause code is 400. A header that is missing entirely makes `.includes` throw a `TypeError`, which has no cause.
2. **The method `switch`.** It receives `req.method.toUpperCase()` and has one case for each of GET, POST, PUT, HEAD, DELETE, PATCH, OPTIONS, CONNECT and TRACE. It has no default case.
3. **The `catch` block.** The status is the error's cause code, or 400 when there is none. The body is the error's message.

The two files define `checkFormat`, the `switch` and the `catch` block identically. Each is therefore modelled once, in module `Http`, and used by both servers. Module `Text` models the two string operations the decisions rest on: `includes` and `toUpperCase`. Module `Wrappers` holds `Option` and `Result`.

A request is a `Request` value: the method (field `verb`), the URL, the two headers, and the body chunks in arrival order. What the server does with the response object is an `Outcome`:

- `Respond(status, body)`: `writeHead` and then `end`.
- `HeadersOnly(status)`: `writeHead` without `end`, so the response is never completed. This is HEAD in `server.js`.
- `NoResponse`: the switch writes nothing. This is a method outside the nine. It is one of three ways a request goes unanswered, with `HeadersOnly` and `Uncaught`.
- `Uncaught(message)`: an exception thrown inside the body's `end` callback. The `try` block was left long before, so the `catch` never sees it and no response is written. This happens when `JSON.parse` fails on POST, PUT or PATCH, when PATCH has a malformed id, and when `insertOne` throws before returning.

`server.js` calls outside code. The model receives these calls as the function-valued fields of `Server.Env`:

- `new ObjectId(text)` becomes `parseId`, a partial parser whose error carries the message thrown.
- The value `findOne` resolves to becomes `find`.
- `insertOne` becomes `insert`. It gives the body as it stands after the driver has run on it, or the message of a synchronous throw. `Server.DriverInsert` constrains what the driver may do. An object with no `_id`, or a `null` one, gets a fresh non-null `_id`. Any other value is left unchanged. This happens before line 81 serialises the body.
- `JSON.parse` becomes `parseJson`.
- `JSON.stringify` becomes `stringify`.

The template only calls `JSON.parse`, which it receives as a function argument.

Five behaviours of the code are easy to miss. The model captures each one:

- A body that fails to parse is never answered: `JSON.parse` runs in the `end` callback, outside the `try` (server.js:69-71).
- A malformed id is answered 400 for GET and DELETE, where `new ObjectId` throws inside the `try`. For PATCH it is never answered, because the id is built in the body callback (server.js:118).
- A GET with a malformed id is answered 400, not 404: the error thrown has no cause (server.js:37, server.js:200-204).
- HEAD never completes its response: the handler calls `writeHead(204)` and never `end` (server.js:94-98).
- POST does not echo the request bytes. It echoes `JSON.stringify` of the parsed value after `insertOne` has run on it, and that may have added an `_id` (server.js:78-81).

## Model

| member | source | states |
|---|---|---|
| `Text.IncludesIffMentions` | server.js:22 | the `includes` scan from position 0 succeeds exactly when the needle occurs at some index of the header value |
| `Text.Includes` | server.js:22 | `includes` tries every starting position from 0; a string it finds is never longer than the text searched |
| `Text.UpperChar` | server.js:164 | the upper-case mapping of one character has one to three characters and none of them is a lower-case ASCII letter |
| `Text.UpperCase` | server.js:164 | `toUpperCase` keeps or lengthens the string, and each character becomes at most three, so the result is at most three times as long |
| `Text.UpperCaseIdempotent` | server.js:164 | upper-casing an upper-cased method name changes nothing |
| `Text.UpperCaseOfCasing` | server.js:164 | any mix of ASCII cases of an upper-case word upper-cases to that word |
| `Http.Guarded` | server.js:155-209 | the callback: a request failing the header check is answered 400 with the check's message; an accepted request whose upper-cased method is none of the nine labels gets `NoResponse` (the switch writes nothing); otherwise the selected handler runs, and its outcome is the request's outcome when it finishes, while its throw is answered by the catch block |
| `Http.RejectedBeforeDispatch` | server.js:158-167 | no handler runs for a rejected request: any two requests with the same rejected headers get the same 400 outcome, whatever their method and handlers |
| `Http.ContentTypeRejected` | server.js:21-24 | a content type without `application/json` gives 400 with the content-type message, whatever the method and handlers |
| `Http.AcceptRejected` | server.js:27-30 | a JSON content type with an accept header naming neither `application/json` nor `*/*` gives 400 with the accept message |
| `Http.MissingHeaderRejected` | server.js:21-28 | a missing content type, or a missing accept after a JSON content type, gives 400 with the TypeError message |
| `Http.CheckFormat` | server.js:18-31 | the check passes exactly when the content type contains `application/json` and the accept header contains `application/json` or `*/*`; a failure carries one of the two messages with cause 400, or the TypeError message with no cause for a missing header |
| `Http.ContentTypeCheckedFirst` | server.js:21-24 | a content type without `application/json` fails with the content-type message whatever the accept header is, so the content-type check comes first |
| `Http.AcceptChecked` | server.js:27-30 | after an acceptable content type, an accept header with neither `application/json` nor `*/*` fails with the accept message |
| `Http.Catch` | server.js:197-209 | a caught error is answered with its cause code, or 400 when it has no cause, and with its message as the body |
| `Http.RejectionIs400` | server.js:200-207 | every failure of the header check is answered 400 with the check's message |
| `Http.Name` | server.js:167-195 | every case label is an upper-case ASCII word |
| `Http.Route` | server.js:167-195 | the switch picks the method whose label equals the upper-cased name, and picks none when no label equals it (no default case) |
| `Http.Selected` | server.js:164-167 | the case selected for a method is the one whose label equals the upper-cased name, and none is selected when no label equals it |
| `Http.SelectedIgnoresCase` | server.js:164-167 | a method name and its upper-case form select the same case |
| `Http.SelectedCasing` | server.js:164-195 | any ASCII casing of one of the nine labels selects that method |
| `Http.Concat` | server.js:63-66 | the body text is empty exactly when every chunk is, and is at least as long as every chunk |
| `Http.ConcatAppend` | server.js:63-66 | the body of two consecutive runs of chunks is the first run's text followed by the second's |
| `Http.ReadBody` | server.js:63-66 | the body reader starts from the empty string and appends every chunk in order; the body is empty exactly when every chunk is |
| `Server.IdText` | server.js:37 | the id text is the URL without its first character, and empty for an empty URL |
| `Server.SetMember` | server.js:78 | the driver's `_id` assignment: afterwards the member has the new value and every other member reads as before |
| `Server.OnBody` | server.js:69-71 | the body callback: an unparsable body is uncaught; otherwise POST answers 201, PATCH 202 and PUT 404, or throws uncaught |
| `Server.Handler` | server.js:34-152 | the handler table: only GET and DELETE throw inside the `try`, and only for a malformed id and with no cause; no finished handler gives `NoResponse` |
| `Server.Handle` | server.js:155-211 | the server's callback: a rejected request gets 400 with the check's message, and a request gets `NoResponse` (the switch writes nothing) exactly when it is accepted and its upper-cased method equals none of the nine labels; `Uncaught` outcomes and HEAD's `HeadersOnly` leave a request unanswered too |
| `Server.HandleBySelection` | server.js:164-195 | two requests that differ only in method name, and select the same case, get the same outcome |
| `Server.DispatchIgnoresCase` | server.js:164-167 | a request and the same request with its method upper-cased get the same outcome |
| `Server.AnyCasingSelects` | server.js:164-195 | a request whose method is any ASCII casing of a label is handled as that label |
| `Server.FixedResponses` | server.js:86-152 | CONNECT and TRACE give 404 `Not Found`; HEAD sets 204 and never ends the response; OPTIONS gives 200 and the serialised `{"ACCEPTS":["GET","POST","DELETE","PATCH"]}`; PUT gives 404 `Not Found` once the body parses, and is uncaught otherwise |
| `Server.GetResponse` | server.js:34-57 | GET gives 200 and the serialised document when one matches, 404 `No document matches the provided query.` when none does, and 400 with the parser's message for a malformed id |
| `Server.DeleteResponse` | server.js:101-112 | DELETE gives 202 `The object is being deleted` for every well-formed id, without consulting the store, and 400 with the parser's message for a malformed one |
| `Server.PatchResponse` | server.js:115-126 | PATCH gives 202 `The object is being updated` once the body parses and the id is well formed; a parse failure or a malformed id is thrown uncaught |
| `Server.PostResponse` | server.js:75-83 | POST with an unparsable body, or an insert call that throws, is uncaught. Otherwise it gives 201 and the serialised body as `insertOne` left it. That is the parsed body itself when the body has an `_id` or is not an object. Otherwise it is the posted object with a fresh non-null `_id` and every other member unchanged |
| `Server.OnlyGetReadsStore` | server.js:40-52 | for every method except GET, the outcome is the same whatever the store lookup returns |
| `Server.SynchronousThrowIs400` | server.js:197-209 | a handler throws inside the try block only for GET or DELETE with a malformed id, and that throw is answered 400 with the parser's message |
| `Template.MessageNamesMethod` | templates/server-template.js:27-109 | each stub handler's message is `Successful <method> method`, with the method name in lower case |
| `Template.Message` | templates/server-template.js:27-109 | each stub message is `Successful <method> method` with the method's label in lower case |
| `Template.Handler` | templates/server-template.js:27-109 | every stub handler answers 200 with its message, except that POST, PUT and PATCH with an unparsable body are uncaught |
| `Template.Handle` | templates/server-template.js:112-167 | the template's callback: a rejected request gets 400 with the check's message, and a request gets `NoResponse` (the switch writes nothing) exactly when it is accepted and its upper-cased method equals none of the nine labels; an `Uncaught` outcome leaves a request unanswered too |
| `Template.HandleBySelection` | templates/server-template.js:121-151 | two requests that differ only in method name, and select the same case, get the same outcome |
| `Template.DispatchIgnoresCase` | templates/server-template.js:121-123 | a request and the same request with its method upper-cased get the same outcome |
| `Template.KnownMethodSucceeds` | templates/server-template.js:27-109 | an accepted request for any casing of one of the nine methods gets 200 `Successful <method> method` in lower case, provided that for POST, PUT and PATCH the body parses |
| `Template.ParsedBodyIgnored` | templates/server-template.js:48-85 | the response does not depend on which value the body parses to |
| `Template.UnparsableBodyUncaught` | templates/server-template.js:33-45 | for POST, PUT and PATCH, a body that does not parse is thrown in the `end` callback and is not answered |

## Left out

- HTTP server creation, `listen` on port 5000, and the `writeHead`/`end` calls themselves are left out. Each request's effect on the response object is the returned `Outcome`.
- The MongoDB client is left out: the connection, and reading the connection string from `connection.data`. It is I/O.
- Persistence is left out. `insertOne`, `deleteOne` and `replaceOne` are not awaited, so nothing about what the store holds afterwards can be stated, and no POST-then-GET round trip is modelled.
- `deleteOne` and `replaceOne` are treated as returning without a synchronous throw. `insertOne` is modelled only for its synchronous effect on the body: an `_id` assigned in place, or a throw (`Server.DriverInsert`). Which values make it throw, and the value of the new `_id`, are not modelled.
- The rejection path of the GET promise (server.js:55) is left out. It rethrows inside an asynchronous chain that the `catch` block never sees. `find` only says found or not found.
- What Node does after an `Uncaught` exception (the process normally exits) is left out. So are the outcomes of any other requests in flight at that moment.
- `ReadBody`: the chunks are given as text. `chunk.toString()` decodes each chunk's bytes on its own, so a multi-byte UTF-8 character split across two chunks is mangled; this is not modelled. Event ordering between `data`, `end` and other requests is not modelled either.
- `JSON.parse`, `JSON.stringify` and `new ObjectId` are opaque. They are functions in the environment, so the literal text of a serialised document is not computed. JSON numbers are modelled as integers rather than doubles.
- `Text.UpperChar`: the non-ASCII characters whose upper case is ASCII (ı, ſ, ß and the Latin ligatures U+FB00–U+FB06) are mapped exactly. Every other non-ASCII character is kept unchanged rather than given its Unicode upper case. None of those upper cases is made only of ASCII letters, so this does not change which case the switch selects.
- Console logging is left out.
- Concurrency between requests is left out. Each request is modelled on its own.
