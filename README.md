# Todo-list service: a Dafny model

This project models the `todo-list` service, a small Node HTTP server. The service keeps an
in-memory list of todos and an id counter. It answers a JSON CRUD API under `/api/todos`,
adds CORS headers to every response, answers `OPTIONS` preflights with 204, and serves files
from `public/` for every other request.

The model follows the source file by file:

- `store.dfy` (`TodoStore`). The process-wide mutable store becomes the class `Store`. Its
  fields are `todos: seq<Todo>` and `nextId: nat`. The constructor seeds the two initial
  records. `IncrementId` is `nextId++`.
- `handlers.dfy` (`Handlers`). The four handlers are methods that change the store in place:
  an append, field assignments on the first matching record, and a splice. The lookup is
  the loop `FindIndex`. Each method is proved equal to a pure step function (`ListStep`,
  `CreateStep`, `UpdateStep`, `RemoveStep`). The step functions and the lemmas about them
  state the handlers' guarantees. One of these guarantees is the store invariant: all ids
  are positive, distinct and below `nextId`.
- `router.dfy` (`Router`). `Resolve` is the routing decision as a pure function. It covers
  the `^/api/todos/(\d+)$` matcher, `parseInt` on the digits, and the static fallback path.
  `Execute` and `Dispatch` hand each route to its handler.
- `server.dfy` (`Server`). This models the single-file version of the service.
  `ServerRoute` is its own inline chain of route tests, proved to choose the same route as
  `Resolve`. `Handle` is the request callback: it sets the CORS headers, short-circuits
  `OPTIONS`, dispatches, and sends the response.
- `cors.dfy`, `static.dfy` and `http.dfy` model `applyCors`/`handlePreflight`, the MIME
  table with `serveStatic`, and `sendJSON`/`sendError`/`getBody`. `http.dfy` also models
  Node's `ServerResponse`: headers build up through `setHeader` and are merged into the
  one `writeHead` + `end`.
- `json.dfy`, `utf8.dfy`, `decimal.dfy` and `text.dfy` model the library behaviour these
  steps depend on:
  - JSON values and `JSON.stringify`;
  - UTF-8 byte length (`Buffer.byteLength`) and encoding;
  - decimal `parseInt` and number rendering;
  - `String.prototype.trim`.

Inputs from outside the service are parameters, gathered in `Router.Env` and
`Router.Request`:
- `JSON.parse` is a function `string -> Option<Value>`;
- `path.extname` and `fs.readFile` are functions of the file path;
- the clock reading becomes the `created` string;
- the request is its method, its pathname and its finished body stream (chunks of text, or
  a stream error).

Behaviour of the code worth noting:
- A PATCH stores `text` and `done` without any check (`todo-list/handlers/todos.ts:38-39`).
  `create` refuses blank text, and a PATCH can still store it:
  `Handlers.PatchStoresBlankText` exhibits a PATCH that stores `""`. For the same reason
  `Todo.text` and `Todo.done` hold JSON values. The declared shape (string text, boolean
  done, from `todo-list/types/index.ts`) is the predicate `Types.WellTyped`. Creation always
  keeps that shape. A PATCH keeps it when its fields have the declared types
  (`Handlers.UpdateKeepsShape`).
- `create` evaluates `body.text?.trim()` inside its `try`, and some bodies make that
  expression throw a TypeError. This happens for a `null` body, and for a `text` that is
  present but neither a string nor `null`. Such bodies get 400 `Invalid request body`,
  not `Text is required` (`Handlers.CheckCreateVerdict`).

## Model

| member | source | states |
|---|---|---|
| `TodoStore.SeedValid` | todo-list/store/todos.ts:3-8 | The seeded store (ids 1 and 2, counter 3) satisfies the invariant: the counter is positive, and ids are positive, distinct and below it. The seeded records have the declared shape. |
| `TodoStore.Store.constructor` | todo-list/store/todos.ts:3-8 | The initial store holds exactly two records, ids 1 then 2. The first is not done and the second is done. `nextId` is 3 and the invariant holds. |
| `TodoStore.Store.IncrementId` | todo-list/store/todos.ts:10-12 | Returns the old `nextId` and leaves it exactly one larger, so successive calls return strictly increasing ids. `todos` is unchanged. In a valid store the invariant is kept and the returned id exceeds every stored id. |
| `Handlers.IndexOf` | todo-list/handlers/todos.ts:47-48 | Gives -1 exactly when no record has the id. Otherwise it gives the position of the first record with that id. |
| `Handlers.FindIndex` | todo-list/handlers/todos.ts:31 | The linear search returns the first matching position, or -1, exactly as `IndexOf` specifies. |
| `Handlers.RemoveAt` | todo-list/handlers/todos.ts:52 | `splice(i, 1)` yields one record fewer. Records before `i` stay in place and later ones shift down by one, keeping their order. |
| `Handlers.RemoveAtKeepsValid` | todo-list/handlers/todos.ts:52 | Removing a record from a valid store keeps the invariant and leaves no record with the removed id. |
| `Handlers.Patch` | todo-list/handlers/todos.ts:38-39 | A supplied `text` or `done` is stored verbatim and an absent one keeps its value. `id` and `created` never change. |
| `Handlers.Property` | todo-list/handlers/todos.ts:38-39 | `body.<name>` on a body other than `null`. It is present exactly when the body is an object with a member of that name; when the key repeats, the last member's value is read. |
| `Handlers.CheckCreateVerdict` | todo-list/handlers/todos.ts:11-16 | A failed read, a `null` body, or a non-string non-null `text` goes to the catch. Absent, `null` or all-white-space text is "Text is required". Otherwise the text is accepted, trimmed and non-empty. |
| `Handlers.CheckCreate` | todo-list/handlers/todos.ts:11-16 | The validation of `body.text?.trim()` inside the `try`. It gives a catch verdict, a missing-text verdict, or the accepted trimmed text; `Handlers.CheckCreateVerdict` states when each applies. |
| `Handlers.ListStep` | todo-list/handlers/todos.ts:6-8 | `getAll` answers 200 with every record, in store order, and leaves the store unchanged. |
| `Handlers.AppendKeepsValid` | todo-list/handlers/todos.ts:18-23 | Appending a record whose id is the counter, then incrementing the counter, keeps the invariant. |
| `Handlers.CreateStep` | todo-list/handlers/todos.ts:10-28 | `create` as a step on the store. It answers either 201, or 400 with the store and counter unchanged. `Handlers.CreateAppends` and `Handlers.CreateRefused` state each case. |
| `Handlers.CreateRefused` | todo-list/handlers/todos.ts:13-16 | A refused body answers 400 with "Invalid request body" or "Text is required". No id is allocated and the store and counter are unchanged. |
| `Handlers.CreateAppends` | todo-list/handlers/todos.ts:17-24 | A successful create appends exactly one record at the end. Its id is the old `nextId` and exceeds every existing id. Its text is the trimmed input, `done` is false and `created` is the given time. `nextId` grows by one and the answer is 201 with that record. |
| `Handlers.CreateKeepsValid` | todo-list/handlers/todos.ts:17-23 | `create` keeps the store invariant and the declared record shape. |
| `Handlers.UpdateStep` | todo-list/handlers/todos.ts:30-44 | An unknown id answers 404 "Not found", before any body read. A failed read or a `null` body answers 400 "Invalid request body". Neither changes the store. Otherwise only the first matching record is patched, all other records, the order and `nextId` stay, and the answer is 200 with the patched record. |
| `Handlers.UpdateKeepsValid` | todo-list/handlers/todos.ts:37-39 | A PATCH changes no id and not the counter, so it keeps the store invariant. |
| `Handlers.RemoveStep` | todo-list/handlers/todos.ts:46-55 | An unknown id answers 404 "Not found" and changes nothing. Otherwise the first matching record is spliced out and the answer is 204 with no body. |
| `Handlers.RemoveKeepsValid` | todo-list/handlers/todos.ts:47-52 | A delete keeps the store invariant, and afterwards no record carries the deleted id. |
| `Handlers.RemoveTwice` | todo-list/handlers/todos.ts:47-54 | Deleting a present id answers 204, and deleting it again answers 404 "Not found". |
| `Handlers.UpdateKeepsShape` | todo-list/handlers/todos.ts:37-39 | When the PATCH fields have the declared types (`text` a string, `done` a boolean), a store of well-shaped records stays well-shaped. |
| `Handlers.PatchStoresBlankText` | todo-list/handlers/todos.ts:38 | A PATCH with `text: ""` on a present id answers 200 and stores the empty string. |
| `Handlers.GetAll` | todo-list/handlers/todos.ts:6-8 | Answers as `ListStep` and modifies nothing. |
| `Handlers.Create` | todo-list/handlers/todos.ts:10-28 | The response and the new store are those of `CreateStep` applied to the `getBody` outcome. |
| `Handlers.Update` | todo-list/handlers/todos.ts:30-44 | The response and the new store are those of `UpdateStep`. The record is looked up before the body is read. |
| `Handlers.Remove` | todo-list/handlers/todos.ts:46-55 | The response and the new store are those of `RemoveStep`. |
| `Router.TodoIdOfShow` | todo-list/router.ts:24-26 | `/api/todos/<n>` matches with id `n`. So does `/api/todos/0<n>`, because leading zeros are ignored. |
| `Router.MethodOf` | todo-list/router.ts:9 | The request method, with `GET` when none is given (`Router.MissingMethodIsGet`). |
| `Router.TodoIdOf` | todo-list/router.ts:24-26 | `^/api/todos/(\d+)$` followed by `parseInt` of the digits. `Router.TodoIdOfShow` and `Router.TodoIdOfRejects` state what it accepts and yields. |
| `Router.StaticPath` | todo-list/router.ts:40-44 | The static file path: `public/index.html` for `/`, otherwise `public` followed by the pathname (`Router.StaticRouteExamples`, `Server.UnknownHtmlIsStatic`). |
| `Router.Resolve` | todo-list/router.ts:9-45 | The route chosen for a method and pathname. `Router.RouteTable` characterises every branch. |
| `Router.TodoIdOfRejects` | todo-list/router.ts:24 | `/api/todos/`, `/api/todos/abc`, `/api/todos/5/`, `/api/todos/-1` and `/api/todos` do not match. |
| `Router.RouteTable` | todo-list/router.ts:11-45 | GET and POST on `/api/todos` go to list and create, and only those requests do. PATCH and DELETE on a matching id path go to update and remove with the parsed id. Every other request, whatever its method, goes to static serving of `StaticPath(pathname)`. |
| `Router.MissingMethodIsGet` | todo-list/router.ts:9 | A request without a method is routed as GET. |
| `Router.IdRouteExamples` | todo-list/router.ts:24-36 | `PATCH /api/todos/007` updates id 7 and `DELETE /api/todos/42` removes id 42. |
| `Router.StaticRouteExamples` | todo-list/router.ts:39-45 | `PUT /api/todos` falls through to static files, and `/` maps to `public/index.html`. |
| `Router.NonNumericIdIsStatic` | todo-list/router.ts:24-45 | `PATCH /api/todos/abc` is not an id request and falls through to static files. |
| `Router.GetOnIdIsStatic` | todo-list/router.ts:24-45 | `GET /api/todos/5` matches the id pattern but not PATCH or DELETE, so it falls through to static files. |
| `Router.StepKeepsValid` | todo-list/router.ts:12-45 | Every route keeps the store invariant. Listing and static serving leave the store unchanged. |
| `Router.Step` | todo-list/router.ts:12-45 | A route applied to the store: the list, create, update or remove step, or static serving, which leaves the store alone. `Router.StepKeepsValid` and `Router.StepHeaders` state its guarantees. |
| `Router.StepHeaders` | todo-list/router.ts:12-45 | No answer sets any header of its own other than `Content-Type` and `Content-Length`. |
| `Router.Execute` | todo-list/router.ts:12-45 | Each route runs its handler, and the result is that of `Step`. |
| `Router.Dispatch` | todo-list/router.ts:6-46 | `router` runs the route chosen by `Resolve`. |
| `Cors.WithCors` | todo-list/middleware/cors.ts:3-7 | Afterwards the origin header is `*`, the methods header is exactly `GET, POST, PATCH, DELETE, OPTIONS` and the headers header is `Content-Type`. Every other header is unchanged and no other header is added. |
| `Cors.WithCorsIdempotent` | todo-list/middleware/cors.ts:3-7 | Applying the CORS headers twice gives the same map as applying them once. |
| `Cors.MergeKeepsCors` | todo-list/middleware/cors.ts:3-7 | Headers given later to `writeHead` that set no CORS header leave all three CORS values in place. |
| `Cors.ApplyCors` | todo-list/middleware/cors.ts:3-7 | The response's header map becomes `WithCors` of the old one, and nothing is sent. |
| `Cors.HandlePreflight` | todo-list/middleware/cors.ts:9-16 | Returns true exactly for method `OPTIONS`, and then sends 204 with no body. Otherwise nothing is written. |
| `Static.ContentType` | todo-list/utils/static.ts:16 | The table's entry for an extension in the table. `application/octet-stream` exactly for every key not in the table. |
| `Static.ContentTypeExamples` | todo-list/utils/static.ts:5-12 | The six table entries. The empty extension, `.HTML` and `.txt` fall to the default because the match is exact. |
| `Static.ServeStatic` | todo-list/utils/static.ts:14-27 | The status is 200 exactly when the read succeeded. A failed read gives 404 with `Content-Type: text/plain` and body `Not Found`. A successful read gives the looked-up content type and the file bytes unchanged. |
| `Http.SendJSON` | todo-list/utils/http.ts:3-10 | Writes the given status with the value as body, and exactly two headers: `Content-Type: application/json` and `Content-Length`. |
| `Http.Wire` | todo-list/utils/http.ts:9 | The bytes `res.end` writes. They are empty exactly when the body is empty, an empty text or an empty file, so a JSON body is never empty on the wire. |
| `Http.ContentLengthIsExact` | todo-list/utils/http.ts:4-9 | The declared `Content-Length` is a decimal numeral without leading zeros, and its value is the number of bytes written. |
| `Http.SendError` | todo-list/utils/http.ts:12-14 | A JSON response of the given status whose body is `{error: message}`. |
| `Http.ErrorBodyText` | todo-list/utils/http.ts:12-14 | The bytes written are `{"error":` followed by the quoted message and `}`, and the Content-Length counts them. |
| `Http.GetBody` | todo-list/utils/http.ts:16-29 | A stream error rejects. A body whose chunks are all empty resolves to `{}`. Otherwise the result is the parse of the concatenated text, and a text `JSON.parse` rejects gives `Invalid JSON`. |
| `Http.GetBodyOneChunk` | todo-list/utils/http.ts:18-24 | A body that arrives as one non-empty chunk resolves to what `JSON.parse` makes of it, or rejects with `Invalid JSON`. |
| `Http.ReadBody` | todo-list/utils/http.ts:18-26 | Accumulating `raw` chunk by chunk and then deciding gives exactly `GetBody`. |
| `Http.ConcatAppend` | todo-list/utils/http.ts:19 | The raw text is the chunks appended in arrival order, wherever the stream splits them. |
| `Http.Concat` | todo-list/utils/http.ts:19 | The raw text `raw += chunk` accumulates: the chunks in arrival order (`Http.ConcatAppend`, `Http.ConcatEmptyIff`). |
| `Http.ConcatEmptyIff` | todo-list/utils/http.ts:22 | The raw text is empty exactly when every chunk is empty, including when none arrived. |
| `Http.ServerResponse.constructor` | todo-list/server.ts:91 | A fresh response has no headers and has sent nothing. |
| `Http.ServerResponse.SetHeader` | todo-list/middleware/cors.ts:4-6 | `setHeader` sets one header and sends nothing. |
| `Http.ServerResponse.Send` | todo-list/utils/http.ts:5-9 | `writeHead` + `end` sends the status and body. The accumulated headers are merged with the `writeHead` headers, and the latter win. |
| `Json.Get` | todo-list/utils/http.ts:22 | A property of a parsed object is absent exactly when no member has the key. Otherwise it is the value of the last member with that key. |
| `Json.EscapeChar` | todo-list/utils/http.ts:4 | How `JSON.stringify` writes one character of a string. A character that is not a quote, a backslash or a control character is copied; any other becomes an escape of 2 to 6 characters starting with a backslash. |
| `Json.Escape` | todo-list/utils/http.ts:4 | The escaped text of a string, at least as long as the string and at most six times as long. |
| `Json.Quote` | todo-list/utils/http.ts:4 | A string literal: at least two characters, opening and closing with a double quote. |
| `Json.Stringify` | todo-list/utils/http.ts:4 | `JSON.stringify` without white space: never empty, and an object is written between braces. |
| `Json.EscapePlain` | todo-list/utils/http.ts:4 | `JSON.stringify` copies text without quotes, backslashes or control characters unchanged. |
| `Json.StringifyOneMember` | todo-list/utils/http.ts:4 | An object with one member is written as `{`, the quoted key, `:`, the value and `}`, with no white space. |
| `Json.QuoteErrorKey` | todo-list/utils/http.ts:13 | The key `error` is written as `"error"`, without escapes. |
| `Json.ErrorEnvelopeText` | todo-list/utils/http.ts:13 | The error envelope is written as `{"error":` followed by the quoted message and `}`. |
| `Utf8.EncodeLength` | todo-list/utils/http.ts:4-9 | `Buffer.byteLength` counts exactly the bytes that `end` writes for the string. |
| `Utf8.ByteLength` | todo-list/utils/http.ts:7 | `Buffer.byteLength`: between one and four bytes per character. |
| `Utf8.Encode` | todo-list/utils/http.ts:9 | The UTF-8 bytes of a string: between one and four bytes per character, and as many as `Utf8.ByteLength` counts (`Utf8.EncodeLength`). |
| `Utf8.Width` | todo-list/utils/http.ts:7 | Each character takes 1 to 4 bytes in `Buffer.byteLength`. |
| `Utf8.EncodeChar` | todo-list/utils/http.ts:7 | A character encodes to 1 to 4 bytes. The lead byte is below 0x80 exactly for one-byte characters, and every continuation byte lies in 0x80..0xBF. |
| `Decimal.Show` | todo-list/utils/http.ts:7 | A Content-Length number is rendered as a non-empty digit string without a leading zero. |
| `Decimal.Parse` | todo-list/router.ts:26 | `parseInt(digits, 10)`. It is zero exactly when every digit is `0`. |
| `Decimal.ParseShow` | todo-list/router.ts:26 | `parseInt` of a rendered number gives the number back. |
| `Decimal.ShowParse` | todo-list/router.ts:26 | A canonical numeral is the rendering of its value, so ids and canonical id paths correspond one to one. |
| `Decimal.ParsePositive` | todo-list/router.ts:26 | A digit string that does not start with `0` parses to a positive number. |
| `Decimal.ParseLeadingZero` | todo-list/router.ts:26 | A leading zero does not change the parsed id. |
| `Text.TrimEmptyIff` | todo-list/handlers/todos.ts:13 | `trim()` gives the empty string, which counts as false, exactly when every character is white space or a line terminator. |
| `Text.Trim` | todo-list/handlers/todos.ts:13-19 | `String.prototype.trim`: the text between the trimmable prefix and suffix. `Text.TrimIsInfix`, `Text.TrimDropsOnlyWhiteSpace`, `Text.TrimEnds`, `Text.TrimEmptyIff` and `Text.TrimIdempotent` state its properties. |
| `Text.TrimIsInfix` | todo-list/handlers/todos.ts:19 | `trim()` returns a contiguous piece of the text that starts right after its leading white space. |
| `Text.TrimDropsOnlyWhiteSpace` | todo-list/handlers/todos.ts:19 | Every character before and after the piece `trim()` returns is white space or a line terminator. |
| `Text.TrimEnds` | todo-list/handlers/todos.ts:19 | Neither the first nor the last character of a non-empty `trim()` result is trimmable, so all surrounding white space is gone. |
| `Text.TrimIdempotent` | todo-list/handlers/todos.ts:19 | Trimming stored text again changes nothing. |
| `Text.LeadingCount` | todo-list/handlers/todos.ts:19 | The length of the longest prefix of white space and line terminators: every character before it is trimmable and the next one is not. |
| `Text.TrailingCount` | todo-list/handlers/todos.ts:19 | The length of the longest suffix of white space and line terminators: every character in it is trimmable and the one before it is not. |
| `Server.SameRoutes` | todo-list/server.ts:106-169 | The inline dispatch chain picks the same route as the separate router for every method and pathname. |
| `Server.ServerRoute` | todo-list/server.ts:106-169 | The inline chain of route tests of the single-file server (`Server.SameRoutes`). |
| `Server.Serve` | todo-list/server.ts:100-169 | One request of the single-file server: `OPTIONS` answers 204, and every other request takes the step of its route. `Server.PreflightShortCircuits` and `Server.ServeKeepsValid` state its guarantees. |
| `Server.CreateRoute` | todo-list/server.ts:113 | `POST /api/todos` takes the create branch. |
| `Server.ServeCreate` | todo-list/server.ts:113-131 | A `POST /api/todos` runs `create` on the body `getBody` settles with. |
| `Server.PreflightShortCircuits` | todo-list/server.ts:100-104 | `OPTIONS` on any path answers 204 with no body and never touches the store. |
| `Server.ServeKeepsValid` | todo-list/server.ts:113-161 | Every request keeps the store invariant. |
| `Server.NoCorsClash` | todo-list/server.ts:96-98 | No answer sets a CORS header itself, so the values set before dispatch survive. |
| `Server.Handle` | todo-list/server.ts:91-170 | CORS headers are set before any dispatch and are present on every response sent. The store and the response are those of `Serve`, where `OPTIONS` answers before routing and the create, patch and delete branches are the handlers' steps. |
| `Server.PlainTextAccepted` | todo-list/server.ts:116-122 | The text `x` passes the check and is stored as it is. |
| `Server.CreateOnSeedGetsId3` | todo-list/server.ts:113-131 | On the seeded store, `POST /api/todos {"text":"x"}` answers 201 with id 3, and the counter becomes 4. |
| `Server.BlankTextIsMissing` | todo-list/server.ts:116 | A `text` of two spaces counts as missing. |
| `Server.BlankTextRefused` | todo-list/server.ts:116-119 | `POST /api/todos {"text":"  "}` answers 400 "Text is required" and changes nothing. |
| `Server.PatchRoute999` | todo-list/server.ts:135-137 | `PATCH /api/todos/999` takes the PATCH branch with id 999. |
| `Server.PatchUnknownId` | todo-list/server.ts:135-139 | `PATCH /api/todos/999` on the seeded store answers 404 "Not found", whatever the body. |
| `Server.UnknownHtmlIsStatic` | todo-list/server.ts:106-168 | `GET /unknown.html` matches no API branch and is served from `public/unknown.html`. |
| `Server.MissingFileIs404` | todo-list/server.ts:74-87 | `GET /unknown.html` with no such file answers a plain-text 404 `Not Found` and changes nothing. |

## Left out

- Network and process I/O are not modelled: `http.createServer`, `server.listen`, the port
  and `console.log`.
- Library behaviour enters only as parameters. This covers `fs.readFile`, `path.extname`,
  `JSON.parse` and the clock (`new Date().toISOString()`).
- `new URL(...)` is not modelled: a request carries its pathname already extracted.
- Router.StaticPath: `path.join`'s normalisation is not modelled, and neither is the
  module-directory prefix. The static path is `public` followed by the pathname. No
  containment under `public/` is enforced by the source, and none is claimed.
- Static.ContentType: a plain-object lookup could also find inherited keys such as
  `constructor`. `path.extname` returns only `""` or a string starting with `.`, which no
  inherited key does, so the model uses an exact map lookup.
- Asynchrony and interleaving are not modelled. Each request runs to completion before the
  next one starts. In the source, `update` looks the record up before awaiting the body, so
  a concurrent `remove` could detach it in between. The model does not capture that case.
- Http.BodyRead: chunks arrive as text. Node decodes each chunk separately
  (`chunk.toString()`), so a multi-byte character split across two chunks would be garbled.
  That decoding is not modelled.
- Json.Value: numbers are integers, because `JSON.parse` can produce fractions and
  exponents that the service only ever passes through. Parsed objects are member lists, and
  a property read takes the last member with the key. Special keys such as `__proto__` are
  not modelled.
- Json.Stringify: an object is written member by member, in the order of its member list.
  JavaScript objects differ in two ways. `JSON.parse` keeps one property per key (the last
  value, at the first occurrence's position). Integer-like keys come first, in ascending
  order. `Router.Env`'s `parse` is not constrained to such objects. So when a PATCH stores
  an object with a repeated or integer-like key in `text` or `done`, the echoed JSON can
  differ from the source's, and its Content-Length with it. Dafny strings are sequences of
  Unicode scalar values, so a parsed string holding a lone surrogate (`"\ud800"`) cannot be
  represented either.
- TodoStore.Store.IncrementId: the counter is an unbounded `nat`. In the source `nextId` is
  a JavaScript number, so `nextId++` (`todo-list/store/todos.ts:11`, `todo-list/server.ts:121`)
  stops growing at 2^53, and every later create would reuse id 2^53. The distinct-id
  invariant (`Handlers.CreateAppends`, `Handlers.CreateKeepsValid`, `Server.ServeKeepsValid`)
  holds for the source only while the counter stays below 2^53.
- Decimal.Parse: ids are unbounded naturals. JavaScript loses precision in `parseInt` for
  digit strings above 2^53, and that is not modelled.
- HTTP header names are case-insensitive in Node. The model compares them exactly; the
  service never sets one name in two spellings.
- Headers Node adds by itself (`Date`, `Connection`, `Transfer-Encoding`) are not modelled.
- `todo-list/types/index.ts` has no behaviour. It gives only the `Todo` shape and the
  `Types.WellTyped` predicate.
- The payment-service stub and the crash-course server with its test are not part of this
  model. They contain no todo-list logic.
