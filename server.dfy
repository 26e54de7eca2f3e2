/** The single-file server: every request gets the CORS headers, an `OPTIONS` request is
    answered with 204 before routing, and the rest goes through its own inline chain of
    route tests to the same store operations as the handlers. */
module Server {
  import opened Wrappers
  import opened Http
  import Json
  import opened Types
  import opened TodoStore
  import Handlers
  import Static
  import Cors
  import Text
  import Decimal
  import opened Router

  /** The inline tests of the request callback, in order. */
  function ServerRoute(verb: Option<string>, pathname: string): Route {
    var m := MethodOf(verb);
    if pathname == Collection && m == "GET" then ListTodos
    else if pathname == Collection && m == "POST" then CreateTodo
    else if TodoIdOf(pathname).Some? && m == "PATCH" then UpdateTodo(TodoIdOf(pathname).value)
    else if TodoIdOf(pathname).Some? && m == "DELETE" then DeleteTodo(TodoIdOf(pathname).value)
    else ServeFile(StaticPath(pathname))
  }

  /** The inline chain and the separate router pick the same route for every request. */
  lemma SameRoutes(verb: Option<string>, pathname: string)
    ensures ServerRoute(verb, pathname) == Resolve(verb, pathname)
  {
  }

  /** What the server answers (before the CORS headers are merged in) and the store after. */
  function Serve(s: StoreState, req: Request, env: Env): Handlers.Outcome {
    if MethodOf(req.verb) == "OPTIONS" then Handlers.Outcome(NoContent, s)
    else Step(s, ServerRoute(req.verb, req.pathname), req, env)
  }

  /** A preflight, on any path, answers 204 with no body and never touches the store. */
  lemma PreflightShortCircuits(s: StoreState, req: Request, env: Env)
    requires req.verb == Some("OPTIONS")
    ensures Serve(s, req, env) == Handlers.Outcome(Response(204, map[], Empty), s)
  {
  }

  /** Every request keeps the store invariant. */
  lemma ServeKeepsValid(s: StoreState, req: Request, env: Env)
    ensures ValidState(s) ==> ValidState(Serve(s, req, env).state)
  {
    if MethodOf(req.verb) != "OPTIONS" {
      StepKeepsValid(s, ServerRoute(req.verb, req.pathname), req, env);
    }
  }

  /** No answer sets a CORS header itself, so the values set first survive the merge. */
  lemma NoCorsClash(s: StoreState, req: Request, env: Env)
    ensures forall k :: k in Cors.CorsHeaders ==> k !in Serve(s, req, env).response.headers
  {
    if MethodOf(req.verb) != "OPTIONS" {
      StepHeaders(s, ServerRoute(req.verb, req.pathname), req, env);
    }
    assert forall k :: k in Cors.CorsHeaders ==> k != "Content-Type" && k != "Content-Length";
  }

  /** The request callback of `http.createServer`. */
  method Handle(store: Store, res: ServerResponse, req: Request, env: Env)
    requires res.sent == None
    modifies store, res
    ensures var o := Serve(old(store.State()), req, env);
      && store.State() == o.state
      && res.sent == Some(Response(o.response.status, Cors.WithCors(old(res.headers)) + o.response.headers, o.response.body))
    ensures res.sent.value.headers[Cors.AllowOrigin] == "*"
    ensures res.sent.value.headers[Cors.AllowMethods] == "GET, POST, PATCH, DELETE, OPTIONS"
    ensures res.sent.value.headers[Cors.AllowHeaders] == "Content-Type"
  {
    ghost var o := Serve(store.State(), req, env);
    NoCorsClash(store.State(), req, env);
    Cors.MergeKeepsCors(res.headers, o.response.headers);
    Cors.ApplyCors(res);
    var handled := Cors.HandlePreflight(req.verb, res);
    if handled {
      assert res.headers + NoContent.headers == res.headers;
      return;
    }
    var r := Execute(store, ServerRoute(req.verb, req.pathname), req, env);
    res.Send(r);
  }

  /** A seeded store (ids 1 and 2, counter 3). */
  function Seeded(): StoreState {
    StoreState(Seed("t1", "t2"), 3)
  }

  /** `POST /api/todos` is the create route. */
  lemma CreateRoute()
    ensures ServerRoute(Some("POST"), "/api/todos") == CreateTodo
  {
  }

  /** A `POST /api/todos` runs `create` on the body `getBody` settles with. */
  lemma ServeCreate(s: StoreState, req: Request, env: Env)
    requires req.verb == Some("POST") && req.pathname == Collection
    ensures Serve(s, req, env) == Handlers.CreateStep(s, GetBody(req.body, env.parse), env.now)
  {
    CreateRoute();
  }

  /** The text `x` is accepted as it is. */
  lemma PlainTextAccepted()
    ensures Handlers.CheckCreate(Ok(Json.Obj([Json.Member("text", Json.Str("x"))]))) == Handlers.Accepted("x")
  {
    assert Handlers.Property(Json.Obj([Json.Member("text", Json.Str("x"))]), "text") == Some(Json.Str("x"));
    assert Text.LeadingCount("x") == 0;
    assert Text.TrailingCount("x") == 0;
  }

  /** `POST /api/todos {"text":"x"}` on the seeded store answers 201 with id 3. */
  lemma CreateOnSeedGetsId3(env: Env)
    requires env.parse("{\"text\":\"x\"}") == Some(Json.Obj([Json.Member("text", Json.Str("x"))]))
    ensures var o := Serve(Seeded(), Request(Some("POST"), "/api/todos", Chunks(["{\"text\":\"x\"}"])), env);
      o.response == SendJSON(201, TodoJson(Todo(3, Json.Str("x"), Json.Bool(false), env.now)))
      && o.state.nextId == 4
  {
    var raw := "{\"text\":\"x\"}";
    var body := Ok(Json.Obj([Json.Member("text", Json.Str("x"))]));
    GetBodyOneChunk(raw, env.parse);
    ServeCreate(Seeded(), Request(Some("POST"), "/api/todos", Chunks([raw])), env);
    PlainTextAccepted();
    Handlers.CreateAppends(Seeded(), body, env.now);
  }

  /** A `text` of two spaces is missing text. */
  lemma BlankTextIsMissing()
    ensures Handlers.CheckCreate(Ok(Json.Obj([Json.Member("text", Json.Str("  "))]))) == Handlers.TextRequired
  {
    var v := Json.Obj([Json.Member("text", Json.Str("  "))]);
    assert Handlers.Property(v, "text") == Some(Json.Str("  "));
    assert Text.AllTrimmable("  ");
    Text.TrimEmptyIff("  ");
  }

  /** `POST /api/todos {"text":"  "}` answers 400 `Text is required`. */
  lemma BlankTextRefused(s: StoreState, env: Env)
    requires env.parse("{\"text\":\"  \"}") == Some(Json.Obj([Json.Member("text", Json.Str("  "))]))
    ensures Serve(s, Request(Some("POST"), "/api/todos", Chunks(["{\"text\":\"  \"}"])), env)
            == Handlers.Outcome(SendError(400, "Text is required"), s)
  {
    var raw := "{\"text\":\"  \"}";
    var body := Ok(Json.Obj([Json.Member("text", Json.Str("  "))]));
    GetBodyOneChunk(raw, env.parse);
    ServeCreate(s, Request(Some("POST"), "/api/todos", Chunks([raw])), env);
    BlankTextIsMissing();
    Handlers.CreateRefused(s, body, env.now);
  }

  /** `/api/todos/999` is the id path of 999. */
  lemma PatchRoute999()
    ensures ServerRoute(Some("PATCH"), "/api/todos/999") == UpdateTodo(999)
  {
    var p := "/api/todos/999";
    assert p[..|ItemPrefix|] == ItemPrefix && p[|ItemPrefix|..] == "999";
    assert Decimal.Parse("999") == 999 by {
      assert "999"[..2] == "99" && "99"[..1] == "9";
    }
  }

  /** `PATCH /api/todos/999` on the seeded store answers 404, whatever the body. */
  lemma PatchUnknownId(read: BodyRead, env: Env)
    ensures Serve(Seeded(), Request(Some("PATCH"), "/api/todos/999", read), env).response
            == SendError(404, "Not found")
  {
    PatchRoute999();
    assert Handlers.IndexOf(Seeded().todos, 999) == -1;
    assert Serve(Seeded(), Request(Some("PATCH"), "/api/todos/999", read), env)
           == Handlers.UpdateStep(Seeded(), 999, GetBody(read, env.parse));
  }

  /** `/unknown.html` is neither the collection nor an id path: a static file request. */
  lemma UnknownHtmlIsStatic()
    ensures ServerRoute(Some("GET"), "/unknown.html") == ServeFile("public/unknown.html")
  {
    var p := "/unknown.html";
    assert TodoIdOf(p) == None by {
      assert p[..|ItemPrefix|] != ItemPrefix by {
        assert p[1] != ItemPrefix[1];
      }
    }
    assert p != Collection by {
      assert p[1] != Collection[1];
    }
    assert StaticPath(p) == "public/unknown.html";
  }

  /** `GET /unknown.html` with no such file answers a plain-text 404 `Not Found`. */
  lemma MissingFileIs404(s: StoreState, read: BodyRead, env: Env)
    requires env.readFile("public/unknown.html") == Static.ReadFailed
    ensures Serve(s, Request(Some("GET"), "/unknown.html", read), env)
            == Handlers.Outcome(Response(404, map["Content-Type" := "text/plain"], TextBody("Not Found")), s)
  {
    UnknownHtmlIsStatic();
  }

}
