/** The router: a pure decision from method and pathname to a route, and the delegation
    of each route to its handler or to static file serving. */
module Router {
  import opened Wrappers
  import opened Http
  import Json
  import Decimal
  import opened TodoStore
  import Handlers
  import Static

  datatype Route = ListTodos | CreateTodo | UpdateTodo(id: nat) | DeleteTodo(id: nat) | ServeFile(filePath: string)

  /** A request as the router sees it: `req.method` (possibly absent), the pathname
      already taken out of the URL, and the finished body stream. */
  datatype Request = Request(verb: Option<string>, pathname: string, body: BodyRead)

  /** What the service takes from outside: `JSON.parse`, `path.extname`, `fs.readFile`
      and the clock reading used as a creation time. */
  datatype Env = Env(parse: string -> Option<Json.Value>, extname: string -> string,
                     readFile: string -> Static.FileRead, now: string)

  const Collection := "/api/todos"
  const ItemPrefix := "/api/todos/"

  /** `req.method ?? 'GET'`. */
  function MethodOf(verb: Option<string>): string {
    verb.GetOr("GET")
  }

  /** `pathname.match(/^\/api\/todos\/(\d+)$/)` followed by `parseInt(match[1], 10)`. */
  function TodoIdOf(pathname: string): Option<nat> {
    if |pathname| > |ItemPrefix| && pathname[..|ItemPrefix|] == ItemPrefix && Decimal.AllDigits(pathname[|ItemPrefix|..])
    then Some(Decimal.Parse(pathname[|ItemPrefix|..]))
    else None
  }

  /** An id path for every number, and leading zeros ignored: `/api/todos/<n>` and
      `/api/todos/0<n>` both give `n`. */
  lemma TodoIdOfShow(n: nat)
    ensures TodoIdOf(ItemPrefix + Decimal.Show(n)) == Some(n)
    ensures TodoIdOf(ItemPrefix + "0" + Decimal.Show(n)) == Some(n)
  {
    var digits := Decimal.Show(n);
    assert (ItemPrefix + digits)[|ItemPrefix|..] == digits;
    assert (ItemPrefix + "0" + digits)[|ItemPrefix|..] == "0" + digits;
    Decimal.ParseShow(n);
    Decimal.ParseLeadingZero(digits);
  }

  /** Paths the matcher refuses: no digits, a non-digit, a trailing slash, a sign, the
      collection itself. */
  lemma TodoIdOfRejects()
    ensures TodoIdOf("/api/todos/") == None
    ensures TodoIdOf("/api/todos/abc") == None
    ensures TodoIdOf("/api/todos/5/") == None
    ensures TodoIdOf("/api/todos/-1") == None
    ensures TodoIdOf("/api/todos") == None
  {
    assert !Decimal.IsDigit("/api/todos/abc"[|ItemPrefix|]);
    assert !Decimal.IsDigit("/api/todos/5/"[|ItemPrefix| + 1]);
    assert !Decimal.IsDigit("/api/todos/-1"[|ItemPrefix|]);
  }

  /** The file behind a non-API path: `public/index.html` for `/`, otherwise the pathname
      under `public`. */
  function StaticPath(pathname: string): string {
    if pathname == "/" then "public/index.html" else "public" + pathname
  }

  /** `router(req, res)`'s chain of tests. */
  function Resolve(verb: Option<string>, pathname: string): Route {
    var m := MethodOf(verb);
    if pathname == Collection && m == "GET" then ListTodos
    else if pathname == Collection && m == "POST" then CreateTodo
    else match TodoIdOf(pathname)
      case Some(id) =>
        if m == "PATCH" then UpdateTodo(id)
        else if m == "DELETE" then DeleteTodo(id)
        else ServeFile(StaticPath(pathname))
      case None => ServeFile(StaticPath(pathname))
  }

  /** The dispatch table. `GET` and `POST` on the collection list and create, and only
      they do; `PATCH` and `DELETE` on an id path update and remove that id; everything
      else, whatever its method, is a static file request, never a router error. */
  lemma RouteTable(verb: Option<string>, pathname: string)
    ensures var r, m := Resolve(verb, pathname), MethodOf(verb);
      && (r == ListTodos <==> pathname == Collection && m == "GET")
      && (r == CreateTodo <==> pathname == Collection && m == "POST")
      && (r.UpdateTodo? <==> m == "PATCH" && TodoIdOf(pathname).Some?)
      && (r.DeleteTodo? <==> m == "DELETE" && TodoIdOf(pathname).Some?)
      && (r.UpdateTodo? || r.DeleteTodo? ==> r.id == TodoIdOf(pathname).value)
      && (r.ServeFile? <==> !((pathname == Collection && (m == "GET" || m == "POST"))
                             || (TodoIdOf(pathname).Some? && (m == "PATCH" || m == "DELETE"))))
      && (r.ServeFile? ==> r.filePath == StaticPath(pathname))
  {
    TodoIdOfRejects();
  }

  /** A request without a method is routed as a `GET`. */
  lemma MissingMethodIsGet(pathname: string)
    ensures Resolve(None, pathname) == Resolve(Some("GET"), pathname)
  {
  }

  /** Sample id requests: the id is read with its leading zeros dropped. */
  lemma IdRouteExamples()
    ensures Resolve(Some("PATCH"), "/api/todos/007") == UpdateTodo(7)
    ensures Resolve(Some("DELETE"), "/api/todos/42") == DeleteTodo(42)
  {
    var p := "/api/todos/007";
    assert p[..|ItemPrefix|] == ItemPrefix && p[|ItemPrefix|..] == "007";
    Decimal.ParseLeadingZero("07");
    Decimal.ParseLeadingZero("7");
    assert "0" + "07" == "007" && "0" + "7" == "07";
    assert Decimal.Parse("007") == Decimal.Parse("7") == 7;
    assert TodoIdOf(p) == Some(7);
    var q := "/api/todos/42";
    assert q[..|ItemPrefix|] == ItemPrefix && q[|ItemPrefix|..] == "42";
    assert Decimal.Parse("42") == 42 by {
      assert "42"[..1] == "4";
    }
  }

  /** Sample requests on the collection path that fall through to static serving, and
      the root path. */
  lemma StaticRouteExamples()
    ensures Resolve(Some("PUT"), "/api/todos") == ServeFile("public/api/todos")
    ensures Resolve(None, "/") == ServeFile("public/index.html")
  {
    TodoIdOfRejects();
  }

  /** An id that is not all digits is not an id: the request falls through to static
      serving, even with PATCH. */
  lemma NonNumericIdIsStatic()
    ensures Resolve(Some("PATCH"), "/api/todos/abc") == ServeFile("public/api/todos/abc")
  {
    var p := "/api/todos/abc";
    assert TodoIdOf(p) == None by {
      assert !Decimal.IsDigit(p[|ItemPrefix|]);
    }
    assert p != Collection;
    assert StaticPath(p) == "public/api/todos/abc";
  }

  /** A valid id path with a method other than PATCH or DELETE falls through to static
      serving. */
  lemma GetOnIdIsStatic()
    ensures Resolve(Some("GET"), "/api/todos/5") == ServeFile("public/api/todos/5")
  {
    var p := "/api/todos/5";
    assert p != Collection;
    assert StaticPath(p) == "public/api/todos/5";
  }

  /** What carrying out a route does to the store and answers. */
  function Step(s: StoreState, route: Route, req: Request, env: Env): Handlers.Outcome {
    match route
    case ListTodos => Handlers.ListStep(s)
    case CreateTodo => Handlers.CreateStep(s, GetBody(req.body, env.parse), env.now)
    case UpdateTodo(id) => Handlers.UpdateStep(s, id, GetBody(req.body, env.parse))
    case DeleteTodo(id) => Handlers.RemoveStep(s, id)
    case ServeFile(path) => Handlers.Outcome(Static.ServeStatic(env.extname(path), env.readFile(path)), s)
  }

  /** Every route keeps the store invariant; listing and static files leave the store as
      it was. */
  lemma StepKeepsValid(s: StoreState, route: Route, req: Request, env: Env)
    ensures ValidState(s) ==> ValidState(Step(s, route, req, env).state)
    ensures route.ListTodos? || route.ServeFile? ==> Step(s, route, req, env).state == s
  {
    if ValidState(s) {
      match route
      case CreateTodo => Handlers.CreateKeepsValid(s, GetBody(req.body, env.parse), env.now);
      case UpdateTodo(id) => Handlers.UpdateKeepsValid(s, id, GetBody(req.body, env.parse));
      case DeleteTodo(id) => Handlers.RemoveKeepsValid(s, id);
      case _ =>
    }
  }

  /** Every answer sets at most `Content-Type` and `Content-Length` of its own. */
  lemma StepHeaders(s: StoreState, route: Route, req: Request, env: Env)
    ensures Step(s, route, req, env).response.headers.Keys <= {"Content-Type", "Content-Length"}
  {
    match route
    case CreateTodo =>
      var body := GetBody(req.body, env.parse);
      if Handlers.CheckCreate(body).Accepted? {
        Handlers.CreateAppends(s, body, env.now);
      } else {
        Handlers.CreateRefused(s, body, env.now);
      }
    case _ =>
  }

  /** Carries out a route by calling its handler. */
  method Execute(store: Store, route: Route, req: Request, env: Env) returns (r: Response)
    modifies store
    ensures Handlers.Outcome(r, store.State()) == Step(old(store.State()), route, req, env)
  {
    match route
    case ListTodos =>
      r := Handlers.GetAll(store);
    case CreateTodo =>
      r := Handlers.Create(store, req.body, env.parse, env.now);
    case UpdateTodo(id) =>
      r := Handlers.Update(store, id, req.body, env.parse);
    case DeleteTodo(id) =>
      r := Handlers.Remove(store, id);
    case ServeFile(path) =>
      r := Static.ServeStatic(env.extname(path), env.readFile(path));
  }

  /** `router(req, res, port)`. */
  method Dispatch(store: Store, req: Request, env: Env) returns (r: Response)
    modifies store
    ensures Handlers.Outcome(r, store.State()) == Step(old(store.State()), Resolve(req.verb, req.pathname), req, env)
  {
    r := Execute(store, Resolve(req.verb, req.pathname), req, env);
  }
}
