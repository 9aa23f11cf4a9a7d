/** The embedded web server's request-gating composition (`DicoogleWeb`):
    per-route access requirements (`Needs`), the servlet context handlers and
    the filters attached to them in order (CORS, then authentication, then the
    servlet), the recursive CORS pass over a dispatch tree, the context handler
    collection that plugins add branches to and remove them from, and `stop`. */
module Web {
  import opened JavaLang
  import AuthFilter

  const ContextPath := "/"
  const CrossOriginName := "cross-origin"
  const WebAppName := "webapp"
  const CorsAllowedMethods := "GET,POST,HEAD,PUT,DELETE"
  const CorsAllowedHeaders := "X-Requested-With,Content-Type,Accept,Origin,Authorization,Content-Length"
  /** Cache directive of the web UI module handler: private, for 30 days. */
  const ModuleCacheControl := "private, max-age=2592000"
  const ModuleServletPath := "/webui/module/*"

  // -----------------------------------------------------------------------
  // Access requirements
  // -----------------------------------------------------------------------

  /** What a route demands of its caller; a route with no `Needs` (null) is public. */
  datatype Needs = Needs(admin: bool, role: Option<string>)

  /** `Needs.admin()`: only administrators qualify. */
  function AdminNeeds(): (n: Needs)
    ensures forall u :: AuthFilter.Satisfies(n.admin, n.role, u) <==> u.isAdmin
  {
    Needs(true, None)
  }

  /** `Needs.role(role)`: administrators and holders of the role qualify. */
  function RoleNeeds(role: string): (n: Needs)
    ensures forall u :: AuthFilter.Satisfies(n.admin, n.role, u) <==> u.isAdmin || role in u.roles
  {
    Needs(false, Some(role))
  }

  /** `Needs.authenticated()`: every known user qualifies. */
  function AuthenticatedNeeds(): (n: Needs)
    ensures forall u :: AuthFilter.Satisfies(n.admin, n.role, u)
  {
    Needs(false, None)
  }

  // -----------------------------------------------------------------------
  // Filters, servlets and servlet context handlers
  // -----------------------------------------------------------------------

  /** A filter holder as registered on a context (all are mapped to every path
      for plain requests). */
  datatype FilterHolder =
    | CorsFilter(allowedOrigins: string, allowedMethods: string, allowedHeaders: string)
    | AuthenticatedFilter(initParams: map<string, string>)
    | CacheFilter(cacheControl: string)
    | GzipFilter

  /** A servlet bound to a path spec. */
  datatype ServletHolder = ServletHolder(servlet: string, pathSpec: string)

  /** The configuration of a servlet context, as a value. */
  datatype Ctx = Ctx(contextPath: string, displayName: Option<string>,
                     filters: seq<FilterHolder>, servlets: seq<ServletHolder>)

  /** A servlet context: the leaf of the dispatch tree that filters are attached to. */
  class ServletContextHandler {
    var contextPath: string
    var displayName: Option<string>
    var filters: seq<FilterHolder>
    var servlets: seq<ServletHolder>

    function State(): Ctx
      reads this
    {
      Ctx(contextPath, displayName, filters, servlets)
    }

    constructor ()
      ensures contextPath == ContextPath && displayName == None && filters == [] && servlets == []
    {
      contextPath := ContextPath;
      displayName := None;
      filters := [];
      servlets := [];
    }

    method SetContextPath(path: string)
      modifies this
      ensures contextPath == path
      ensures displayName == old(displayName) && filters == old(filters) && servlets == old(servlets)
    {
      contextPath := path;
    }

    method SetDisplayName(name: string)
      modifies this
      ensures displayName == Some(name)
      ensures contextPath == old(contextPath) && filters == old(filters) && servlets == old(servlets)
    {
      displayName := Some(name);
    }

    method AddFilter(f: FilterHolder)
      modifies this
      ensures filters == old(filters) + [f]
      ensures contextPath == old(contextPath) && displayName == old(displayName) && servlets == old(servlets)
    {
      filters := filters + [f];
    }

    method AddServlet(s: ServletHolder)
      modifies this
      ensures servlets == old(servlets) + [s]
      ensures contextPath == old(contextPath) && displayName == old(displayName) && filters == old(filters)
    {
      servlets := servlets + [s];
    }
  }

  /** The dispatch tree: servlet contexts are leaves; wrappers and collections
      (handler lists included) only hold children; other handlers are opaque. */
  datatype Handler =
    | Context(ctx: ServletContextHandler)
    | Wrapper(children: seq<Handler>)
    | Collection(children: seq<Handler>)
    | Other

  /** The servlet contexts of a tree, in traversal order, once per occurrence. */
  function Leaves(h: Handler): seq<ServletContextHandler>
    decreases h
  {
    match h
    case Context(c) => [c]
    case Wrapper(hs) => LeavesOf(hs)
    case Collection(hs) => LeavesOf(hs)
    case Other => []
  }

  function LeavesOf(hs: seq<Handler>): seq<ServletContextHandler>
    decreases hs
  {
    if hs == [] then [] else LeavesOf(hs[..|hs| - 1]) + Leaves(hs[|hs| - 1])
  }

  lemma {:induction false} LeavesOfAppend(a: seq<Handler>, b: seq<Handler>)
    ensures LeavesOf(a + b) == LeavesOf(a) + LeavesOf(b)
    decreases |b|
  {
    if b == [] {
      assert a + b == a;
    } else {
      var b' := b[..|b| - 1];
      var ab := a + b;
      assert ab[..|ab| - 1] == a + b' && ab[|ab| - 1] == b[|b| - 1];
      assert LeavesOf(ab) == LeavesOf(a + b') + Leaves(b[|b| - 1]);
      assert LeavesOf(b) == LeavesOf(b') + Leaves(b[|b| - 1]);
      LeavesOfAppend(a, b');
    }
  }

  lemma {:induction false} LeavesOfPrefix(hs: seq<Handler>, i: nat)
    requires i < |hs|
    ensures LeavesOf(hs[..i + 1]) == LeavesOf(hs[..i]) + Leaves(hs[i])
  {
    var p := hs[..i + 1];
    assert p[..|p| - 1] == hs[..i] && p[|p| - 1] == hs[i];
  }

  lemma {:induction false} LeavesOfSplit(hs: seq<Handler>, i: nat)
    requires i < |hs|
    ensures LeavesOf(hs) == LeavesOf(hs[..i]) + Leaves(hs[i]) + LeavesOf(hs[i + 1..])
  {
    LeavesOfPrefix(hs, i);
    var p := hs[..i + 1];
    assert p + hs[i + 1..] == hs;
    LeavesOfAppend(p, hs[i + 1..]);
  }

  lemma {:induction false} MemberOfMiddle(a: seq<ServletContextHandler>, b: seq<ServletContextHandler>,
                       c: seq<ServletContextHandler>, whole: seq<ServletContextHandler>)
    requires whole == a + b + c
    ensures forall x :: x in b ==> x in whole
  {
    forall x | x in b
      ensures x in whole
    {
      var j :| 0 <= j < |b| && b[j] == x;
      assert whole[|a| + j] == x;
    }
  }

  /** Each child's contexts are among the parent's. */
  lemma {:induction false} LeavesOfChild(hs: seq<Handler>, i: nat)
    requires i < |hs|
    ensures forall c :: c in Leaves(hs[i]) ==> c in LeavesOf(hs)
    ensures LeavesOf(hs[..i + 1]) == LeavesOf(hs[..i]) + Leaves(hs[i])
  {
    LeavesOfPrefix(hs, i);
    LeavesOfSplit(hs, i);
    MemberOfMiddle(LeavesOf(hs[..i]), Leaves(hs[i]), LeavesOf(hs[i + 1..]), LeavesOf(hs));
  }

  // -----------------------------------------------------------------------
  // The filters each kind of route gets
  // -----------------------------------------------------------------------

  /** What `addCORSFilter(ServletContextHandler)` appends: one CORS filter when
      allowed origins are configured, nothing otherwise. */
  function CorsFilters(origins: Option<string>): seq<FilterHolder> {
    if origins.Some? then [CorsFilter(origins.value, CorsAllowedMethods, CorsAllowedHeaders)] else []
  }

  /** `k` copies of a filter list, one after the other. */
  function Repeat(fs: seq<FilterHolder>, k: nat): (r: seq<FilterHolder>)
    ensures |r| == k * |fs|
  {
    if k == 0 then [] else Repeat(fs, k - 1) + fs
  }

  lemma {:induction false} RepeatAdd(fs: seq<FilterHolder>, a: nat, b: nat)
    ensures Repeat(fs, a + b) == Repeat(fs, a) + Repeat(fs, b)
    decreases b
  {
    if b > 0 {
      RepeatAdd(fs, a, b - 1);
    }
  }

  /** A context's state after `k` CORS passes: `k` more CORS filters, and the
      cross-origin display name once it got one. */
  function WithCors(s: Ctx, origins: Option<string>, k: nat): Ctx {
    s.(displayName := if origins.Some? && k > 0 then Some(CrossOriginName) else s.displayName,
       filters := s.filters + Repeat(CorsFilters(origins), k))
  }

  lemma {:induction false} WithCorsAdd(s: Ctx, origins: Option<string>, a: nat, b: nat)
    ensures WithCors(WithCors(s, origins, a), origins, b) == WithCors(s, origins, a + b)
  {
    RepeatAdd(CorsFilters(origins), a, b);
  }

  /** The CORS pass over a tree, between two states: each context among `ls`
      gained one CORS filter per occurrence in `done`; nothing else about it changed. */
  twostate predicate CorsAdded(ls: seq<ServletContextHandler>, done: seq<ServletContextHandler>,
                               origins: Option<string>)
    reads set c | c in ls
  {
    forall c :: c in ls ==> c.State() == WithCors(old(c.State()), origins, multiset(done)[c])
  }

  /** One step of the CORS pass over a list of children: if the contexts `ls`
      had, in the snapshot `before`, the filters for the occurrences in `pre`,
      and the pass over one more child added those for its contexts `child` and
      left the rest alone, they now have the filters for the occurrences in `pre + child`. */
  lemma {:induction false} CorsStep(ls: seq<ServletContextHandler>, pre: seq<ServletContextHandler>,
                 child: seq<ServletContextHandler>, entry: map<ServletContextHandler, Ctx>,
                 before: map<ServletContextHandler, Ctx>, origins: Option<string>)
    requires forall c :: c in ls ==> c in entry && c in before
    requires forall c :: c in child ==> c in ls
    requires forall c :: c in ls ==> before[c] == WithCors(entry[c], origins, multiset(pre)[c])
    requires forall c :: c in child ==> c.State() == WithCors(before[c], origins, multiset(child)[c])
    requires forall c :: c in ls && c !in child ==> c.State() == before[c]
    ensures forall c :: c in ls ==> c.State() == WithCors(entry[c], origins, multiset(pre + child)[c])
  {
    forall c | c in ls
      ensures c.State() == WithCors(entry[c], origins, multiset(pre + child)[c])
    {
      var k := multiset(pre)[c];
      var m := multiset(child)[c];
      assert multiset(pre + child)[c] == k + m;
      assert m > 0 <==> c in child;
      CorsStepAt(entry[c], before[c], c.State(), origins, k, m);
    }
  }

  /** `CorsStep` for one context, on its states alone. */
  lemma CorsStepAt(entry: Ctx, before: Ctx, now: Ctx, origins: Option<string>, k: nat, m: nat)
    requires before == WithCors(entry, origins, k)
    requires m == 0 ==> now == before
    requires m > 0 ==> now == WithCors(before, origins, m)
    ensures now == WithCors(entry, origins, k + m)
  {
    if m == 0 {
      assert before.filters + Repeat(CorsFilters(origins), 0) == before.filters;
    } else {
      WithCorsAdd(entry, origins, k, m);
    }
  }

  /** The init parameters `addAuthFilter` gives the authentication filter:
      `needsAdmin` always, as "true" or "false"; `needsRole` only for a role. */
  function AuthParams(needsAdmin: bool, needsRole: Option<string>): map<string, string> {
    var params := map[AuthFilter.NeedsAdminParam := BooleanToString(needsAdmin)];
    if needsRole.Some? then params[AuthFilter.NeedsRoleParam := needsRole.value] else params
  }

  /** The filters of a handler made by `createServletHandler`: CORS first, then
      the authentication filter when authorization is on and the route has a requirement. */
  function RouteFilters(origins: Option<string>, authEnabled: bool, needs: Option<Needs>): seq<FilterHolder> {
    CorsFilters(origins)
    + (if authEnabled && needs.Some?
       then [AuthenticatedFilter(AuthParams(needs.value.admin, needs.value.role))] else [])
  }

  /** The filters of the web UI module handler: CORS, authentication as a plain
      login requirement whatever the authorization setting, then the cache filter. */
  function ModuleFilters(origins: Option<string>): seq<FilterHolder> {
    CorsFilters(origins) + [AuthenticatedFilter(AuthParams(false, None)), CacheFilter(ModuleCacheControl)]
  }

  /** What one filter decides about a request: an authentication filter,
      initialised from its parameters, decides as `doFilter` does. In this model
      the CORS, cache and compression filters are assumed never to stop a
      request (the cache filter's 304 answer is not modelled). */
  function Gate(f: FilterHolder, req: AuthFilter.Request,
                sessions: map<string, AuthFilter.User>): AuthFilter.Decision
  {
    match f
    case AuthenticatedFilter(params) =>
      AuthFilter.Decide(AuthFilter.ParsedNeedsAdmin(params, false),
                        AuthFilter.ParsedNeedsRole(params, None), req, sessions)
    case _ => AuthFilter.Allow
  }

  /** Whether a request gets through a filter chain: it does exactly when every
      filter lets it through, and otherwise the chain answers as the first
      filter that refuses it. */
  function ChainDecision(fs: seq<FilterHolder>, req: AuthFilter.Request,
                         sessions: map<string, AuthFilter.User>): (d: AuthFilter.Decision)
    ensures d == AuthFilter.Allow <==> forall i :: 0 <= i < |fs| ==> Gate(fs[i], req, sessions) == AuthFilter.Allow
    ensures d != AuthFilter.Allow ==>
      exists i :: 0 <= i < |fs| && Gate(fs[i], req, sessions) == d
                  && forall j :: 0 <= j < i ==> Gate(fs[j], req, sessions) == AuthFilter.Allow
  {
    if fs == [] then AuthFilter.Allow
    else
      var g := Gate(fs[0], req, sessions);
      if g != AuthFilter.Allow then g
      else
        var d := ChainDecision(fs[1..], req, sessions);
        assert forall i :: 1 <= i < |fs| ==> fs[i] == fs[1..][i - 1];
        d
  }

  // -----------------------------------------------------------------------
  // The route table
  // -----------------------------------------------------------------------

  /** A route as declared at start-up. */
  datatype Route =
    | ServletRoute(servlet: string, path: string, needs: Option<Needs>, extra: seq<ServletHolder>)
    | WebUIModuleRoute
    | WebAppRoute

  function Plain(servlet: string, path: string, needs: Option<Needs>): Route {
    ServletRoute(servlet, path, needs, [])
  }

  /** The handlers registered at start-up, in order. */
  const RouteTable: seq<Route> := [
    Plain("RestletHttpServlet(PluginRestletApplication)", "/ext/*", None),
    Plain("RestletHttpServlet(LegacyRestletApplication)", "/legacy/*", Some(AuthenticatedNeeds())),
    Plain("ImageServlet", "/dic2png", Some(AuthenticatedNeeds())),
    Plain("ROIServlet", "/roi", Some(AuthenticatedNeeds())),
    Plain("TagsServlet", "/dictags", Some(AuthenticatedNeeds())),
    Plain("IndexerServlet", "/indexer", Some(AuthenticatedNeeds())),
    Plain("SettingsServlet", "/settings", Some(AuthenticatedNeeds())),
    ServletRoute("ExportToCSVServlet", "/export", Some(AuthenticatedNeeds()),
                 [ServletHolder("ExportCSVToFILEServlet", "/exportFile")]),
    Plain("LoginServlet", "/login", None),
    Plain("LogoutServlet", "/logout", None),
    Plain("UserServlet", "/user/*", Some(AdminNeeds())),
    Plain("SearchServlet", "/search", Some(AuthenticatedNeeds())),
    Plain("SearchServlet(PATIENT)", "/searchDIM", Some(AuthenticatedNeeds())),
    Plain("DumpServlet", "/dump", Some(AuthenticatedNeeds())),
    Plain("IndexerSettingsServlet(path)", "/management/settings/index/path", Some(AdminNeeds())),
    Plain("IndexerSettingsServlet(zip)", "/management/settings/index/zip", Some(AdminNeeds())),
    Plain("IndexerSettingsServlet(effort)", "/management/settings/index/effort", Some(AdminNeeds())),
    Plain("IndexerSettingsServlet(thumbnail)", "/management/settings/index/thumbnail", Some(AdminNeeds())),
    Plain("IndexerSettingsServlet(watcher)", "/management/settings/index/watcher", Some(AdminNeeds())),
    Plain("IndexerSettingsServlet(thumbnailSize)", "/management/settings/index/thumbnail/size", Some(AdminNeeds())),
    Plain("IndexerSettingsServlet(all)", "/management/settings/index", Some(AdminNeeds())),
    Plain("TransferOptionsServlet", "/management/settings/transfer", Some(AdminNeeds())),
    Plain("WadoServlet", "/wado", Some(AuthenticatedNeeds())),
    Plain("ProvidersServlet", "/providers", Some(AuthenticatedNeeds())),
    Plain("DicomQuerySettingsServlet", "/management/settings/dicom/query", Some(AdminNeeds())),
    Plain("DimTagsServlet", "/management/settings/dicom/tags", Some(AdminNeeds())),
    Plain("ForceIndexing", "/management/tasks/index", Some(AdminNeeds())),
    Plain("UnindexServlet", "/management/tasks/unindex", Some(AdminNeeds())),
    Plain("RemoveServlet", "/management/tasks/remove", Some(AdminNeeds())),
    Plain("ServicesServlet(STORAGE)", "/management/dicom/storage", Some(AdminNeeds())),
    Plain("ServicesServlet(QUERY)", "/management/dicom/query", Some(AdminNeeds())),
    Plain("AETitleServlet", "/management/settings/dicom", Some(AdminNeeds())),
    Plain("PluginsServlet", "/plugins/*", Some(AdminNeeds())),
    Plain("PresetsServlet", "/presets/*", Some(AuthenticatedNeeds())),
    Plain("WebUIServlet", "/webui", Some(AuthenticatedNeeds())),
    WebUIModuleRoute,
    Plain("LoggerServlet", "/logger", Some(AdminNeeds())),
    Plain("RunningTasksServlet", "/index/task", Some(AdminNeeds())),
    Plain("ExportServlet(EXPORT_CVS)", "/export/cvs", Some(AuthenticatedNeeds())),
    Plain("ExportServlet(LIST)", "/export/list", Some(AuthenticatedNeeds())),
    Plain("ServerStorageServlet", "/management/settings/storage/dicom", Some(AdminNeeds())),
    Plain("DatastoreServlet", "/ml/datastore", Some(AuthenticatedNeeds())),
    Plain("InferServlet", "/ml/infer/single", Some(AuthenticatedNeeds())),
    Plain("BulkInferServlet", "/ml/infer/bulk", Some(AuthenticatedNeeds())),
    Plain("TrainServlet", "/ml/train", Some(AuthenticatedNeeds())),
    Plain("ListAllModelsServlet", "/ml/model/list", Some(AuthenticatedNeeds())),
    Plain("ModelinfoServlet", "/ml/model/info", Some(AuthenticatedNeeds())),
    Plain("CacheServlet", "/ml/cache", Some(AuthenticatedNeeds())),
    Plain("ImplementedMethodsServlet", "/ml/provider/methods", Some(AuthenticatedNeeds())),
    WebAppRoute
  ]

  /** The filter chain a route's handler is built with. */
  function RouteChain(r: Route, origins: Option<string>, authEnabled: bool): seq<FilterHolder> {
    match r
    case ServletRoute(_, _, needs, _) => RouteFilters(origins, authEnabled, needs)
    case WebUIModuleRoute => ModuleFilters(origins)
    case WebAppRoute => [GzipFilter]
  }

  /** The servlets a route's handler is built with. */
  function RouteServlets(r: Route): seq<ServletHolder> {
    match r
    case ServletRoute(servlet, path, _, extra) => [ServletHolder(servlet, path)] + extra
    case WebUIModuleRoute => [ServletHolder("WebUIModuleServlet", ModuleServletPath)]
    case WebAppRoute => [ServletHolder("SearchHolderServlet", "/search/holders")]
  }

  /** The display name a route's handler ends up with. */
  function RouteDisplayName(r: Route, origins: Option<string>): Option<string> {
    if r.WebAppRoute? then Some(WebAppName)
    else if origins.Some? then Some(CrossOriginName) else None
  }

  // -----------------------------------------------------------------------
  // Removing a branch from the collection
  // -----------------------------------------------------------------------

  /** The collection without the given handler; everything else stays, in order. */
  function Without(hs: seq<Handler>, h: Handler): (r: seq<Handler>)
    ensures h !in r
    ensures forall i :: 0 <= i < |r| ==> r[i] in hs && r[i] != h
    ensures multiset(r) == multiset(hs)[h := 0]
  {
    if hs == [] then []
    else
      var last := hs[|hs| - 1];
      assert hs == hs[..|hs| - 1] + [last];
      if last == h then Without(hs[..|hs| - 1], h) else Without(hs[..|hs| - 1], h) + [last]
  }

  lemma {:induction false} WithoutAppend(a: seq<Handler>, b: seq<Handler>, h: Handler)
    ensures Without(a + b, h) == Without(a, h) + Without(b, h)
    decreases |b|
  {
    if b == [] {
      assert a + b == a;
    } else {
      var b' := b[..|b| - 1];
      assert (a + b)[..|a + b| - 1] == a + b';
      WithoutAppend(a, b', h);
    }
  }

  /** Removing a handler that is not there changes nothing. */
  lemma {:induction false} WithoutAbsent(hs: seq<Handler>, h: Handler)
    requires h !in hs
    ensures Without(hs, h) == hs
  {
    if hs != [] {
      var init, last := hs[..|hs| - 1], hs[|hs| - 1];
      assert last in hs && init + [last] == hs;
      WithoutAbsent(init, h);
      assert Without(hs, h) == Without(init, h) + [last];
    }
  }

  // -----------------------------------------------------------------------
  // The web server
  // -----------------------------------------------------------------------

  class DicoogleWeb {
    /** The allowed-origins setting (null when cross-origin requests are not configured). */
    const allowedOrigins: Option<string>
    /** Whether routes with a requirement get the authentication filter. */
    var authorizationEnabled: bool
    /** The server's context handler collection. */
    var contextHandlers: seq<Handler>
    var pluginHandler: ServletContextHandler?
    var legacyHandler: ServletContextHandler?
    /** Whether `server` is set. */
    var serverRunning: bool
    /** Whether the local image cache is set. */
    var cacheRunning: bool

    /** The handler a route declaration produces, as built. */
    predicate Built(h: ServletContextHandler, r: Route)
      reads this, h
    {
      h.contextPath == ContextPath
      && h.displayName == RouteDisplayName(r, allowedOrigins)
      && h.filters == RouteChain(r, allowedOrigins, authorizationEnabled)
      && h.servlets == RouteServlets(r)
    }

    constructor (allowUnauthorized: bool, origins: Option<string>)
      ensures allowedOrigins == origins
      ensures authorizationEnabled == !allowUnauthorized
      ensures |contextHandlers| == |RouteTable|
      ensures forall i :: 0 <= i < |RouteTable| ==>
        contextHandlers[i].Context? && fresh(contextHandlers[i].ctx) && Built(contextHandlers[i].ctx, RouteTable[i])
      ensures forall i, j :: 0 <= i < j < |contextHandlers| ==> contextHandlers[i] != contextHandlers[j]
      ensures pluginHandler == contextHandlers[0].ctx && legacyHandler == contextHandlers[1].ctx
      ensures serverRunning && cacheRunning
    {
      allowedOrigins := origins;
      authorizationEnabled := !allowUnauthorized;
      contextHandlers := [];
      pluginHandler := null;
      legacyHandler := null;
      serverRunning := false;
      cacheRunning := false;
      new;
      cacheRunning := true;
      var hs := BuildRoutes(RouteTable);
      contextHandlers := hs;
      pluginHandler := hs[0].ctx;
      legacyHandler := hs[1].ctx;
      serverRunning := true;
    }

    /** One freshly built context handler per route, in order. */
    method BuildRoutes(routes: seq<Route>) returns (hs: seq<Handler>)
      ensures |hs| == |routes|
      ensures forall i :: 0 <= i < |routes| ==> hs[i].Context? && fresh(hs[i].ctx) && Built(hs[i].ctx, routes[i])
      ensures forall i, j :: 0 <= i < j < |hs| ==> hs[i] != hs[j]
    {
      hs := [];
      for i := 0 to |routes|
        invariant |hs| == i
        invariant forall j :: 0 <= j < i ==> hs[j].Context? && fresh(hs[j].ctx) && Built(hs[j].ctx, routes[j])
        invariant forall j, k :: 0 <= j < k < i ==> hs[j] != hs[k]
      {
        var h := BuildRoute(routes[i]);
        hs := hs + [Context(h)];
      }
    }

    /** `addCORSFilter(ServletContextHandler)`. */
    method AddCorsFilterContext(handler: ServletContextHandler)
      modifies handler
      ensures handler.filters == old(handler.filters) + CorsFilters(allowedOrigins)
      ensures handler.displayName == if allowedOrigins.Some? then Some(CrossOriginName) else old(handler.displayName)
      ensures handler.contextPath == old(handler.contextPath) && handler.servlets == old(handler.servlets)
    {
      if allowedOrigins.Some? {
        handler.SetDisplayName(CrossOriginName);
        handler.AddFilter(CorsFilter(allowedOrigins.value, CorsAllowedMethods, CorsAllowedHeaders));
      }
    }

    /** `addAuthFilter`. */
    method AddAuthFilter(handler: ServletContextHandler, needsAdmin: bool, needsRole: Option<string>)
      modifies handler
      ensures handler.filters == old(handler.filters) + [AuthenticatedFilter(AuthParams(needsAdmin, needsRole))]
      ensures handler.contextPath == old(handler.contextPath) && handler.displayName == old(handler.displayName)
      ensures handler.servlets == old(handler.servlets)
    {
      var params := map[AuthFilter.NeedsAdminParam := BooleanToString(needsAdmin)];
      if needsRole.Some? {
        params := params[AuthFilter.NeedsRoleParam := needsRole.value];
      }
      handler.AddFilter(AuthenticatedFilter(params));
    }

    /** `createServletHandler`. */
    method CreateServletHandler(servlet: string, path: string, needs: Option<Needs>)
      returns (handler: ServletContextHandler)
      ensures fresh(handler)
      ensures handler.contextPath == ContextPath
      ensures handler.displayName == if allowedOrigins.Some? then Some(CrossOriginName) else None
      ensures handler.filters == RouteFilters(allowedOrigins, authorizationEnabled, needs)
      ensures handler.servlets == [ServletHolder(servlet, path)]
    {
      handler := new ServletContextHandler();
      handler.SetContextPath(ContextPath);
      AddCorsFilterContext(handler);
      if authorizationEnabled && needs.Some? {
        AddAuthFilter(handler, needs.value.admin, needs.value.role);
      }
      handler.AddServlet(ServletHolder(servlet, path));
    }

    /** `createWebUIModuleServletHandler`. */
    method CreateWebUIModuleServletHandler() returns (handler: ServletContextHandler)
      ensures fresh(handler)
      ensures handler.contextPath == ContextPath
      ensures handler.displayName == if allowedOrigins.Some? then Some(CrossOriginName) else None
      ensures handler.filters == ModuleFilters(allowedOrigins)
      ensures handler.servlets == [ServletHolder("WebUIModuleServlet", ModuleServletPath)]
    {
      handler := new ServletContextHandler();
      handler.SetContextPath(ContextPath);
      AddCorsFilterContext(handler);
      AddAuthFilter(handler, false, None);
      handler.AddFilter(CacheFilter(ModuleCacheControl));
      handler.AddServlet(ServletHolder("WebUIModuleServlet", ModuleServletPath));
    }

    /** The static web application context. */
    method CreateWebApp() returns (handler: ServletContextHandler)
      ensures fresh(handler)
      ensures handler.contextPath == ContextPath && handler.displayName == Some(WebAppName)
      ensures handler.filters == [GzipFilter]
      ensures handler.servlets == [ServletHolder("SearchHolderServlet", "/search/holders")]
    {
      handler := new ServletContextHandler();
      handler.SetDisplayName(WebAppName);
      handler.AddServlet(ServletHolder("SearchHolderServlet", "/search/holders"));
      handler.AddFilter(GzipFilter);
    }

    /** The handler of one declared route. */
    method BuildRoute(r: Route) returns (handler: ServletContextHandler)
      ensures fresh(handler) && Built(handler, r)
    {
      match r
      case ServletRoute(servlet, path, needs, extra) =>
        handler := CreateServletHandler(servlet, path, needs);
        for i := 0 to |extra|
          invariant fresh(handler)
          invariant handler.contextPath == ContextPath
          invariant handler.displayName == RouteDisplayName(r, allowedOrigins)
          invariant handler.filters == RouteChain(r, allowedOrigins, authorizationEnabled)
          invariant handler.servlets == [ServletHolder(servlet, path)] + extra[..i]
        {
          handler.AddServlet(extra[i]);
          assert extra[..i + 1] == extra[..i] + [extra[i]];
        }
        assert extra[..|extra|] == extra;
      case WebUIModuleRoute =>
        handler := CreateWebUIModuleServletHandler();
      case WebAppRoute =>
        handler := CreateWebApp();
    }

    /** `addCORSFilter(Handler)`: a CORS filter for every servlet context of the
        tree, once per occurrence; wrappers and collections are only traversed. */
    method AddCorsFilterTree(handler: Handler)
      modifies set c | c in Leaves(handler)
      ensures CorsAdded(Leaves(handler), Leaves(handler), allowedOrigins)
      decreases handler
    {
      if allowedOrigins.None? {
        return;
      }
      if handler.Context? {
        assert handler.ctx in Leaves(handler);
        AddCorsFilterContext(handler.ctx);
      } else if handler.Wrapper? || handler.Collection? {
        AddCorsFilterEach(handler.children);
      }
    }

    /** The traversal of a wrapper's or a collection's children, in order. */
    method AddCorsFilterEach(hs: seq<Handler>)
      modifies set c | c in LeavesOf(hs)
      ensures CorsAdded(LeavesOf(hs), LeavesOf(hs), allowedOrigins)
      decreases hs
    {
      ghost var entry := map c | c in LeavesOf(hs) :: c.State();
      for i := 0 to |hs|
        invariant forall c :: c in LeavesOf(hs) ==>
          c.State() == WithCors(entry[c], allowedOrigins, multiset(LeavesOf(hs[..i]))[c])
      {
        LeavesOfChild(hs, i);
        ghost var before := map c | c in LeavesOf(hs) :: c.State();
        assert allocated(LeavesOf(hs));
        AddCorsFilterTree(hs[i]);
        CorsStep(LeavesOf(hs), LeavesOf(hs[..i]), Leaves(hs[i]), entry, before, allowedOrigins);
      }
      assert hs[..|hs|] == hs;
    }

    /** `addContextHandlers`: a plugin's handler list joins the collection, and
        its contexts get the CORS filter. */
    method AddContextHandlers(handler: Handler)
      requires handler.Collection?
      modifies this, set c | c in Leaves(handler)
      ensures contextHandlers == old(contextHandlers) + [handler]
      ensures CorsAdded(Leaves(handler), Leaves(handler), allowedOrigins)
      ensures authorizationEnabled == old(authorizationEnabled)
      ensures pluginHandler == old(pluginHandler) && legacyHandler == old(legacyHandler)
      ensures serverRunning == old(serverRunning) && cacheRunning == old(cacheRunning)
    {
      contextHandlers := contextHandlers + [handler];
      AddCorsFilterTree(handler);
    }

    /** `stopPluginWebServices`: only the plugin handler leaves the collection. */
    method StopPluginWebServices()
      modifies this
      ensures contextHandlers == if old(pluginHandler) != null
        then Without(old(contextHandlers), Context(old(pluginHandler))) else old(contextHandlers)
      ensures authorizationEnabled == old(authorizationEnabled)
      ensures pluginHandler == old(pluginHandler) && legacyHandler == old(legacyHandler)
      ensures serverRunning == old(serverRunning) && cacheRunning == old(cacheRunning)
    {
      if pluginHandler != null {
        contextHandlers := Without(contextHandlers, Context(pluginHandler));
      }
    }

    /** `stopLegacyWebServices`: only the legacy handler leaves the collection. */
    method StopLegacyWebServices()
      modifies this
      ensures contextHandlers == if old(legacyHandler) != null
        then Without(old(contextHandlers), Context(old(legacyHandler))) else old(contextHandlers)
      ensures authorizationEnabled == old(authorizationEnabled)
      ensures pluginHandler == old(pluginHandler) && legacyHandler == old(legacyHandler)
      ensures serverRunning == old(serverRunning) && cacheRunning == old(cacheRunning)
    {
      if legacyHandler != null {
        contextHandlers := Without(contextHandlers, Context(legacyHandler));
      }
    }

    /** `stop`: nothing when the server is not set; otherwise the server and the
        image cache are released and the plugin handler is forgotten. */
    method Stop()
      modifies this
      ensures old(serverRunning) ==> !serverRunning && !cacheRunning && pluginHandler == null
      ensures !old(serverRunning) ==>
        !serverRunning && cacheRunning == old(cacheRunning) && pluginHandler == old(pluginHandler)
      ensures contextHandlers == old(contextHandlers) && legacyHandler == old(legacyHandler)
      ensures authorizationEnabled == old(authorizationEnabled)
    {
      if !serverRunning {
        return;
      }
      serverRunning := false;
      if cacheRunning {
        cacheRunning := false;
      }
      pluginHandler := null;
    }
  }

  // -----------------------------------------------------------------------
  // Properties of the composition
  // -----------------------------------------------------------------------

  /** The three factories, through `addAuthFilter`'s parameters and the filter's
      `init`: `admin()` gives the admin requirement, `authenticated()` a bare
      login, and `role(r)` the role `r`, except that an empty role name is dropped. */
  lemma AuthParamsRoundTrip(needsAdmin: bool, needsRole: Option<string>)
    ensures AuthFilter.ParsedNeedsAdmin(AuthParams(needsAdmin, needsRole), false) == needsAdmin
    ensures AuthFilter.ParsedNeedsRole(AuthParams(needsAdmin, needsRole), None)
      == if needsRole == Some("") then None else needsRole
  {
    ParseBooleanOfToString(needsAdmin);
    var params := AuthParams(needsAdmin, needsRole);
    assert AuthFilter.NeedsAdminParam in params && params[AuthFilter.NeedsAdminParam] == BooleanToString(needsAdmin);
  }

  /** Where the authentication filter goes: it is present exactly when
      authorization is on and the route has a requirement; CORS comes first,
      then the authentication filter, and no other filter is added. */
  lemma RouteFiltersOrder(origins: Option<string>, authEnabled: bool, needs: Option<Needs>)
    ensures var fs := RouteFilters(origins, authEnabled, needs);
      |fs| == (if origins.Some? then 1 else 0) + (if authEnabled && needs.Some? then 1 else 0)
      && (forall i :: 0 <= i < |fs| && fs[i].AuthenticatedFilter? ==> authEnabled && needs.Some?)
      && (authEnabled && needs.Some? ==>
            fs[|fs| - 1] == AuthenticatedFilter(AuthParams(needs.value.admin, needs.value.role)))
      && (origins.Some? ==> fs[0] == CorsFilter(origins.value, CorsAllowedMethods, CorsAllowedHeaders))
      && (forall i, j :: 0 <= i < |fs| && 0 <= j < |fs| && fs[i].CorsFilter? && fs[j].AuthenticatedFilter? ==> i < j)
  {
  }

  /** Splitting a comma-joined list of non-empty, comma-free names gives the names back. */
  lemma {:induction false} SplitOfNameList(ns: seq<string>)
    requires |ns| >= 1
    requires forall i :: 0 <= i < |ns| ==> CommaFree(ns[i]) && ns[i] != ""
    ensures Split(JoinComma(ns)) == ns
  {
    if |ns| == 1 {
      assert JoinComma(ns) == ns[0] && [ns[0]] == ns;
      return;
    }
    PiecesOfJoin(ns);
    JoinSnoc(ns[..|ns| - 1], ns[|ns| - 1]);
    assert ns[..|ns| - 1] + [ns[|ns| - 1]] == ns;
    var j := JoinComma(ns[..|ns| - 1]);
    assert JoinComma(ns)[|j|] == ',';
  }

  const CorsMethodList := ["GET", "POST", "HEAD", "PUT", "DELETE"]
  const CorsHeaderList := ["X-Requested-With", "Content-Type", "Accept", "Origin", "Authorization", "Content-Length"]

  /** One more name on a comma-joined prefix of a list. */
  lemma {:induction false} JoinStep(ns: seq<string>, k: nat)
    requires 1 <= k < |ns|
    ensures JoinComma(ns[..k + 1]) == JoinComma(ns[..k]) + "," + ns[k]
  {
    JoinSnoc(ns[..k], ns[k]);
    assert ns[..k] + [ns[k]] == ns[..k + 1];
  }

  lemma CorsMethodsJoined()
    ensures JoinComma(CorsMethodList) == CorsAllowedMethods
  {
    var ms := CorsMethodList;
    assert JoinComma(ms[..1]) == "GET";
    JoinStep(ms, 1);
    assert JoinComma(ms[..2]) == "GET,POST";
    JoinStep(ms, 2);
    assert JoinComma(ms[..3]) == "GET,POST,HEAD";
    JoinStep(ms, 3);
    assert JoinComma(ms[..4]) == "GET,POST,HEAD,PUT";
    JoinStep(ms, 4);
    assert ms[..5] == ms;
  }

  lemma CorsHeadersJoined3()
    ensures JoinComma(CorsHeaderList[..3]) == "X-Requested-With,Content-Type,Accept"
  {
    var hs := CorsHeaderList;
    assert JoinComma(hs[..1]) == "X-Requested-With";
    JoinStep(hs, 1);
    assert JoinComma(hs[..2]) == "X-Requested-With,Content-Type";
    JoinStep(hs, 2);
  }

  lemma CorsHeadersJoined5()
    ensures JoinComma(CorsHeaderList[..5]) == "X-Requested-With,Content-Type,Accept,Origin,Authorization"
  {
    var hs := CorsHeaderList;
    CorsHeadersJoined3();
    JoinStep(hs, 3);
    assert JoinComma(hs[..4]) == "X-Requested-With,Content-Type,Accept,Origin";
    JoinStep(hs, 4);
  }

  lemma CorsHeadersLast(front: string, last: string)
    requires front == "X-Requested-With,Content-Type,Accept,Origin,Authorization"
    requires last == "Content-Length"
    ensures front + "," + last == CorsAllowedHeaders
  {
  }

  lemma CorsHeadersJoined()
    ensures JoinComma(CorsHeaderList) == CorsAllowedHeaders
  {
    var front := "X-Requested-With,Content-Type,Accept,Origin,Authorization";
    var hs := CorsHeaderList;
    var init := hs[..5];
    CorsHeadersJoined5();
    JoinSnoc(init, hs[5]);
    assert init + [hs[5]] == hs;
    CorsHeadersLast(front, hs[5]);
  }

  /** The method names are non-empty and hold no comma. */
  lemma CorsMethodNamesAreNames()
    ensures forall i :: 0 <= i < |CorsMethodList| ==> CommaFree(CorsMethodList[i]) && CorsMethodList[i] != ""
  {
    var ms := CorsMethodList;
    assert CommaFree(ms[0]) && CommaFree(ms[1]) && CommaFree(ms[2]);
    assert CommaFree(ms[3]) && CommaFree(ms[4]);
  }

  /** The CORS filter allows exactly the methods GET, POST, HEAD, PUT and DELETE. */
  lemma CorsAllowedMethodsSplit()
    ensures Split(CorsAllowedMethods) == ["GET", "POST", "HEAD", "PUT", "DELETE"]
  {
    CorsMethodsJoined();
    CorsMethodNamesAreNames();
    SplitOfNameList(CorsMethodList);
  }

  /** The header names are non-empty and hold no comma. */
  lemma CorsHeaderNamesAreNames()
    ensures forall i :: 0 <= i < |CorsHeaderList| ==> CommaFree(CorsHeaderList[i]) && CorsHeaderList[i] != ""
  {
    var hs := CorsHeaderList;
    assert CommaFree(hs[0]) && CommaFree(hs[1]) && CommaFree(hs[2]);
    assert CommaFree(hs[3]) && CommaFree(hs[4]) && CommaFree(hs[5]);
  }

  /** The CORS filter's header list includes `Authorization`, the header that
      carries the session token. */
  lemma CorsAllowedHeadersHaveAuthorization()
    ensures Split(CorsAllowedHeaders) == CorsHeaderList
    ensures "Authorization" in Split(CorsAllowedHeaders)
  {
    CorsHeadersJoined();
    CorsHeaderNamesAreNames();
    SplitOfNameList(CorsHeaderList);
    var r := Split(CorsAllowedHeaders);
    assert r == CorsHeaderList;
    assert r[4] == "Authorization";
  }

  /** Filters that are not authentication filters never stop a request. */
  lemma {:induction false} ChainWithoutAuthAllows(fs: seq<FilterHolder>, req: AuthFilter.Request,
                                                  sessions: map<string, AuthFilter.User>)
    requires forall i :: 0 <= i < |fs| ==> !fs[i].AuthenticatedFilter?
    ensures ChainDecision(fs, req, sessions) == AuthFilter.Allow
  {
    if fs != [] {
      assert !fs[0].AuthenticatedFilter?;
      assert forall i :: 0 <= i < |fs[1..]| ==> fs[1..][i] == fs[i + 1];
      ChainWithoutAuthAllows(fs[1..], req, sessions);
    }
  }

  /** A chain of filters that are not authentication filters, followed by more
      filters, decides as the rest does. */
  lemma {:induction false} ChainSkipsNonAuth(pre: seq<FilterHolder>, post: seq<FilterHolder>,
                                             req: AuthFilter.Request, sessions: map<string, AuthFilter.User>)
    requires forall i :: 0 <= i < |pre| ==> !pre[i].AuthenticatedFilter?
    ensures ChainDecision(pre + post, req, sessions) == ChainDecision(post, req, sessions)
  {
    if pre != [] {
      assert (pre + post)[0] == pre[0] && !pre[0].AuthenticatedFilter?;
      assert (pre + post)[1..] == pre[1..] + post;
      assert forall i :: 0 <= i < |pre[1..]| ==> pre[1..][i] == pre[i + 1];
      ChainSkipsNonAuth(pre[1..], post, req, sessions);
    } else {
      assert pre + post == post;
    }
  }

  /** What a handler made by `createServletHandler` lets through: everything when
      the route is public or authorization is off, otherwise exactly what the
      authentication filter decides for the route's requirement. */
  lemma RouteGate(origins: Option<string>, authEnabled: bool, needs: Option<Needs>,
                  req: AuthFilter.Request, sessions: map<string, AuthFilter.User>)
    ensures ChainDecision(RouteFilters(origins, authEnabled, needs), req, sessions)
      == if authEnabled && needs.Some?
         then AuthFilter.Decide(needs.value.admin,
                                if needs.value.role == Some("") then None else needs.value.role, req, sessions)
         else AuthFilter.Allow
  {
    var fs := RouteFilters(origins, authEnabled, needs);
    if authEnabled && needs.Some? {
      var auth := AuthenticatedFilter(AuthParams(needs.value.admin, needs.value.role));
      ChainSkipsNonAuth(CorsFilters(origins), [auth], req, sessions);
      AuthParamsRoundTrip(needs.value.admin, needs.value.role);
      assert ChainDecision([auth][1..], req, sessions) == AuthFilter.Allow;
    } else {
      assert fs == CorsFilters(origins);
      ChainWithoutAuthAllows(fs, req, sessions);
    }
  }

  /** The factories at work on a route with authorization on: `admin()` lets
      exactly admins through, `authenticated()` any known user, `role(r)`
      admins and holders of `r`; a request with no token is UNAUTHORIZED. */
  lemma NeedsFactoriesGate(origins: Option<string>, role: string, token: string,
                           sessions: map<string, AuthFilter.User>)
    requires role != ""
    ensures ChainDecision(RouteFilters(origins, true, Some(AdminNeeds())), AuthFilter.Http(Some(token)), sessions)
      == if token in sessions && sessions[token].isAdmin then AuthFilter.Allow else AuthFilter.Forbidden
    ensures ChainDecision(RouteFilters(origins, true, Some(AuthenticatedNeeds())), AuthFilter.Http(Some(token)), sessions)
      == if token in sessions then AuthFilter.Allow else AuthFilter.Forbidden
    ensures ChainDecision(RouteFilters(origins, true, Some(RoleNeeds(role))), AuthFilter.Http(Some(token)), sessions)
      == if token in sessions && (sessions[token].isAdmin || role in sessions[token].roles)
         then AuthFilter.Allow else AuthFilter.Forbidden
    ensures forall n: Needs ::
      (ChainDecision(RouteFilters(origins, true, Some(n)), AuthFilter.Http(None), sessions)
         == AuthFilter.Unauthorized)
  {
    RouteGate(origins, true, Some(AdminNeeds()), AuthFilter.Http(Some(token)), sessions);
    RouteGate(origins, true, Some(AuthenticatedNeeds()), AuthFilter.Http(Some(token)), sessions);
    RouteGate(origins, true, Some(RoleNeeds(role)), AuthFilter.Http(Some(token)), sessions);
    forall n: Needs
      ensures ChainDecision(RouteFilters(origins, true, Some(n)), AuthFilter.Http(None), sessions)
        == AuthFilter.Unauthorized
    {
      RouteGate(origins, true, Some(n), AuthFilter.Http(None), sessions);
    }
  }

  /** The web UI module handler asks for a login whatever the authorization
      setting, and its cache filter comes after the authentication filter. */
  lemma ModuleHandlerGate(origins: Option<string>, req: AuthFilter.Request,
                          sessions: map<string, AuthFilter.User>)
    ensures ChainDecision(ModuleFilters(origins), req, sessions) == AuthFilter.Decide(false, None, req, sessions)
    ensures var fs := ModuleFilters(origins);
      fs[|fs| - 1] == CacheFilter(ModuleCacheControl)
      && fs[|fs| - 2] == AuthenticatedFilter(AuthParams(false, None))
      && (origins.Some? ==> fs[0].CorsFilter? && |fs| == 3)
  {
    var auth := AuthenticatedFilter(AuthParams(false, None));
    var cache := CacheFilter(ModuleCacheControl);
    assert ModuleFilters(origins) == CorsFilters(origins) + [auth, cache];
    ChainSkipsNonAuth(CorsFilters(origins), [auth, cache], req, sessions);
    AuthParamsRoundTrip(false, None);
    assert [auth, cache][1..] == [cache];
    ChainWithoutAuthAllows([cache], req, sessions);
  }

  /** When the dispatch tree shares no context, the CORS pass gives each context
      exactly one CORS filter (or none when origins are not configured). */
  lemma {:induction false} DistinctOccursOnce(s: seq<ServletContextHandler>, c: ServletContextHandler)
    requires forall i, j :: 0 <= i < j < |s| ==> s[i] != s[j]
    requires c in s
    ensures multiset(s)[c] == 1
  {
    var k := |s| - 1;
    assert s == s[..k] + [s[k]];
    if s[k] == c {
      assert c !in s[..k];
    } else {
      DistinctOccursOnce(s[..k], c);
    }
  }

  lemma CorsOncePerDistinctContext(origins: Option<string>, h: Handler, c: ServletContextHandler)
    requires forall i, j :: 0 <= i < j < |Leaves(h)| ==> Leaves(h)[i] != Leaves(h)[j]
    requires c in Leaves(h)
    ensures Repeat(CorsFilters(origins), multiset(Leaves(h))[c]) == CorsFilters(origins)
  {
    DistinctOccursOnce(Leaves(h), c);
  }

  /** Removal keeps every other handler, in order. */
  lemma {:induction false} WithoutKeepsOthers(a: seq<Handler>, h: Handler, b: seq<Handler>)
    requires h !in a && h !in b
    ensures Without(a + [h] + b, h) == a + b
  {
    WithoutAppend(a + [h], b, h);
    WithoutAppend(a, [h], h);
    WithoutAbsent(a, h);
    WithoutAbsent(b, h);
    assert Without([h], h) == [] by { assert [h][..0] == []; }
  }
}
