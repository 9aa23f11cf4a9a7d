# Dicoogle web request gating, in Dafny

This project models the layer of Dicoogle's embedded web server that decides,
for every HTTP request, which servlet context handles it and which filters run
first, together with two small management endpoints.

- **The authentication filter** (`AuthenticatedFilter`). `init` reads the route's
  requirement from the `needsAdmin` / `needsRole` init parameters. `doFilter`
  lets a request down the chain, answers 401 when there is no `Authorization`
  header, or answers 403 when the token resolves to no user or the user does not
  meet the requirement.
- **The handler tree** built by `DicoogleWeb`:
  - `createServletHandler` gives each route a context at `/` with an optional
    CORS filter and then an optional authentication filter. The filter is present
    only when authorization is on and the route has a `Needs` requirement
    (`admin()`, `authenticated()`, `role(r)`).
  - The web UI module handler always carries an authentication filter, followed
    by a cache filter whose `etag` override computes the entity tag of a module
    script.
  - The recursive `addCORSFilter(Handler)` walks a handler tree and gives every
    servlet context it reaches a CORS filter.
  - `addContextHandlers`, `stopPluginWebServices`, `stopLegacyWebServices` and
    `stop` change the mounted collection and the server's run state.
- **The welcome endpoint** (`WelcomeServlet`). It parses the message file into
  messages separated by blank lines, skips `#` comment lines, and falls back to a
  fixed message. Each GET answers one message, picked by a random index.
- **The archive settings endpoint** (`ArchiveSettingsServlet`). GET reports the
  node name and the two provider lists. PUT trims each given parameter, ignores
  blank ones, and splits the lists on commas the way `String.split(",")` does.

The Java library behaviour this code relies on is modelled in `JavaLang`:

- `Boolean.parseBoolean` and `Boolean.toString`;
- `String.trim`, which strips characters up to U+0020;
- `String.split(",")`, which drops trailing empty strings.

Files:

- `java_lang.dfy`: module `JavaLang`.
- `auth_filter.dfy`: module `AuthFilter`. `AuthenticatedFilter` is a class whose
  fields `init` updates.
- `dicoogle_web.dfy`: module `Web`. The servlet context handlers and
  `DicoogleWeb` are classes. The dispatch tree is a datatype whose leaves are
  context objects, so the CORS pass updates them in place.
- `webui_etag.dfy`: module `WebUICache`, the `etag` override.
- `welcome_servlet.dfy`: module `Welcome`. `loadMessages` is a loop proved
  against a recursive scanner.
- `archive_settings_servlet.dfy`: module `ArchiveSettings`. The archive settings
  are an object updated through setters.

Some behaviour of the code is easy to misread; the model states it as written
(paths below are relative to `dicoogle/src/main/java/pt/ua/dicoogle/server/web/`):

- **A repeated CORS pass is not idempotent.** The recursive CORS pass
  (`DicoogleWeb.java:379-399`) adds one more CORS filter to a context each time
  the context is reached, whether by
  being reached twice in one tree or by a second pass. The model counts the
  visits: `CorsAdded` states that a context gets its filter list repeated once
  per occurrence. `CorsOncePerDistinctContext` proves that a tree without shared
  contexts gives each context exactly one filter.
- **An empty role is dropped.** `Needs.role("")` behaves as `authenticated()`,
  because `init` ignores an empty `needsRole` parameter
  (`AuthenticatedFilter.java:62-66`; `AuthParamsRoundTrip`, `RouteGate`).
- **A route with no requirement has no gate.** Such a route (`needs == null`),
  like any route when authorization is disabled, simply gets no authentication
  filter (`DicoogleWeb.java:355-360`; `RouteFilters`, `RouteGate`). There is no "none" decision inside the
  filter.
- **The module route always asks for a login.** The web UI module handler adds
  its authentication filter whether or not authorization is enabled
  (`DicoogleWeb.java:296`; `ModuleHandlerGate`).
- **Hex digits are lower case.** The hash in a pre-release tag is Guava's
  `HashCode.toString()` rendering: little-endian bytes in lower-case hex
  (`DicoogleWeb.java:308`; `HashHex`, `HashHexExample`).
- **An exception from the session lookup propagates.** The user lookup
  (`AuthenticatedFilter.java:87`) is not guarded, so an exception there leaves
  `doFilter` instead of producing a 403.
  Validating a configured role at start-up happens inside `Role`'s constructor,
  which is not part of this model.

## Model

The source column cites files under `dicoogle/src/main/java/pt/ua/dicoogle/server/web/`.

| member | source | states |
|---|---|---|
| JavaLang.ParseBoolean | dicoogle/src/main/java/pt/ua/dicoogle/server/web/AuthenticatedFilter.java:54-57 | true exactly when the text, with ASCII capitals lowered, is "true" (`equalsIgnoreCase("true")`) |
| JavaLang.ParseBooleanOfToString | dicoogle/src/main/java/pt/ua/dicoogle/server/web/DicoogleWeb.java:401-404 | `Boolean.parseBoolean(Boolean.toString(b)) == b`: the `needsAdmin` flag written by `addAuthFilter` is read back unchanged by `init` |
| JavaLang.ParseBooleanExamples | dicoogle/src/main/java/pt/ua/dicoogle/server/web/AuthenticatedFilter.java:54-57 | "true" is accepted in any letter case; "false", "yes", "1", " true" and "" all parse to false |
| JavaLang.Trim | dicoogle/src/main/java/pt/ua/dicoogle/server/web/servlets/management/ArchiveSettingsServlet.java:62 | the result is the input less its leading and trailing characters <= U+0020; it is empty exactly when every character is such, and otherwise starts and ends with a character above U+0020 |
| JavaLang.TrimOfPadded | dicoogle/src/main/java/pt/ua/dicoogle/server/web/servlets/management/ArchiveSettingsServlet.java:62 | trimming white-space padding around an already-trimmed text gives that text |
| JavaLang.TrimIdempotent | dicoogle/src/main/java/pt/ua/dicoogle/server/web/servlets/management/ArchiveSettingsServlet.java:62 | trimming twice is trimming once |
| JavaLang.PiecesOfJoin | dicoogle/src/main/java/pt/ua/dicoogle/server/web/servlets/management/ArchiveSettingsServlet.java:74 | cutting a comma-joined list of comma-free pieces at every comma gives the pieces back |
| JavaLang.Split | dicoogle/src/main/java/pt/ua/dicoogle/server/web/servlets/management/ArchiveSettingsServlet.java:74 | a comma-free input splits to itself alone; every piece is comma-free; joining the pieces back with commas gives the input less a run of trailing commas; with a comma in the input, the last piece is never empty |
| JavaLang.SplitOfBlank | dicoogle/src/main/java/pt/ua/dicoogle/server/web/servlets/management/ArchiveSettingsServlet.java:74 | `"".split(",")` is `[""]` |
| JavaLang.SplitOfLoneComma | dicoogle/src/main/java/pt/ua/dicoogle/server/web/servlets/management/ArchiveSettingsServlet.java:85 | `",".split(",")` is empty: a PUT of `defaultStorage=","` stores an empty list |
| JavaLang.SplitKeepsLeadingEmptyAndSpaces | dicoogle/src/main/java/pt/ua/dicoogle/server/web/servlets/management/ArchiveSettingsServlet.java:74 | a leading empty piece is kept, and the pieces are not trimmed |
| JavaLang.SplitDropsOnlyTrailingEmpties | dicoogle/src/main/java/pt/ua/dicoogle/server/web/servlets/management/ArchiveSettingsServlet.java:74 | inner empty pieces stay and trailing ones go |
| AuthFilter.AuthenticatedFilter.constructor | dicoogle/src/main/java/pt/ua/dicoogle/server/web/AuthenticatedFilter.java:46-49 | a new filter needs neither admin nor a role |
| AuthFilter.AuthenticatedFilter.Init | dicoogle/src/main/java/pt/ua/dicoogle/server/web/AuthenticatedFilter.java:52-70 | `needsAdmin` becomes `parseBoolean` of the parameter and `needsRole` the parameter, each only when the parameter is present and non-empty; otherwise the field keeps its value |
| AuthFilter.AuthenticatedFilter.DoFilter | dicoogle/src/main/java/pt/ua/dicoogle/server/web/AuthenticatedFilter.java:73-123 | the chain is invoked exactly when the decision is ALLOW; otherwise one 401 or 403 error is sent when the response is HTTP; never more than one effect |
| AuthFilter.NeedsAdminFromDefaults | dicoogle/src/main/java/pt/ua/dicoogle/server/web/AuthenticatedFilter.java:54-57 | admin is needed iff the `needsAdmin` parameter is present and parses as true |
| AuthFilter.NeedsRoleFromDefaults | dicoogle/src/main/java/pt/ua/dicoogle/server/web/AuthenticatedFilter.java:63-66 | a role is needed iff the `needsRole` parameter is present and non-empty, and it is that parameter |
| AuthFilter.NonHttpBypasses | dicoogle/src/main/java/pt/ua/dicoogle/server/web/AuthenticatedFilter.java:76-108 | a request that is not HTTP goes down the chain unchecked |
| AuthFilter.UnauthorizedIffNoHeader | dicoogle/src/main/java/pt/ua/dicoogle/server/web/AuthenticatedFilter.java:78-84 | 401 is given iff the request is HTTP and has no `Authorization` header |
| AuthFilter.UnknownTokenForbidden | dicoogle/src/main/java/pt/ua/dicoogle/server/web/AuthenticatedFilter.java:87-91 | a token that resolves to no user gets 403, whatever the requirement |
| AuthFilter.AdminRequirement | dicoogle/src/main/java/pt/ua/dicoogle/server/web/AuthenticatedFilter.java:94-97 | when admin is needed, a known user passes iff admin |
| AuthFilter.RoleRequirement | dicoogle/src/main/java/pt/ua/dicoogle/server/web/AuthenticatedFilter.java:101-104 | when a role is needed, a known user passes iff admin or holding the role |
| AuthFilter.AuthenticatedRequirement | dicoogle/src/main/java/pt/ua/dicoogle/server/web/AuthenticatedFilter.java:86-108 | with no admin and no role requirement, a token passes iff it resolves to a user |
| AuthFilter.Decide | dicoogle/src/main/java/pt/ua/dicoogle/server/web/AuthenticatedFilter.java:73-109 | ALLOW iff (HTTP ==> token present, known, and its user satisfies the requirement as the reference `Satisfies` defines it); FORBIDDEN iff HTTP with a token that is unknown or whose user does not satisfy it |
| AuthFilter.AdminIsStrongest | dicoogle/src/main/java/pt/ua/dicoogle/server/web/AuthenticatedFilter.java:94-104 | whatever passes the admin requirement passes every requirement |
| AuthFilter.RequirementsAreMonotone | dicoogle/src/main/java/pt/ua/dicoogle/server/web/AuthenticatedFilter.java:94-104 | adding a role or the admin requirement never turns a refusal into a pass |
| AuthFilter.ExactlyOneEffect | dicoogle/src/main/java/pt/ua/dicoogle/server/web/AuthenticatedFilter.java:111-123 | over HTTP each decision has exactly one effect: the chain for ALLOW, status 401 for UNAUTHORIZED, status 403 for FORBIDDEN |
| Web.AdminNeeds | dicoogle/src/main/java/pt/ua/dicoogle/server/web/DicoogleWeb.java:337-339 | exactly the administrators satisfy `admin()` |
| Web.RoleNeeds | dicoogle/src/main/java/pt/ua/dicoogle/server/web/DicoogleWeb.java:341-343 | exactly the administrators and the holders of the role satisfy `role(r)` |
| Web.AuthenticatedNeeds | dicoogle/src/main/java/pt/ua/dicoogle/server/web/DicoogleWeb.java:345-347 | every known user satisfies `authenticated()` |
| Web.ServletContextHandler.constructor | dicoogle/src/main/java/pt/ua/dicoogle/server/web/DicoogleWeb.java:352 | a new context has no display name, filters or servlets |
| Web.ServletContextHandler.SetContextPath | dicoogle/src/main/java/pt/ua/dicoogle/server/web/DicoogleWeb.java:353 | sets the path and nothing else |
| Web.ServletContextHandler.SetDisplayName | dicoogle/src/main/java/pt/ua/dicoogle/server/web/DicoogleWeb.java:369 | sets the display name and nothing else |
| Web.ServletContextHandler.AddFilter | dicoogle/src/main/java/pt/ua/dicoogle/server/web/DicoogleWeb.java:375 | appends one filter at the end of the chain and changes nothing else |
| Web.ServletContextHandler.AddServlet | dicoogle/src/main/java/pt/ua/dicoogle/server/web/DicoogleWeb.java:362 | appends one servlet mapping and changes nothing else |
| Web.Without | dicoogle/src/main/java/pt/ua/dicoogle/server/web/DicoogleWeb.java:445-455 | removing a handler from the collection leaves every other handler and no occurrence of the removed one (as multisets: all its occurrences gone, others untouched) |
| Web.WithoutAbsent | dicoogle/src/main/java/pt/ua/dicoogle/server/web/DicoogleWeb.java:445-455 | removing a handler that is not mounted changes nothing |
| Web.WithoutKeepsOthers | dicoogle/src/main/java/pt/ua/dicoogle/server/web/DicoogleWeb.java:445-455 | removing a handler mounted once keeps the others in their order |
| Web.DicoogleWeb.constructor | dicoogle/src/main/java/pt/ua/dicoogle/server/web/DicoogleWeb.java:128-285 | authorization is on iff unauthorized access is not allowed; one fresh, distinct context per route-table entry, built as that route says; the plugin and legacy handlers are the first two; server and cache are running |
| Web.DicoogleWeb.BuildRoutes | dicoogle/src/main/java/pt/ua/dicoogle/server/web/DicoogleWeb.java:184-241 | the handler array holds, in table order, one fresh context per route, pairwise distinct |
| Web.DicoogleWeb.BuildRoute | dicoogle/src/main/java/pt/ua/dicoogle/server/web/DicoogleWeb.java:143-178 | a route's context has path `/`, the route's filter chain, its servlets (the CSV export also `/exportFile`) and display name |
| Web.DicoogleWeb.CreateServletHandler | dicoogle/src/main/java/pt/ua/dicoogle/server/web/DicoogleWeb.java:350-364 | a fresh context at `/` with the CORS filter (when origins are set), then the authentication filter (when authorization is on and a requirement is given), then the one servlet at its path |
| Web.DicoogleWeb.CreateWebUIModuleServletHandler | dicoogle/src/main/java/pt/ua/dicoogle/server/web/DicoogleWeb.java:287-326 | a fresh context with CORS (when set), the authenticated-only filter, the 30-day private cache filter, and the module servlet at `/webui/module/*` |
| Web.DicoogleWeb.CreateWebApp | dicoogle/src/main/java/pt/ua/dicoogle/server/web/DicoogleWeb.java:162-171 | the web app context is named `webapp`, has only the gzip filter and the search-holder servlet |
| Web.DicoogleWeb.AddCorsFilterContext | dicoogle/src/main/java/pt/ua/dicoogle/server/web/DicoogleWeb.java:366-377 | with origins set: appends one CORS filter with the fixed methods and headers and names the context `cross-origin`; without: changes nothing |
| Web.DicoogleWeb.AddAuthFilter | dicoogle/src/main/java/pt/ua/dicoogle/server/web/DicoogleWeb.java:401-408 | appends one authentication filter whose init parameters encode the requirement, and changes nothing else |
| Web.DicoogleWeb.AddCorsFilterTree | dicoogle/src/main/java/pt/ua/dicoogle/server/web/DicoogleWeb.java:379-399 | every context leaf of the tree gets the CORS filters once per occurrence in the tree and nothing else changes; wrappers and collections recurse, other handlers are left alone |
| Web.DicoogleWeb.AddCorsFilterEach | dicoogle/src/main/java/pt/ua/dicoogle/server/web/DicoogleWeb.java:390-397 | the same for every child of a collection, in order |
| Web.DicoogleWeb.AddContextHandlers | dicoogle/src/main/java/pt/ua/dicoogle/server/web/DicoogleWeb.java:438-443 | the collection is mounted at the end and the CORS pass runs over it; nothing else about the server changes |
| Web.DicoogleWeb.StopPluginWebServices | dicoogle/src/main/java/pt/ua/dicoogle/server/web/DicoogleWeb.java:445-449 | the plugin handler, when set, is removed from the mounted handlers; nothing else changes |
| Web.DicoogleWeb.StopLegacyWebServices | dicoogle/src/main/java/pt/ua/dicoogle/server/web/DicoogleWeb.java:451-455 | the legacy handler, when set, is removed from the mounted handlers; nothing else changes |
| Web.DicoogleWeb.Stop | dicoogle/src/main/java/pt/ua/dicoogle/server/web/DicoogleWeb.java:414-436 | when the server is running: it stops, the cache is terminated, the plugin handler is cleared; otherwise nothing changes |
| Web.AuthParamsRoundTrip | dicoogle/src/main/java/pt/ua/dicoogle/server/web/DicoogleWeb.java:401-408 | `init` reads back from the parameters `addAuthFilter` writes exactly the admin flag and the role, an empty role reading as none |
| Web.RouteFiltersOrder | dicoogle/src/main/java/pt/ua/dicoogle/server/web/DicoogleWeb.java:355-360 | the authentication filter is present iff authorization is on and a requirement is given, comes last, and CORS comes first |
| Web.SplitOfNameList | dicoogle/src/main/java/pt/ua/dicoogle/server/web/DicoogleWeb.java:372-373 | splitting a comma-joined list of one or more non-empty comma-free names gives the names (a single name included) |
| Web.CorsAllowedMethodsSplit | dicoogle/src/main/java/pt/ua/dicoogle/server/web/DicoogleWeb.java:372 | the CORS filter allows exactly GET, POST, HEAD, PUT and DELETE |
| Web.CorsAllowedHeadersHaveAuthorization | dicoogle/src/main/java/pt/ua/dicoogle/server/web/DicoogleWeb.java:373-374 | the allowed headers are the six listed names, `Authorization` among them |
| Web.ChainDecision | dicoogle/src/main/java/pt/ua/dicoogle/server/web/AuthenticatedFilter.java:73-109 | a filter chain lets a request through iff every filter in it does, and otherwise answers as the first filter that refuses it |
| Web.ChainWithoutAuthAllows | dicoogle/src/main/java/pt/ua/dicoogle/server/web/DicoogleWeb.java:366-377 | a chain with no authentication filter never stops a request |
| Web.ChainSkipsNonAuth | dicoogle/src/main/java/pt/ua/dicoogle/server/web/DicoogleWeb.java:355-360 | filters other than the authentication filter in front of a chain do not change its decision |
| Web.RouteGate | dicoogle/src/main/java/pt/ua/dicoogle/server/web/DicoogleWeb.java:350-364 | a route's chain allows everything when it is public or authorization is off, and otherwise decides exactly as the authentication filter does for the route's requirement |
| Web.NeedsFactoriesGate | dicoogle/src/main/java/pt/ua/dicoogle/server/web/DicoogleWeb.java:337-347 | `admin()` lets exactly admins through, `authenticated()` any known user, `role(r)` admins and holders of `r`; a request without a token gets 401 for every requirement |
| Web.ModuleHandlerGate | dicoogle/src/main/java/pt/ua/dicoogle/server/web/DicoogleWeb.java:294-323 | the module handler decides as a login-only filter whatever the authorization setting, and its cache filter runs after the authentication filter |
| Web.CorsOncePerDistinctContext | dicoogle/src/main/java/pt/ua/dicoogle/server/web/DicoogleWeb.java:379-399 | in a tree that shares no context, every context gets exactly one CORS filter |
| WebUICache.HashHex | dicoogle/src/main/java/pt/ua/dicoogle/server/web/DicoogleWeb.java:308 | the rendered hash is 8 lower-case hex digits: two per byte, least significant byte first |
| WebUICache.HashHexInjective | dicoogle/src/main/java/pt/ua/dicoogle/server/web/DicoogleWeb.java:308 | different hashes render differently |
| WebUICache.HashHexIsETagChars | dicoogle/src/main/java/pt/ua/dicoogle/server/web/DicoogleWeb.java:308 | the rendered hash uses only characters allowed in an entity tag |
| WebUICache.HashHexExample | dicoogle/src/main/java/pt/ua/dicoogle/server/web/DicoogleWeb.java:308 | the hash 0x3412cdab renders as `abcd1234`: lower-case hex, least significant byte first |
| WebUICache.StrongTagWellFormed | dicoogle/src/main/java/pt/ua/dicoogle/server/web/DicoogleWeb.java:308 | quoting a tag-safe text gives an entity tag without the weak prefix |
| WebUICache.WeakTagWellFormed | dicoogle/src/main/java/pt/ua/dicoogle/server/web/DicoogleWeb.java:311-316 | `W/` plus a quoted tag-safe text is a weak entity tag |
| WebUICache.ETag | dicoogle/src/main/java/pt/ua/dicoogle/server/web/DicoogleWeb.java:300-319 | the override fails with an index error iff the request URI is shorter than `/webui/module/`; otherwise it gives a tag iff the module name names a known plugin (an unknown one gets none, so caching is skipped) |
| WebUICache.ETagPrereleaseIsStrong | dicoogle/src/main/java/pt/ua/dicoogle/server/web/DicoogleWeb.java:305-308 | a pre-release plugin gets the strong tag: the quoted 8-character hex hash of its script, without the weak prefix |
| WebUICache.ETagReleaseIsWeak | dicoogle/src/main/java/pt/ua/dicoogle/server/web/DicoogleWeb.java:309-317 | a release plugin gets `W/"name@version"`, with `;raw` exactly when `process` is given and does not parse as true |
| WebUICache.ETagIsEntityTag | dicoogle/src/main/java/pt/ua/dicoogle/server/web/DicoogleWeb.java:300-319 | for a known plugin whose name and version use entity-tag characters, the tag is a well-formed entity tag, weak iff the plugin is a release |
| WebUICache.StrongTagTracksContent | dicoogle/src/main/java/pt/ua/dicoogle/server/web/DicoogleWeb.java:305-308 | for a pre-release, two scripts give the same tag iff their hashes agree |
| WebUICache.WeakTagIgnoresContent | dicoogle/src/main/java/pt/ua/dicoogle/server/web/DicoogleWeb.java:309-317 | for a release, the tag does not depend on the script |
| WebUICache.ETagReleaseScenario | dicoogle/src/main/java/pt/ua/dicoogle/server/web/DicoogleWeb.java:309-317 | a released plugin `alpha` 1.0 gets `W/"alpha@1.0"` with no `process` or `process=TRUE`, `W/"alpha@1.0;raw"` with `process=false`; an unknown module gets none; a too-short URI fails |
| WebUICache.ETagPrereleaseScenario | dicoogle/src/main/java/pt/ua/dicoogle/server/web/DicoogleWeb.java:305-308 | a pre-release whose script hashes to 0x3412cdab gets `"abcd1234"` |
| Welcome.Messages | dicoogle/src/main/java/pt/ua/dicoogle/server/web/servlets/WelcomeServlet.java:60-98 | never empty; an `IOException` while reading gives the fallback alone; a readable file gives its collected messages when there are any, and the fallback alone when there are none |
| Welcome.LoadMessages | dicoogle/src/main/java/pt/ua/dicoogle/server/web/servlets/WelcomeServlet.java:60-98 | the line loop computes exactly the scanner's messages, with the fallback when there are none |
| Welcome.WelcomeServlet.constructor | dicoogle/src/main/java/pt/ua/dicoogle/server/web/servlets/WelcomeServlet.java:55 | the servlet holds the loaded messages, of which there is always at least one (`Valid`) |
| Welcome.WelcomeServlet.DoGet | dicoogle/src/main/java/pt/ua/dicoogle/server/web/servlets/WelcomeServlet.java:101-106 | the answer is the message at the drawn index, one of the loaded messages |
| Welcome.ScanKeepsBody | dicoogle/src/main/java/pt/ua/dicoogle/server/web/servlets/WelcomeServlet.java:74-85 | nothing lost or invented: the messages and the pending one, concatenated, are the non-comment non-blank lines each followed by a newline |
| Welcome.CollectedKeepsBody | dicoogle/src/main/java/pt/ua/dicoogle/server/web/servlets/WelcomeServlet.java:74-88 | the same for the collected messages |
| Welcome.ScanCountsBlanks | dicoogle/src/main/java/pt/ua/dicoogle/server/web/servlets/WelcomeServlet.java:79-81 | each blank line closes exactly one message |
| Welcome.ScanTerminated | dicoogle/src/main/java/pt/ua/dicoogle/server/web/servlets/WelcomeServlet.java:79-84 | every message is empty or ends in a newline |
| Welcome.CollectedTerminated | dicoogle/src/main/java/pt/ua/dicoogle/server/web/servlets/WelcomeServlet.java:83-88 | every collected message is empty or ends in a newline |
| Welcome.CommentsIgnored | dicoogle/src/main/java/pt/ua/dicoogle/server/web/servlets/WelcomeServlet.java:75-77 | removing the comment lines does not change the result |
| Welcome.NothingCollectedIffOnlyComments | dicoogle/src/main/java/pt/ua/dicoogle/server/web/servlets/WelcomeServlet.java:86-91 | the fallback stands in iff every line is a comment |
| Welcome.OnlyCommentsGiveNothing | dicoogle/src/main/java/pt/ua/dicoogle/server/web/servlets/WelcomeServlet.java:75-77 | a file of comments leaves the scanner in its initial state |
| Welcome.SomethingCollected | dicoogle/src/main/java/pt/ua/dicoogle/server/web/servlets/WelcomeServlet.java:79-84 | a line that is not a comment leaves a closed message or a non-empty pending one |
| Welcome.EmptyMessageKept | dicoogle/src/main/java/pt/ua/dicoogle/server/web/servlets/WelcomeServlet.java:79-88 | two blank lines in a row give an empty message, and a last message without a blank line after it is kept |
| Welcome.FallbackCases | dicoogle/src/main/java/pt/ua/dicoogle/server/web/servlets/WelcomeServlet.java:89-96 | a file whose reading throws `IOException`, an empty file and a comment-only file each give the fallback alone |
| ArchiveSettings.Archive.SetNodeName | dicoogle/src/main/java/pt/ua/dicoogle/server/web/servlets/management/ArchiveSettingsServlet.java:64 | sets the node name only |
| ArchiveSettings.Archive.SetDimProviders | dicoogle/src/main/java/pt/ua/dicoogle/server/web/servlets/management/ArchiveSettingsServlet.java:75 | sets the DIM provider list only |
| ArchiveSettings.Archive.SetDefaultStorage | dicoogle/src/main/java/pt/ua/dicoogle/server/web/servlets/management/ArchiveSettingsServlet.java:86 | sets the default storage list only |
| ArchiveSettings.Given | dicoogle/src/main/java/pt/ua/dicoogle/server/web/servlets/management/ArchiveSettingsServlet.java:58-67 | a parameter counts iff present and not blank, and then contributes its trimmed, non-empty value |
| ArchiveSettings.DoPut | dicoogle/src/main/java/pt/ua/dicoogle/server/web/servlets/management/ArchiveSettingsServlet.java:53-96 | each setting given is updated (the lists split on commas), the rest kept; the answer is success iff something was given, else the "no changes made" warning |
| ArchiveSettings.DoGet | dicoogle/src/main/java/pt/ua/dicoogle/server/web/servlets/management/ArchiveSettingsServlet.java:40-50 | reports the three settings, node name first, then DIM providers, then default storage |
| ArchiveSettings.AbsentOrBlankKeeps | dicoogle/src/main/java/pt/ua/dicoogle/server/web/servlets/management/ArchiveSettingsServlet.java:61-89 | an absent or blank parameter leaves its setting as it was |
| ArchiveSettings.StoredNodeNameTrimmed | dicoogle/src/main/java/pt/ua/dicoogle/server/web/servlets/management/ArchiveSettingsServlet.java:58-66 | a stored node name is the trimmed parameter, non-empty and already trimmed |
| ArchiveSettings.StoredProvidersSplit | dicoogle/src/main/java/pt/ua/dicoogle/server/web/servlets/management/ArchiveSettingsServlet.java:70-89 | a stored list holds comma-free names that, joined with commas, give the trimmed parameter less trailing commas |
| ArchiveSettings.PutIdempotent | dicoogle/src/main/java/pt/ua/dicoogle/server/web/servlets/management/ArchiveSettingsServlet.java:53-89 | repeating a PUT changes nothing more |
| ArchiveSettings.WarningLeavesSettings | dicoogle/src/main/java/pt/ua/dicoogle/server/web/servlets/management/ArchiveSettingsServlet.java:60-95 | when the warning is sent, the settings are unchanged |
| ArchiveSettings.ChangedEvenIfSame | dicoogle/src/main/java/pt/ua/dicoogle/server/web/servlets/management/ArchiveSettingsServlet.java:60-66 | success is reported even when the new value equals the old one (`" dicoogle "` over `dicoogle`) |
| ArchiveSettings.ReportAfterPut | dicoogle/src/main/java/pt/ua/dicoogle/server/web/servlets/management/ArchiveSettingsServlet.java:40-50 | GET after PUT reports the trimmed node name and the split lists that were given |

## Left out

- Settings and environment are inputs:
  - The allowed CORS origins are a constructor argument; the source reads them
    from the server settings each time.
  - The archive settings are an `Archive` object passed to the servlet.
  - The welcome file is `Lines | IOError`; reading it and the system property
    `dicoogle.welcomeFile` are not modelled.
  - The random index is the `pick` argument of `DoGet`.
  - The session store is a map from token to user.
- The `Role` class and `UsersStruct` are not part of this model. Role names are
  strings, and the validation `new Role(name)` does when `init` runs is left out,
  together with the `ServletException` it can raise.
- Exceptions from the user lookup in `doFilter` are left out.
- Jetty's run-time behaviour is left out:
  - the CORS filter's header handling at request time;
  - the 304 protocol of `AbstractCacheFilter` (only its `etag` override is
    modelled);
  - gzip;
  - the `/*` filter mapping with REQUEST dispatch, which applies to every
    request of a context.
- Web.Without: Jetty's `removeHandler` removes one occurrence. The model removes
  every occurrence, which agrees whenever the handler is mounted once. The
  constructor guarantees this (its handlers are pairwise distinct), but no
  class invariant carries it further: after `AddContextHandlers` mounts a
  handler that is already mounted, the two removals can differ.
- Web.DicoogleWeb.Stop: the server and the image cache are booleans. An
  exception from `server.stop()` is not modelled; the `finally` block's cache
  shutdown is.
- Web.DicoogleWeb.constructor:
  - The handler objects are created in a different order from the array. The
    model creates them in array order, which nothing observes.
  - The web app's init parameters, its welcome file and `maxFormContentSize` are
    not modelled.
  - Lifecycle listeners and logging are not modelled.
  - Starting the restlet applications and attaching `VersionResource` are not
    modelled.
  - The route table is data: no property about the individual routes (which are
    public, which need admin) is proved.
- The servlets behind the routes are names only; their business logic is not
  part of this model.
- WebUICache.ETag: the module script is a total function argument, so a script
  that the plugin controller returns as `null` is not modelled; in the source
  that case would dereference `null` when hashing (`DicoogleWeb.java:307-308`).
  Guava's Murmur3 hash is an argument, and so is the pre-release test on
  versions.
- Welcome.Messages: `IOError` models only an `IOException`, from
  `Files.readAllLines` or from reading or closing the bundled resource
  (`WelcomeServlet.java:65-70`, caught at line 94). Two failures on the default
  resource path are not modelled: a missing `/welcome.html` makes
  `new InputStreamReader(null, ...)` throw `NullPointerException`, and a read
  error inside `reader.lines()` surfaces as `UncheckedIOException`. Both
  propagate out of `loadMessages` and fail the class's static initialisation
  (line 55) instead of falling back.
- Welcome.WelcomeServlet.DoGet: writing the response (content type, flush) is
  left out.
- JSON rendering of responses (`ResponseUtil`) is left out; the model keeps the
  key/value pairs and the success/warning outcome.
- Concurrency is left out: requests are handled one at a time.
