/** The servlet filter that gates a route on the caller's session token
    (`AuthenticatedFilter`): `init` reads the route's requirement from the
    filter's init parameters, `doFilter` turns the `Authorization` header and
    the session lookup into one of three outcomes. */
module AuthFilter {
  import opened JavaLang

  const NeedsAdminParam := "needsAdmin"
  const NeedsRoleParam := "needsRole"

  const ScUnauthorized := 401
  const ScForbidden := 403

  /** The principal a session token resolves to. */
  datatype User = User(isAdmin: bool, roles: set<string>)

  /** What the filter decides for one request. */
  datatype Decision = Allow | Unauthorized | Forbidden

  /** A request as the filter sees it: only HTTP requests carry headers. */
  datatype Request = NonHttp | Http(authorization: Option<string>)

  /** What the filter does to the exchange: pass it down the chain, or send an error. */
  datatype Effect = ChainInvoked | ErrorSent(status: int)

  /** `FilterConfig.getInitParameter`: null when the parameter is not set. */
  function InitParam(config: map<string, string>, name: string): Option<string> {
    if name in config then Some(config[name]) else None
  }

  /** The value `init` leaves in `needsAdmin`, starting from `current`: only a
      present, non-empty parameter is parsed. */
  function ParsedNeedsAdmin(config: map<string, string>, current: bool): bool {
    var p := InitParam(config, NeedsAdminParam);
    if p.Some? && p.value != "" then ParseBoolean(p.value) else current
  }

  /** The value `init` leaves in `needsRole`, starting from `current`. */
  function ParsedNeedsRole(config: map<string, string>, current: Option<string>): Option<string> {
    var p := InitParam(config, NeedsRoleParam);
    if p.Some? && p.value != "" then Some(p.value) else current
  }

  /** `doFilter`'s chain of early returns, as a decision. It agrees with the
      reference definition `Satisfies`: an HTTP request is let through exactly
      when it carries a token that resolves to a user satisfying the
      requirement, and every other HTTP request is refused (fail closed). */
  function Decide(needsAdmin: bool, needsRole: Option<string>, req: Request,
                  sessions: map<string, User>): (d: Decision)
    ensures d == Allow
      <==> (req.Http? ==> req.authorization.Some? && req.authorization.value in sessions
                          && Satisfies(needsAdmin, needsRole, sessions[req.authorization.value]))
    ensures d == Forbidden
      <==> (req.Http? && req.authorization.Some?
            && (req.authorization.value !in sessions
                || !Satisfies(needsAdmin, needsRole, sessions[req.authorization.value])))
  {
    match req
    case NonHttp => Allow
    case Http(token) =>
      if token.None? then Unauthorized
      else if token.value !in sessions then Forbidden
      else
        var user := sessions[token.value];
        if needsAdmin && !user.isAdmin then Forbidden
        else if !user.isAdmin && needsRole.Some? && needsRole.value !in user.roles then Forbidden
        else Allow
  }

  /** Reference definition of the requirement: admin when admin is needed, and
      the role (or admin, which stands for every role) when a role is needed. */
  predicate Satisfies(needsAdmin: bool, needsRole: Option<string>, user: User) {
    (needsAdmin ==> user.isAdmin) && (needsRole.Some? ==> user.isAdmin || needsRole.value in user.roles)
  }

  /** What the exchange sees for a decision: the chain exactly once on ALLOW,
      otherwise one error status, sent only when the response is an HTTP one. */
  function EffectsOf(d: Decision, httpResponse: bool): seq<Effect> {
    match d
    case Allow => [ChainInvoked]
    case Unauthorized => if httpResponse then [ErrorSent(ScUnauthorized)] else []
    case Forbidden => if httpResponse then [ErrorSent(ScForbidden)] else []
  }

  class AuthenticatedFilter {
    /** Whether the user needs to be an admin. */
    var needsAdmin: bool
    /** A role the user needs to hold (or be admin); `None` when there is none. */
    var needsRole: Option<string>

    constructor ()
      ensures needsAdmin == false && needsRole == None
    {
      needsAdmin := false;
      needsRole := None;
    }

    method Init(config: map<string, string>)
      modifies this
      ensures needsAdmin == ParsedNeedsAdmin(config, old(needsAdmin))
      ensures needsRole == ParsedNeedsRole(config, old(needsRole))
    {
      var needsAdminStr := InitParam(config, NeedsAdminParam);
      if needsAdminStr.Some? && needsAdminStr.value != "" {
        needsAdmin := ParseBoolean(needsAdminStr.value);
      }
      var needsRoleStr := InitParam(config, NeedsRoleParam);
      if needsRoleStr.Some? && needsRoleStr.value != "" {
        needsRole := Some(needsRoleStr.value);
      }
    }

    /** One pass of a request through the filter. */
    method DoFilter(req: Request, httpResponse: bool, sessions: map<string, User>)
      returns (effects: seq<Effect>)
      ensures effects == EffectsOf(Decide(needsAdmin, needsRole, req, sessions), httpResponse)
      ensures ChainInvoked in effects <==> Decide(needsAdmin, needsRole, req, sessions) == Allow
      ensures |effects| <= 1 && (httpResponse ==> |effects| == 1)
    {
      if req.Http? {
        var token := req.authorization;
        if token.None? {
          effects := if httpResponse then [ErrorSent(ScUnauthorized)] else [];
          return;
        }
        if token.value !in sessions {
          effects := if httpResponse then [ErrorSent(ScForbidden)] else [];
          return;
        }
        var user := sessions[token.value];
        if needsAdmin && !user.isAdmin {
          effects := if httpResponse then [ErrorSent(ScForbidden)] else [];
          return;
        }
        if !user.isAdmin && needsRole.Some? && needsRole.value !in user.roles {
          effects := if httpResponse then [ErrorSent(ScForbidden)] else [];
          return;
        }
      }
      effects := [ChainInvoked];
    }
  }

  // -----------------------------------------------------------------------
  // init
  // -----------------------------------------------------------------------

  /** From the defaults, `needsAdmin` ends up true exactly when the parameter is
      present and reads "true" ignoring case; an absent or empty parameter keeps false. */
  lemma NeedsAdminFromDefaults(config: map<string, string>)
    ensures ParsedNeedsAdmin(config, false)
      <==> NeedsAdminParam in config && ParseBoolean(config[NeedsAdminParam])
  {
  }

  /** From the defaults, a role is required exactly when the parameter is present and non-empty. */
  lemma NeedsRoleFromDefaults(config: map<string, string>)
    ensures ParsedNeedsRole(config, None)
      == if NeedsRoleParam in config && config[NeedsRoleParam] != "" then Some(config[NeedsRoleParam]) else None
  {
  }

  // -----------------------------------------------------------------------
  // doFilter, per requirement kind
  // -----------------------------------------------------------------------

  /** Requests that are not HTTP bypass every check. */
  lemma NonHttpBypasses(needsAdmin: bool, needsRole: Option<string>, sessions: map<string, User>)
    ensures Decide(needsAdmin, needsRole, NonHttp, sessions) == Allow
  {
  }

  /** UNAUTHORIZED is given exactly to HTTP requests without an `Authorization` header. */
  lemma UnauthorizedIffNoHeader(needsAdmin: bool, needsRole: Option<string>, req: Request,
                                sessions: map<string, User>)
    ensures Decide(needsAdmin, needsRole, req, sessions) == Unauthorized <==> req == Http(None)
  {
  }

  /** A token that resolves to no user is FORBIDDEN, whatever the requirement. */
  lemma UnknownTokenForbidden(needsAdmin: bool, needsRole: Option<string>, token: string,
                              sessions: map<string, User>)
    requires token !in sessions
    ensures Decide(needsAdmin, needsRole, Http(Some(token)), sessions) == Forbidden
  {
  }

  /** Admin requirement: an admin passes; a non-admin is FORBIDDEN whatever its roles. */
  lemma AdminRequirement(needsRole: Option<string>, token: string, sessions: map<string, User>)
    requires token in sessions
    ensures Decide(true, needsRole, Http(Some(token)), sessions)
      == if sessions[token].isAdmin then Allow else Forbidden
  {
  }

  /** Role requirement: an admin always passes; a non-admin passes exactly when holding the role. */
  lemma RoleRequirement(role: string, token: string, sessions: map<string, User>)
    requires token in sessions
    ensures Decide(false, Some(role), Http(Some(token)), sessions)
      == if sessions[token].isAdmin || role in sessions[token].roles then Allow else Forbidden
  {
  }

  /** Authentication only: any user the token resolves to passes. */
  lemma AuthenticatedRequirement(token: string, sessions: map<string, User>)
    ensures Decide(false, None, Http(Some(token)), sessions)
      == if token in sessions then Allow else Forbidden
  {
  }

  /** The admin requirement is the strongest: whatever passes it passes every requirement. */
  lemma AdminIsStrongest(needsAdmin: bool, needsRole: Option<string>, adminRole: Option<string>,
                         req: Request, sessions: map<string, User>)
    requires Decide(true, adminRole, req, sessions) == Allow
    ensures Decide(needsAdmin, needsRole, req, sessions) == Allow
  {
  }

  /** Adding a requirement never turns a refusal into a pass. */
  lemma RequirementsAreMonotone(needsRole: Option<string>, req: Request, sessions: map<string, User>)
    ensures Decide(false, needsRole, req, sessions) == Allow ==> Decide(false, None, req, sessions) == Allow
    ensures Decide(true, needsRole, req, sessions) == Allow ==> Decide(false, needsRole, req, sessions) == Allow
  {
  }

  /** Over an HTTP exchange the chain runs exactly once on ALLOW and never
      otherwise, and a refusal sends exactly one error with its status. */
  lemma ExactlyOneEffect(d: Decision)
    ensures |EffectsOf(d, true)| == 1
    ensures EffectsOf(d, true)[0] == ChainInvoked <==> d == Allow
    ensures d == Unauthorized <==> EffectsOf(d, true) == [ErrorSent(ScUnauthorized)]
    ensures d == Forbidden <==> EffectsOf(d, true) == [ErrorSent(ScForbidden)]
  {
  }
}
