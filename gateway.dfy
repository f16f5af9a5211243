/**
 * The access-controlled gateway: the token check that runs before every
 * route, the two mount guards, and how a request is routed through them
 * to one of the two dashboards.
 */
module Gateway {
  import opened Wrappers
  import opened Dashboard

  const RootRole := "root"
  const DeveloperRole := "developer"
  const AccessTokenCookie := "accessToken"

  /** The claims a verified token decodes to; `role` is absent when the token carries none. */
  datatype Claims = Claims(role: Option<string>)

  /** The outcome of the token library's signature and expiry check. */
  datatype Verification = Decoded(claims: Claims) | Rejected

  /** The token library's check, as a function of the token and the signing secret. */
  type Verifier = (string, string) -> Verification

  /** The configuration the gateway reads at start-up. */
  datatype Config = Config(secret: string, redirectURL: string, queueNames: seq<string>, prefix: string)

  /** What the gateway looks at in a request: the parsed cookies and the URL as received. */
  datatype Request = Request(cookies: map<string, string>, originalUrl: string)

  datatype Response = Json(status: nat, message: string) | Redirect(location: string)

  const TokenRequired := Json(401, "Token is required")
  const ReadonlyRequired := Json(403, "Readonly access required")
  const ReadwriteRequired := Json(403, "Readwrite access required")

  /** The token check either answers the request itself or passes it on with an access level. */
  datatype Stage = Halt(response: Response) | Next(accessLevel: Option<string>)

  /** A token is present when the cookie exists and is not the empty string. */
  predicate HasToken(req: Request) {
    AccessTokenCookie in req.cookies && req.cookies[AccessTokenCookie] != ""
  }

  function Token(req: Request): string
    requires HasToken(req)
  {
    req.cookies[AccessTokenCookie]
  }

  /** The verifier's answer for the request's token. */
  function Verified(req: Request, verify: Verifier, config: Config): Verification
    requires HasToken(req)
  {
    verify(Token(req), config.secret)
  }

  /** The token check that runs before every route. */
  function VerifyToken(req: Request, verify: Verifier, config: Config): (r: Stage)
    ensures !HasToken(req) <==> r == Halt(TokenRequired)
    ensures HasToken(req) && Verified(req, verify, config).Rejected? ==> r == Halt(Redirect(config.redirectURL))
    ensures r.Next? ==> HasToken(req) && Verified(req, verify, config) == Decoded(Claims(r.accessLevel))
    ensures r.Next? && req.originalUrl == "/" ==> r.accessLevel != Some(RootRole) && r.accessLevel != Some(DeveloperRole)
    ensures HasToken(req) && Verified(req, verify, config).Decoded? ==>
      var level := Verified(req, verify, config).claims.role;
      if req.originalUrl == "/" && level == Some(RootRole) then r == Halt(Redirect(ReadWriteBase))
      else if req.originalUrl == "/" && level == Some(DeveloperRole) then r == Halt(Redirect(ReadOnlyBase))
      else r == Next(level)
  {
    if !HasToken(req) then Halt(TokenRequired)
    else match verify(Token(req), config.secret)
      case Rejected => Halt(Redirect(config.redirectURL))
      case Decoded(claims) =>
        var accessLevel := claims.role;
        if accessLevel == Some(RootRole) && req.originalUrl == "/" then Halt(Redirect(ReadWriteBase))
        else if accessLevel == Some(DeveloperRole) && req.originalUrl == "/" then Halt(Redirect(ReadOnlyBase))
        else Next(accessLevel)
  }

  /** The guard in front of the read-only dashboard: None lets the request through. */
  function ReadOnlyGuard(accessLevel: Option<string>): (denial: Option<Response>)
    ensures denial.None? <==> accessLevel == Some(DeveloperRole)
    ensures denial.Some? ==> denial.value == ReadonlyRequired
  {
    if accessLevel != Some(DeveloperRole) then Some(ReadonlyRequired) else None
  }

  /** The guard in front of the read-write dashboard: None lets the request through. */
  function ReadWriteGuard(accessLevel: Option<string>): (denial: Option<Response>)
    ensures denial.None? <==> accessLevel == Some(RootRole)
    ensures denial.Some? ==> denial.value == ReadwriteRequired
  {
    if accessLevel != Some(RootRole) then Some(ReadwriteRequired) else None
  }

  // ---------------------------------------------------------------------
  // Routing a request to a mount
  // ---------------------------------------------------------------------

  datatype Mount = ReadOnlyMount | ReadWriteMount | NoMount

  /** The path part of an origin-form URL: everything before the first `?` or `#`. */
  function PathName(url: string): (p: string)
    ensures p <= url && '?' !in p && '#' !in p
    ensures |p| < |url| ==> url[|p|] == '?' || url[|p|] == '#'
  {
    if url == [] || url[0] == '?' || url[0] == '#' then [] else [url[0]] + PathName(url[1..])
  }

  function LowerAscii(c: char): char {
    if 'A' <= c <= 'Z' then (c as int + 32) as char else c
  }

  /** String equality ignoring the case of ASCII letters. */
  predicate EqualIgnoringCase(s: string, t: string) {
    |s| == |t| && forall i :: 0 <= i < |s| ==> LowerAscii(s[i]) == LowerAscii(t[i])
  }

  /**
   * A mount path matches a request path that equals it or continues it with
   * a `/`, ignoring the case of ASCII letters.
   */
  predicate UnderBase(path: string, base: string) {
    && |path| >= |base|
    && EqualIgnoringCase(path[..|base|], base)
    && (|path| == |base| || path[|base|] == '/')
  }

  /**
   * No path falls under both mounts: the two mount paths differ, ignoring
   * case, at a position both of them have.
   */
  lemma MountsDisjoint(path: string)
    ensures !(UnderBase(path, ReadOnlyBase) && UnderBase(path, ReadWriteBase))
  {
  }

  /**
   * The dashboard mount a URL falls under, if any. Because the mounts are
   * disjoint, the order in which they are tried does not matter.
   */
  function MountOf(url: string): (m: Mount)
    ensures m == ReadOnlyMount <==> UnderBase(PathName(url), ReadOnlyBase)
    ensures m == ReadWriteMount <==> UnderBase(PathName(url), ReadWriteBase)
  {
    var path := PathName(url);
    MountsDisjoint(path);
    if UnderBase(path, ReadOnlyBase) then ReadOnlyMount
    else if UnderBase(path, ReadWriteBase) then ReadWriteMount
    else NoMount
  }

  /** A URL without a query string or a fragment is all path. */
  lemma {:induction false} PathNameWithoutQuery(url: string)
    requires '?' !in url && '#' !in url
    ensures PathName(url) == url
  {
    if url != [] {
      assert '?' !in url[1..] && '#' !in url[1..] by {
        forall i | 0 <= i < |url[1..]| ensures url[1..][i] != '?' && url[1..][i] != '#' {
          assert url[1..][i] == url[i + 1];
        }
      }
      PathNameWithoutQuery(url[1..]);
    }
  }

  lemma RootPathHasNoMount()
    ensures MountOf("/") == NoMount
  {
    PathNameWithoutQuery("/");
  }

  lemma ReadOnlyBasePath()
    ensures PathName(ReadOnlyBase) == ReadOnlyBase
  {
    PathNameWithoutQuery(ReadOnlyBase);
  }

  lemma ReadOnlyBaseUnderItself()
    ensures UnderBase(ReadOnlyBase, ReadOnlyBase)
  {
    assert ReadOnlyBase[..|ReadOnlyBase|] == ReadOnlyBase;
  }

  lemma ReadOnlyBaseMount()
    ensures MountOf(ReadOnlyBase) == ReadOnlyMount
  {
    ReadOnlyBasePath();
    ReadOnlyBaseUnderItself();
  }

  lemma ReadWriteBasePath()
    ensures PathName(ReadWriteBase) == ReadWriteBase
  {
    PathNameWithoutQuery(ReadWriteBase);
  }

  lemma ReadWriteBaseNotUnderReadOnly()
    ensures !UnderBase(ReadWriteBase, ReadOnlyBase)
  {
    assert LowerAscii(ReadWriteBase[..|ReadOnlyBase|][8]) != LowerAscii(ReadOnlyBase[8]);
  }

  lemma ReadWriteBaseUnderItself()
    ensures UnderBase(ReadWriteBase, ReadWriteBase)
  {
    assert ReadWriteBase[..|ReadWriteBase|] == ReadWriteBase;
  }

  lemma ReadWriteBaseMount()
    ensures MountOf(ReadWriteBase) == ReadWriteMount
  {
    ReadWriteBasePath();
    ReadWriteBaseNotUnderReadOnly();
    ReadWriteBaseUnderItself();
  }

  /** The site root falls under no mount, and each mount path under its own mount. */
  lemma MountsOfEntryPaths()
    ensures MountOf("/") == NoMount
    ensures MountOf(ReadOnlyBase) == ReadOnlyMount
    ensures MountOf(ReadWriteBase) == ReadWriteMount
  {
    RootPathHasNoMount();
    ReadOnlyBaseMount();
    ReadWriteBaseMount();
  }

  // ---------------------------------------------------------------------
  // The whole pipeline
  // ---------------------------------------------------------------------

  datatype Router = ReadOnlyRouter | ReadWriteRouter

  /** A request is answered, reaches a dashboard's router, or matches no route. */
  datatype Outcome = Respond(response: Response) | Reach(router: Router) | Unrouted

  /**
   * The mount guards applied after the token check. Whatever mount the
   * request is routed to, only 'developer' reaches the read-only router and
   * only 'root' the read-write router.
   */
  function Dispatch(stage: Stage, mount: Mount): (r: Outcome)
    ensures stage.Halt? ==> r == Respond(stage.response)
    ensures r == Reach(ReadOnlyRouter) <==> stage == Next(Some(DeveloperRole)) && mount == ReadOnlyMount
    ensures r == Reach(ReadWriteRouter) <==> stage == Next(Some(RootRole)) && mount == ReadWriteMount
    ensures r == Unrouted <==> stage.Next? && mount == NoMount
    ensures stage.Next? && mount == ReadOnlyMount && stage.accessLevel != Some(DeveloperRole) ==>
      r == Respond(ReadonlyRequired)
    ensures stage.Next? && mount == ReadWriteMount && stage.accessLevel != Some(RootRole) ==>
      r == Respond(ReadwriteRequired)
  {
    match stage
    case Halt(response) => Respond(response)
    case Next(level) =>
      match mount
      case ReadOnlyMount =>
        (match ReadOnlyGuard(level)
         case Some(denial) => Respond(denial)
         case None => Reach(ReadOnlyRouter))
      case ReadWriteMount =>
        (match ReadWriteGuard(level)
         case Some(denial) => Respond(denial)
         case None => Reach(ReadWriteRouter))
      case NoMount => Unrouted
  }

  /** A request through the token check and then the mount it falls under. */
  function Handle(req: Request, verify: Verifier, config: Config): (r: Outcome)
    ensures r == Reach(ReadOnlyRouter) <==>
      HasToken(req) && Verified(req, verify, config) == Decoded(Claims(Some(DeveloperRole)))
      && MountOf(req.originalUrl) == ReadOnlyMount
    ensures r == Reach(ReadWriteRouter) <==>
      HasToken(req) && Verified(req, verify, config) == Decoded(Claims(Some(RootRole)))
      && MountOf(req.originalUrl) == ReadWriteMount
    ensures r.Respond? && r.response.Json? && r.response.status == 403 ==>
      HasToken(req) && Verified(req, verify, config).Decoded? && MountOf(req.originalUrl) != NoMount
    ensures (HasToken(req) && Verified(req, verify, config).Decoded? && MountOf(req.originalUrl) == ReadOnlyMount
             && Verified(req, verify, config).claims.role != Some(DeveloperRole)) ==>
      r == Respond(ReadonlyRequired)
    ensures (HasToken(req) && Verified(req, verify, config).Decoded? && MountOf(req.originalUrl) == ReadWriteMount
             && Verified(req, verify, config).claims.role != Some(RootRole)) ==>
      r == Respond(ReadwriteRequired)
  {
    RootPathHasNoMount();
    Dispatch(VerifyToken(req, verify, config), MountOf(req.originalUrl))
  }

  /** Without a token the answer is 401 whatever the path, and the verifier is never consulted. */
  lemma MissingTokenIsRejected(req: Request, verify: Verifier, other: Verifier, config: Config)
    requires !HasToken(req)
    ensures Handle(req, verify, config) == Respond(TokenRequired)
    ensures Handle(req, verify, config) == Handle(req, other, config)
  {
  }

  /** A token the verifier rejects always leads to the fallback URL, never a 401 or a 403. */
  lemma RejectedTokenRedirects(req: Request, verify: Verifier, config: Config)
    requires HasToken(req) && Verified(req, verify, config).Rejected?
    ensures Handle(req, verify, config) == Respond(Redirect(config.redirectURL))
  {
  }

  /**
   * The roles never cross: a role other than 'root' and 'developer' (or no
   * role) reaches neither router, 'developer' never the read-write one and
   * 'root' never the read-only one. Role names compare exactly, so 'Root'
   * is such an other role.
   */
  lemma RolesNeverCross(req: Request, verify: Verifier, config: Config)
    requires HasToken(req) && Verified(req, verify, config).Decoded?
    ensures var role := Verified(req, verify, config).claims.role;
      && (role != Some(RootRole) && role != Some(DeveloperRole) ==> !Handle(req, verify, config).Reach?)
      && (role == Some(DeveloperRole) ==> Handle(req, verify, config) != Reach(ReadWriteRouter))
      && (role == Some(RootRole) ==> Handle(req, verify, config) != Reach(ReadOnlyRouter))
  {
  }

  /** `root` at the site root is sent to the read-write dashboard and reaches it. */
  lemma RootEntryLands(req: Request, verify: Verifier, config: Config)
    requires HasToken(req) && req.originalUrl == "/"
    requires Verified(req, verify, config) == Decoded(Claims(Some(RootRole)))
    ensures Handle(req, verify, config) == Respond(Redirect(ReadWriteBase))
    ensures Handle(req.(originalUrl := ReadWriteBase), verify, config) == Reach(ReadWriteRouter)
  {
    var rw := req.(originalUrl := ReadWriteBase);
    assert HasToken(rw) && Verified(rw, verify, config) == Verified(req, verify, config);
    ReadWriteBaseMount();
  }

  /** `developer` at the site root is sent to the read-only dashboard and reaches it. */
  lemma DeveloperEntryLands(req: Request, verify: Verifier, config: Config)
    requires HasToken(req) && req.originalUrl == "/"
    requires Verified(req, verify, config) == Decoded(Claims(Some(DeveloperRole)))
    ensures Handle(req, verify, config) == Respond(Redirect(ReadOnlyBase))
    ensures Handle(req.(originalUrl := ReadOnlyBase), verify, config) == Reach(ReadOnlyRouter)
  {
    var ro := req.(originalUrl := ReadOnlyBase);
    assert HasToken(ro) && Verified(ro, verify, config) == Verified(req, verify, config);
    ReadOnlyBaseMount();
  }

  /**
   * At the site root each of the two roles is sent to its own dashboard,
   * and following that redirect with the same cookies reaches that
   * dashboard's router.
   */
  lemma EntryRedirectsLand(req: Request, verify: Verifier, config: Config)
    requires HasToken(req) && req.originalUrl == "/"
    ensures Verified(req, verify, config) == Decoded(Claims(Some(RootRole))) ==>
      && Handle(req, verify, config) == Respond(Redirect(ReadWriteBase))
      && Handle(req.(originalUrl := ReadWriteBase), verify, config) == Reach(ReadWriteRouter)
    ensures Verified(req, verify, config) == Decoded(Claims(Some(DeveloperRole))) ==>
      && Handle(req, verify, config) == Respond(Redirect(ReadOnlyBase))
      && Handle(req.(originalUrl := ReadOnlyBase), verify, config) == Reach(ReadOnlyRouter)
  {
    if Verified(req, verify, config) == Decoded(Claims(Some(RootRole))) {
      RootEntryLands(req, verify, config);
    } else if Verified(req, verify, config) == Decoded(Claims(Some(DeveloperRole))) {
      DeveloperEntryLands(req, verify, config);
    }
  }
}
