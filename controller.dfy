/** The redirect-back instance: construction with defaults, compilation of the rule sets, the
    request filter, the choice of redirect target and the session-recording middleware. */
module Controller {
  import opened Wrappers
  import opened Paths
  import opened Filter

  /** The session key under which the return target is remembered. */
  const ReturnToKey: string := "return_to"
  /** `http.StatusSeeOther`. */
  const StatusSeeOther: int := 303
  const DefaultFallbackPath: string := "/"
  const DefaultAllowedExtensions: seq<string> := ["", ".html"]

  /** The redirect `http.Redirect` is asked to send. */
  datatype Redirect = Redirect(target: string, status: int)

  type Session = map<string, string>

  /** The session manager's `Get`, assumed to give "" for a key that is not stored. */
  function SessionGet(s: Session, key: string): (value: string)
    ensures key in s ==> value == s[key]
    ensures key !in s ==> value == ""
  {
    if key in s then s[key] else ""
  }

  /** Go's `range` over a slice that may be nil: a nil slice has no elements. */
  function Elements(xs: Option<seq<string>>): seq<string> {
    if xs.Some? then xs.value else []
  }

  /** The user's configuration. `allowedExtensions` is None for a nil slice, which differs from
      an empty one; `ignoreFunc` is None for a nil function. */
  class Config {
    var fallbackPath: string
    var ignoredPaths: seq<string>
    var ignoredPrefixes: seq<string>
    var allowedExtensions: Option<seq<string>>
    var ignoreFunc: Option<Request -> bool>

    constructor (fallbackPath: string, ignoredPaths: seq<string>, ignoredPrefixes: seq<string>,
                 allowedExtensions: Option<seq<string>>, ignoreFunc: Option<Request -> bool>)
      ensures this.fallbackPath == fallbackPath
      ensures this.ignoredPaths == ignoredPaths
      ensures this.ignoredPrefixes == ignoredPrefixes
      ensures this.allowedExtensions == allowedExtensions
      ensures this.ignoreFunc == ignoreFunc
    {
      this.fallbackPath := fallbackPath;
      this.ignoredPaths := ignoredPaths;
      this.ignoredPrefixes := ignoredPrefixes;
      this.allowedExtensions := allowedExtensions;
      this.ignoreFunc := ignoreFunc;
    }
  }

  /** The per-request application context the middleware works on: the current request, the
      session of its user and the application's URL rewriting (`GenURL`). */
  class Context {
    var request: Request
    var session: Session
    const genURL: string -> string

    constructor (request: Request, session: Session, genURL: string -> string)
      ensures this.request == request && this.session == session && this.genURL == genURL
    {
      this.request := request;
      this.session := session;
      this.genURL := genURL;
    }
  }

  class RedirectBack {
    var config: Config
    var ignoredPathsMap: map<string, bool>
    var allowedExtensionsMap: map<string, bool>

    /** The two maps are the membership maps of the configured lists. */
    ghost predicate Compiled()
      reads this, config
    {
      && Mirrors(ignoredPathsMap, config.ignoredPaths)
      && Mirrors(allowedExtensionsMap, Elements(config.allowedExtensions))
    }

    /** What `New` establishes: the defaults are filled in and the maps are compiled. */
    ghost predicate Valid()
      reads this, config
    {
      && config.fallbackPath != ""
      && config.allowedExtensions.Some?
      && Compiled()
    }

    /** The rule sets the path filter consults; the prefixes are read from the configuration. */
    function Rules(): Rules
      reads this, config
    {
      Filter.Rules(allowedExtensionsMap, ignoredPathsMap, config.ignoredPrefixes)
    }

    /** Path eligibility stated over the configuration's lists. */
    ghost predicate EligiblePath(p: string)
      reads this, config
    {
      Eligible(Elements(config.allowedExtensions), config.ignoredPaths, config.ignoredPrefixes, p)
    }

    /** `New`: fills in the defaults in the caller's configuration, then compiles it. */
    constructor New(config: Config)
      modifies config
      ensures this.config == config
      ensures config.fallbackPath ==
        if old(config.fallbackPath) == "" then DefaultFallbackPath else old(config.fallbackPath)
      ensures config.allowedExtensions ==
        if old(config.allowedExtensions).None? then Some(DefaultAllowedExtensions)
        else old(config.allowedExtensions)
      ensures config.ignoredPaths == old(config.ignoredPaths)
      ensures config.ignoredPrefixes == old(config.ignoredPrefixes)
      ensures config.ignoreFunc == old(config.ignoreFunc)
      ensures Valid()
    {
      if config.fallbackPath == "" {
        config.fallbackPath := DefaultFallbackPath;
      }
      if config.allowedExtensions.None? {
        config.allowedExtensions := Some(DefaultAllowedExtensions);
      }
      this.config := config;
      ignoredPathsMap := map[];
      allowedExtensionsMap := map[];
      new;
      Compile();
    }

    /** `compile`: rebuilds both membership maps from the configuration. */
    method Compile()
      modifies this`ignoredPathsMap, this`allowedExtensionsMap
      ensures Compiled()
    {
      ignoredPathsMap := MembershipMap(config.ignoredPaths);
      allowedExtensionsMap := MembershipMap(Elements(config.allowedExtensions));
    }

    /** The `IgnorePath` closure: the extension rule, then the exact-path rule, then the
        prefixes in order, the first that fails deciding. */
    method IgnorePath(pth: string) returns (ignored: bool)
      ensures ignored == PathIgnored(Rules(), pth)
      ensures Compiled() ==> (!ignored <==> EligiblePath(pth))
    {
      if Compiled() {
        CompiledFilterMatchesLists(Rules(), Elements(config.allowedExtensions), config.ignoredPaths, pth);
      }
      if !Lookup(allowedExtensionsMap, Ext(pth)) {
        return true;
      }
      if Lookup(ignoredPathsMap, pth) {
        return true;
      }
      var prefixes := config.ignoredPrefixes;
      for i := 0 to |prefixes|
        invariant forall j :: 0 <= j < i ==> !HasPrefix(pth, prefixes[j])
      {
        if HasPrefix(pth, prefixes[i]) {
          return true;
        }
      }
      return false;
    }

    /** The `Ignore` closure: whether a request must not be remembered as a return target. */
    function Ignore(req: Request): (ignored: bool)
      reads this, config
      ensures req.verb != "GET" ==> ignored
      ensures req.verb == "GET" && config.ignoreFunc.Some? ==> ignored == config.ignoreFunc.value(req)
      ensures req.verb == "GET" && config.ignoreFunc.None? ==> ignored == PathIgnored(Rules(), req.path)
      ensures req.verb == "GET" && config.ignoreFunc.None? && Compiled() ==>
                (!ignored <==> EligiblePath(req.path))
    {
      if req.verb != "GET" then
        true
      else if config.ignoreFunc.Some? then
        config.ignoreFunc.value(req)
      else
        PathIgnored(Rules(), req.path)
    }

    /** `RedirectBack`: the redirect sent back to the client. `parse` stands for taking the
        path of the parsed referrer URL. */
    function RedirectBack(req: Request, parse: string -> string): (r: Redirect)
      reads this, config
      ensures r.status == StatusSeeOther
      ensures req.returnTo.Some? ==> r.target == req.returnTo.value
      ensures req.returnTo.None? && req.referrer != "" && !PathIgnored(Rules(), parse(req.referrer)) ==>
                r.target == req.referrer
      ensures req.returnTo.None? && (req.referrer == "" || PathIgnored(Rules(), parse(req.referrer))) ==>
                r.target == config.fallbackPath
      ensures req.returnTo.None? && Compiled() && req.referrer != "" ==>
                r.target == if EligiblePath(parse(req.referrer)) then req.referrer else config.fallbackPath
      ensures req.returnTo.None? && Valid() ==> r.target != ""
    {
      if req.returnTo.Some? then
        Redirect(req.returnTo.value, StatusSeeOther)
      else if req.referrer != "" && !PathIgnored(Rules(), parse(req.referrer)) then
        Redirect(req.referrer, StatusSeeOther)
      else
        Redirect(config.fallbackPath, StatusSeeOther)
    }

    /** One pass of the middleware handler on `req` with session `session`: the request it passes
        on and the session it leaves behind. */
    function MiddlewareStep(req: Request, session: Session, genURL: string -> string): (out: (Request, Session))
      reads this, config
      ensures out.0 == req.(returnTo := Some(SessionGet(session, ReturnToKey)))
      ensures !Ignore(out.0) && SessionGet(session, ReturnToKey) != req.url ==>
                out.1 == session[ReturnToKey := genURL(req.url)]
      ensures Ignore(out.0) || SessionGet(session, ReturnToKey) == req.url ==> out.1 == session
    {
      var returnTo := SessionGet(session, ReturnToKey);
      var next := req.(returnTo := Some(returnTo));
      if !Ignore(next) && returnTo != next.url then
        (next, session[ReturnToKey := genURL(next.url)])
      else
        (next, session)
    }

    /** The middleware handler: reads the remembered target, puts it into the request context and
        remembers the current URL when the request qualifies and the target differs from it. */
    method Middleware(ctx: Context)
      modifies ctx
      ensures (ctx.request, ctx.session) == MiddlewareStep(old(ctx.request), old(ctx.session), ctx.genURL)
    {
      var returnTo := SessionGet(ctx.session, ReturnToKey);
      var req := ctx.request.(returnTo := Some(returnTo));
      ctx.request := req;
      if !Ignore(req) && returnTo != req.url {
        returnTo := ctx.genURL(req.url);
        ctx.session := ctx.session[ReturnToKey := returnTo];
      }
    }
  }

  /** The compiled state is a function of the configuration: two instances compiled from the same
      lists consult the same rules. */
  lemma CompileIsDeterministic(a: RedirectBack, b: RedirectBack)
    requires a.Compiled() && b.Compiled()
    requires a.config.ignoredPaths == b.config.ignoredPaths
    requires a.config.ignoredPrefixes == b.config.ignoredPrefixes
    requires a.config.allowedExtensions == b.config.allowedExtensions
    ensures a.Rules() == b.Rules()
  {
    MirrorsUnique(a.ignoredPathsMap, b.ignoredPathsMap, a.config.ignoredPaths);
    MirrorsUnique(a.allowedExtensionsMap, b.allowedExtensionsMap, Elements(a.config.allowedExtensions));
  }

  /** The middleware never touches a session key other than the return-to key. */
  lemma MiddlewareTouchesOnlyReturnTo(rb: RedirectBack, req: Request, s: Session, genURL: string -> string, k: string)
    requires k != ReturnToKey
    ensures var s' := rb.MiddlewareStep(req, s, genURL).1;
      (k in s' <==> k in s) && (k in s ==> s'[k] == s[k])
  {
  }

  /** Non-GET requests are never remembered, whatever the configuration and the session. */
  lemma NonGetLeavesSession(rb: RedirectBack, req: Request, s: Session, genURL: string -> string)
    requires req.verb != "GET"
    ensures rb.MiddlewareStep(req, s, genURL).1 == s
  {
  }

  /** A qualifying visit to a page whose URL differs from the stored target stores the
      rewritten form of its URL. */
  lemma EligibleVisitIsRemembered(rb: RedirectBack, req: Request, s: Session, genURL: string -> string)
    requires rb.Compiled() && rb.config.ignoreFunc.None?
    requires req.verb == "GET" && rb.EligiblePath(req.path)
    requires SessionGet(s, ReturnToKey) != req.url
    ensures rb.MiddlewareStep(req, s, genURL).1 == s[ReturnToKey := genURL(req.url)]
  {
  }

  /** Running the middleware a second time on the same request leaves the session as the first
      pass left it, even when the user's predicate sees a different context value. */
  lemma MiddlewareIdempotent(rb: RedirectBack, req: Request, s: Session, genURL: string -> string)
    ensures var s1 := rb.MiddlewareStep(req, s, genURL).1;
      rb.MiddlewareStep(req, s1, genURL).1 == s1
  {
  }

  /** Once the middleware has run, the context slot is always set (to "" when nothing was stored),
      so the redirect always goes to the value read from the session. */
  lemma RedirectAfterMiddleware(rb: RedirectBack, req: Request, s: Session, genURL: string -> string,
                                parse: string -> string)
    ensures rb.RedirectBack(rb.MiddlewareStep(req, s, genURL).0, parse) ==
              Redirect(SessionGet(s, ReturnToKey), StatusSeeOther)
  {
  }

  /** With the default extensions, only extension-less and `.html` paths can be remembered. */
  lemma DefaultExtensionsAdmitPlainAndHtml(rb: RedirectBack, p: string)
    requires rb.Compiled() && rb.config.allowedExtensions == Some(DefaultAllowedExtensions)
    requires !PathIgnored(rb.Rules(), p)
    ensures Ext(p) == "" || Ext(p) == ".html"
  {
  }

  /** A referrer to a stylesheet under the default configuration falls back to "/". */
  lemma StylesheetReferrerFallsBack(rb: RedirectBack, req: Request, parse: string -> string)
    requires rb.Compiled() && rb.config.allowedExtensions == Some(DefaultAllowedExtensions)
    requires rb.config.fallbackPath == DefaultFallbackPath
    requires req.returnTo.None? && parse(req.referrer) == "/style.css"
    ensures rb.RedirectBack(req, parse) == Redirect("/", StatusSeeOther)
  {
    ExtIsUnique("/style.css", ".css");
    LookupMirrors(rb.allowedExtensionsMap, DefaultAllowedExtensions, ".css");
  }
}
