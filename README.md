# redirect_back, modelled in Dafny

The Go package `redirect_back` implements "redirect back". A middleware remembers the URL of
each qualifying page visit in the user's session under `return_to`. The application's
`RedirectBack` then sends the user back with a 303 See Other. It picks the target from the
request context first, then from the Referer header when its path qualifies, and otherwise uses
the configured fallback path.

A path qualifies when three rules all pass. Its extension (`filepath.Ext`) must be in the
allowed extensions, which default to `""` and `.html`. It must not be one of the ignored paths.
It must not start with any ignored prefix. A request qualifies only if it is a GET. If the user
configured an ignore predicate, that predicate alone decides for GET requests; otherwise the path
rules decide.

The model has four modules:

- `Wrappers` holds `Option`. It stands for Go's nil interface values and nil slices.
- `Paths` has `Ext`, which follows `filepath.Ext` for `/`-separated paths. It is proved to
  return the one suffix that starts at the last `.` of the final path element.
- `Filter` has the compiled rule sets (`Rules`) and the path filter (`PathIgnored`). It has
  `MembershipMap`, the loop `compile` uses to fill a `map[string]bool`, and `Eligible`, a
  reference definition over the configured lists. The lemmas prove that the compiled filter
  agrees with `Eligible`.
- `Controller` has `Config`, a class because `New` changes the caller's configuration in
  place. It has the `RedirectBack` class with `New`, `Compile`, the `IgnorePath` loop, the
  `Ignore` decision, the `RedirectBack` target choice and the middleware. The middleware
  updates a per-request `Context` object: a request and a session map.

Three behaviours of the model are worth knowing:

- The model assumes that the external session manager's `Get` returns the string `""` for a
  missing key (see "## Left out"). Under that assumption the middleware always puts a string
  into the request context, `""` included. So once the middleware has run, `RedirectBack`
  hands the stored value, even `""`, to `http.Redirect` (`Controller.RedirectAfterMiddleware`).
- The session value is read with `Get` and never deleted.
- The middleware compares the stored value with `req.URL.String()` but stores
  `GenURL(req.URL.String())`. When `GenURL` rewrites the URL, each qualifying visit writes the
  same value again. The session is unchanged either way (`Controller.MiddlewareIdempotent`).

## Model

| member | source | states |
|---|---|---|
| `Paths.Ext` | redirect_back.go:66 | the extension is a suffix of the path, is empty or starts with `.`, contains no `/` and no second `.`; when it is empty, every `.` in the path is followed by a `/` |
| `Paths.ExtIsUnique` | redirect_back.go:66 | any string with those properties is `Ext(p)`: the extension is determined by the final path element alone |
| `Paths.ExtIgnoresDirectories` | redirect_back.go:66 | a dot in a directory component never yields an extension when the final element has no dot |
| `Filter.Lookup` | redirect_back.go:66-70 | indexing a compiled map: a present key reads its stored value, and a missing key reads false |
| `Filter.HasPrefix` | redirect_back.go:75 | `strings.HasPrefix`: the prefix is no longer than the string and equals its first characters |
| `Filter.PathIgnored` | redirect_back.go:65-81 | the path filter the closure computes: a disallowed extension, a listed path or a matching prefix each makes the path ignored on its own; a path whose extension is allowed, that is not listed and that has no listed prefix is kept; the extension of a kept path is a key of the allowed-extension map |
| `Filter.MembershipMap` | redirect_back.go:54-63 | the loop builds the map whose keys are exactly the list's elements, all mapped to true, so a lookup is true exactly for listed keys |
| `Filter.LookupMirrors` | redirect_back.go:53-63 | looking up a compiled map (missing keys read false) answers exactly "is it in the list" |
| `Filter.MirrorsUnique` | redirect_back.go:53-63 | compiling one list twice gives the same map |
| `Filter.CompiledFilterMatchesLists` | redirect_back.go:65-81 | the compiled filter keeps a path exactly when its extension is allowed, it is not an ignored path and no ignored prefix is a prefix of it |
| `Filter.DisallowedExtensionIgnored` | redirect_back.go:66-68 | a path whose extension is not in the allowed list is ignored |
| `Filter.ListedPathIgnored` | redirect_back.go:70-72 | an exactly listed path is ignored whatever its extension |
| `Controller.SessionGet` | redirect_back.go:122 | the session read: the stored value under the key, or `""` when the key is absent (an assumption about the external `Get`) |
| `Controller.Config.constructor` | redirect_back.go:20-26 | a configuration holds exactly the given fallback path, ignored paths, ignored prefixes, allowed extensions (None for a nil slice) and optional ignore predicate |
| `Controller.RedirectBack.New` | redirect_back.go:29-41 | an empty fallback path becomes `/` and a nil extension list becomes `["", ".html"]`; other values and the other fields are left unchanged; the maps are then compiled from the lists |
| `Controller.RedirectBack.Compile` | redirect_back.go:53-63 | afterwards both maps are the membership maps of the configured lists (a nil extension list gives an empty map) |
| `Controller.RedirectBack.IgnorePath` | redirect_back.go:65-81 | the sequential checks with early return compute the compiled filter; on a compiled instance, false exactly when the path is eligible under the configured lists |
| `Controller.RedirectBack.Ignore` | redirect_back.go:83-93 | every non-GET request is ignored; for GET, the user predicate's answer when one is set, otherwise the path filter on the URL path, which on a compiled instance is eligibility under the lists |
| `Controller.RedirectBack.RedirectBack` | redirect_back.go:97-113 | status is always 303; the target is the context value when present, else the referrer verbatim when it is non-empty and its path is eligible, else the fallback path; after `New` the target can only be empty if the context value is empty |
| `Controller.RedirectBack.MiddlewareStep` | redirect_back.go:121-130 | the request passed on carries the value read from the session; the session gets `return_to = GenURL(url)` when the request is not ignored and the stored value differs from the URL, and is unchanged otherwise |
| `Controller.RedirectBack.Middleware` | redirect_back.go:120-131 | the handler leaves the context's request and session as `MiddlewareStep` describes |
| `Controller.CompileIsDeterministic` | redirect_back.go:53-63 | two instances compiled from the same lists consult identical rules |
| `Controller.MiddlewareTouchesOnlyReturnTo` | redirect_back.go:122-130 | no session key other than `return_to` is added, removed or changed |
| `Controller.NonGetLeavesSession` | redirect_back.go:84-130 | a non-GET request never changes the session |
| `Controller.EligibleVisitIsRemembered` | redirect_back.go:127-130 | a GET to an eligible path, with no user predicate and a stored value different from its URL, stores the rewritten URL |
| `Controller.MiddlewareIdempotent` | redirect_back.go:122-130 | a second pass of the middleware on the same request leaves the session as the first pass left it |
| `Controller.RedirectAfterMiddleware` | redirect_back.go:98-124 | after the middleware, `RedirectBack` redirects (303) to the value read from the session, `""` when nothing was stored |
| `Controller.DefaultExtensionsAdmitPlainAndHtml` | redirect_back.go:34-36 | with the default extensions, only extension-less and `.html` paths pass the filter |
| `Controller.StylesheetReferrerFallsBack` | redirect_back.go:105-112 | with no context value, a referrer whose path is `/style.css` and the default configuration, the redirect goes to `/` |

## Left out

- HTTP plumbing: `http.Redirect` and the `ResponseWriter`. The redirect is returned as the target and status handed to `http.Redirect`; how `http.Redirect` resolves an empty or relative target against the current request path is not modelled. The Referer header is a field of the modelled request.
- `url.Parse` is foreign code. It is a parameter `parse` that maps the referrer to its path. A parse failure, which the source ignores and which would dereference nil, is not modelled.
- Route wiring: the middleware's name and ordering, `chain.Next`, `qor.ContexFromChain`, and how `context.WithValue` keys the context. The context value is one optional string in the request.
- The session manager backend and `GenURL` are external. The session is a `map<string, string>` and `GenURL` is a function held by the context.
- `Controller.SessionGet` assumes the external `Get` returns the string `""` for a missing key; its signature is not part of this model. If it returned a nil interface instead, the context value would be nil after the middleware and `RedirectBack` would go on to the referrer branch. `Controller.RedirectAfterMiddleware` and `Controller.RedirectBack.Middleware` rest on this assumption.
- The `Ignore` and `IgnorePath` fields of the Go struct are exported function values that a caller can reassign after `New`; replacing `IgnorePath` alone would also change what `Ignore` does. The model fixes both to the closures `compile` builds (`Controller.RedirectBack.Ignore`, `Controller.RedirectBack.IgnorePath`) and does not capture reassignment.
- The body of the user's `IgnoreFunc` is arbitrary user code. Only its boolean answer is used.
- `filepath.Ext`'s OS-specific separators. Only `/` is modelled.
- Concurrency on the shared session store is owned by the session manager and is not modelled.
