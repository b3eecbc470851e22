/** The path filter and the membership maps that `compile` builds for it. */
module Filter {
  import opened Wrappers
  import opened Paths

  /** The part of an HTTP request the core reads. `verb` is the HTTP method, `path` the URL's
      path, `url` the URL's string form, `referrer` the Referer header ("" when absent) and
      `returnTo` the value the request context holds under the return-to context key (None when
      the key was never set). */
  datatype Request = Request(
    verb: string,
    path: string,
    url: string,
    referrer: string,
    returnTo: Option<string>)

  /** The rule sets the path filter consults: the two compiled maps and the prefix list. */
  datatype Rules = Rules(
    allowedExtensions: map<string, bool>,
    ignoredPaths: map<string, bool>,
    ignoredPrefixes: seq<string>)

  /** Indexing a Go `map[string]bool`: a missing key reads as false. */
  function Lookup(m: map<string, bool>, k: string): (found: bool)
    ensures k in m ==> found == m[k]
    ensures k !in m ==> !found
  {
    k in m && m[k]
  }

  /** Go's `strings.HasPrefix(s, prefix)`. */
  predicate HasPrefix(s: string, prefix: string)
    ensures HasPrefix(s, prefix) <==> |prefix| <= |s| && s[..|prefix|] == prefix
  {
    prefix <= s
  }

  predicate AnyPrefix(prefixes: seq<string>, p: string) {
    exists i :: 0 <= i < |prefixes| && HasPrefix(p, prefixes[i])
  }

  /** The compiled path filter: a path is ignored when its extension is not allowed, when it is
      an ignored path, or when it starts with an ignored prefix. */
  predicate PathIgnored(rules: Rules, p: string)
    ensures Ext(p) !in rules.allowedExtensions ==> PathIgnored(rules, p)
    ensures p in rules.ignoredPaths && rules.ignoredPaths[p] ==> PathIgnored(rules, p)
    ensures forall i :: 0 <= i < |rules.ignoredPrefixes| && HasPrefix(p, rules.ignoredPrefixes[i]) ==>
              PathIgnored(rules, p)
    ensures !PathIgnored(rules, p) ==> Ext(p) in rules.allowedExtensions
    ensures && Lookup(rules.allowedExtensions, Ext(p))
            && !Lookup(rules.ignoredPaths, p)
            && !AnyPrefix(rules.ignoredPrefixes, p)
            ==> !PathIgnored(rules, p)
  {
    || !Lookup(rules.allowedExtensions, Ext(p))
    || Lookup(rules.ignoredPaths, p)
    || AnyPrefix(rules.ignoredPrefixes, p)
  }

  /** Reference definition over the configured lists: `p` may be remembered as a return target. */
  ghost predicate Eligible(allowed: seq<string>, ignored: seq<string>, prefixes: seq<string>, p: string) {
    && Ext(p) in allowed
    && p !in ignored
    && forall i :: 0 <= i < |prefixes| ==> !(prefixes[i] <= p)
  }

  /** `m` is the map Go builds by storing `true` under every element of `xs`. */
  ghost predicate Mirrors(m: map<string, bool>, xs: seq<string>) {
    && m.Keys == (set x | x in xs)
    && forall k :: k in m ==> m[k]
  }

  /** One of the two `for` loops of `compile`: a fresh map, then `true` under every listed key. */
  method MembershipMap(xs: seq<string>) returns (m: map<string, bool>)
    ensures Mirrors(m, xs)
    ensures forall k :: Lookup(m, k) <==> k in xs
  {
    m := map[];
    for i := 0 to |xs|
      invariant m.Keys == (set x | x in xs[..i])
      invariant forall k :: k in m ==> m[k]
    {
      assert xs[..i + 1] == xs[..i] + [xs[i]];
      m := m[xs[i] := true];
    }
    assert xs[..|xs|] == xs;
  }

  /** A membership map answers exactly the list's membership question; unlisted keys read false. */
  lemma LookupMirrors(m: map<string, bool>, xs: seq<string>, k: string)
    requires Mirrors(m, xs)
    ensures Lookup(m, k) <==> k in xs
  {
  }

  /** Compiling the same list twice gives the same map. */
  lemma MirrorsUnique(m1: map<string, bool>, m2: map<string, bool>, xs: seq<string>)
    requires Mirrors(m1, xs) && Mirrors(m2, xs)
    ensures m1 == m2
  {
    forall k | k in m1 ensures k in m2 && m1[k] == m2[k] {
    }
  }

  /** The compiled filter lets a path through exactly when the reference definition over the
      configured lists does. */
  lemma CompiledFilterMatchesLists(rules: Rules, allowed: seq<string>, ignored: seq<string>, p: string)
    requires Mirrors(rules.allowedExtensions, allowed)
    requires Mirrors(rules.ignoredPaths, ignored)
    ensures !PathIgnored(rules, p) <==> Eligible(allowed, ignored, rules.ignoredPrefixes, p)
  {
    LookupMirrors(rules.allowedExtensions, allowed, Ext(p));
    LookupMirrors(rules.ignoredPaths, ignored, p);
  }

  /** A path whose extension is not allowed is ignored, whatever else holds. */
  lemma DisallowedExtensionIgnored(rules: Rules, allowed: seq<string>, p: string)
    requires Mirrors(rules.allowedExtensions, allowed)
    requires Ext(p) !in allowed
    ensures PathIgnored(rules, p)
  {
    LookupMirrors(rules.allowedExtensions, allowed, Ext(p));
  }

  /** An exactly listed path is ignored whatever its extension. */
  lemma ListedPathIgnored(rules: Rules, ignored: seq<string>, p: string)
    requires Mirrors(rules.ignoredPaths, ignored)
    requires p in ignored
    ensures PathIgnored(rules, p)
  {
    LookupMirrors(rules.ignoredPaths, ignored, p);
  }
}
