/** The request guard run in front of every matched route: the sign-in API
    and the public authentication pages pass through, any other page needs
    a session and otherwise redirects to the login page with the requested
    path as `callbackUrl`. */
module Proxy {
  import opened Strings
  import Arrays

  /** What the guard does with a request: let it through (the lambda
      returns nothing), or redirect to `path` carrying `callbackUrl`. */
  datatype Decision = PassThrough | Redirect(path: string, callbackUrl: string)

  const AuthApiPrefix := "/api/auth"
  const LoginPath := "/auth/login"

  /** The pages open without a session, matched as prefixes. */
  const PublicRoutes: seq<string> := [LoginPath, "/auth/register", "/auth/forgot-password"]

  /** The pages open without a session, written out rule by rule. */
  predicate IsPublicPath(pathname: string) {
    || StartsWith(pathname, "/auth/login")
    || StartsWith(pathname, "/auth/register")
    || StartsWith(pathname, "/auth/forgot-password")
  }

  /** Whether a request for `pathname` needs a session. */
  predicate NeedsSession(pathname: string) {
    !StartsWith(pathname, AuthApiPrefix) && !IsPublicPath(pathname)
  }

  /** The guard's decision for a request for `pathname`, `authenticated`
      telling whether the request carries a session. It redirects exactly
      the requests without a session for pages that need one, always to the
      login page and always carrying the requested path. */
  function Decide(pathname: string, authenticated: bool): (d: Decision)
    ensures d.Redirect? <==> !authenticated && NeedsSession(pathname)
    ensures d.Redirect? ==> d.path == LoginPath && d.callbackUrl == pathname
  {
    var isPublic := Arrays.Any(PublicRoutes, (r: string) => StartsWith(pathname, r));
    assert isPublic <==> IsPublicPath(pathname) by {
      assert PublicRoutes[0] == "/auth/login" && PublicRoutes[1] == "/auth/register";
      assert PublicRoutes[2] == "/auth/forgot-password";
    }
    if StartsWith(pathname, AuthApiPrefix) then PassThrough
    else if isPublic then PassThrough
    else if !authenticated then Redirect(LoginPath, pathname)
    else PassThrough
  }

  lemma StartsWithExtends(s: string, prefix: string, suffix: string)
    requires StartsWith(s, prefix)
    ensures StartsWith(s + suffix, prefix)
  {
    assert (s + suffix)[..|prefix|] == s[..|prefix|];
  }

  /** Public pages are matched by prefix: anything below a public page, such
      as "/auth/login/x", is public too; and anything below "/api/auth" is
      passed to the sign-in API. Neither depends on the session. */
  lemma PrefixesStayOpen(pathname: string, suffix: string, authenticated: bool)
    requires !NeedsSession(pathname)
    ensures Decide(pathname + suffix, authenticated) == PassThrough
  {
    if StartsWith(pathname, AuthApiPrefix) {
      StartsWithExtends(pathname, AuthApiPrefix, suffix);
    } else if StartsWith(pathname, "/auth/login") {
      StartsWithExtends(pathname, "/auth/login", suffix);
    } else if StartsWith(pathname, "/auth/register") {
      StartsWithExtends(pathname, "/auth/register", suffix);
    } else {
      StartsWithExtends(pathname, "/auth/forgot-password", suffix);
    }
  }

  /** The redirect never loops: the login page it points to is let through
      without a session, and so is every page below it. */
  lemma NoRedirectLoop(pathname: string, suffix: string)
    requires Decide(pathname, false).Redirect?
    ensures Decide(Decide(pathname, false).path + suffix, false) == PassThrough
  {
    assert StartsWith(LoginPath, "/auth/login");
    PrefixesStayOpen(LoginPath, suffix, false);
  }

  /** A session opens every page, and a page that needs one is exactly a
      page whose decision changes with the session. */
  lemma SessionOpensEverything(pathname: string)
    ensures Decide(pathname, true) == PassThrough
    ensures NeedsSession(pathname) <==> Decide(pathname, false) != Decide(pathname, true)
  {
  }

  /** Concrete cases of the prefix rules: a page below the login page is
      open, "/auth" itself is not, and "/api/authx" counts as part of the
      sign-in API because the test is a plain prefix match. */
  lemma PrefixExamples()
    ensures Decide("/auth/login/x", false) == PassThrough
    ensures Decide("/auth", false) == Redirect("/auth/login", "/auth")
    ensures Decide("/api/authx", false) == PassThrough
    ensures Decide("/dashboard", false) == Redirect("/auth/login", "/dashboard")
  {
    assert StartsWith("/auth/login/x", "/auth/login");
    assert StartsWith("/api/authx", "/api/auth");
    assert !StartsWith("/dashboard", "/api/auth") by {
      assert "/dashboard"[1] != "/api/auth"[1];
    }
    assert !StartsWith("/dashboard", "/auth/login") && !StartsWith("/dashboard", "/auth/register")
      && !StartsWith("/dashboard", "/auth/forgot-password") by {
      assert "/dashboard"[1] != "/auth/login"[1];
    }
  }
}
