/**
 * The request middleware: rate limiting first, then the sign-in redirects, then the pass-through
 * response with the fixed security headers.
 */
module Middleware {
  import opened Common
  import RateLimit

  const AuthCookie := "splitora-auth-token"

  /** The pages reachable without signing in, and the framework and API prefixes. */
  predicate IsPublicPath(path: string): (b: bool)
    ensures b ==> path != [] && path[0] == '/'
  {
    path == "/" || path == "/signin" || path == "/signup" ||
    "/legal/" <= path || "/_next/" <= path || "/api/" <= path
  }

  /** A session token is present only when the auth cookie holds a non-empty value. */
  predicate HasToken(cookies: map<string, string>): (b: bool)
    ensures b ==> AuthCookie in cookies && |cookies[AuthCookie]| >= 1
  {
    AuthCookie in cookies && cookies[AuthCookie] != []
  }

  const ContentSecurityPolicy :=
    "default-src 'self'; " +
    "script-src 'self' 'unsafe-inline' 'unsafe-eval' https://js.stripe.com; " +
    "style-src 'self' 'unsafe-inline' https://fonts.googleapis.com; " +
    "img-src 'self' data: https:; " +
    "font-src 'self' https://fonts.gstatic.com; " +
    "connect-src 'self' https://api.stripe.com https://*.supabase.co; " +
    "frame-src 'self' https://js.stripe.com; " +
    "object-src 'none'; " +
    "base-uri 'self'; " +
    "form-action 'self';"

  /** The headers set on every response that passes through. */
  const SecurityHeaders: map<string, string> := map[
    "X-Frame-Options" := "DENY",
    "X-XSS-Protection" := "1; mode=block",
    "X-Content-Type-Options" := "nosniff",
    "Strict-Transport-Security" := "max-age=31536000; includeSubDomains; preload",
    "Content-Security-Policy" := ContentSecurityPolicy,
    "Referrer-Policy" := "strict-origin-when-cross-origin",
    "Permissions-Policy" := "camera=(), microphone=(), geolocation=(), interest-cohort=()"
  ]

  /** Exactly the seven security headers are set, and the policy header carries the policy text. */
  lemma SevenSecurityHeaders()
    ensures SecurityHeaders.Keys == {"X-Frame-Options", "X-XSS-Protection", "X-Content-Type-Options",
      "Strict-Transport-Security", "Content-Security-Policy", "Referrer-Policy", "Permissions-Policy"}
    ensures SecurityHeaders["X-Frame-Options"] == "DENY"
    ensures SecurityHeaders["Content-Security-Policy"] == ContentSecurityPolicy
    ensures "default-src 'self'; " <= ContentSecurityPolicy
  {
  }

  datatype Request = Request(forwardedFor: Option<string>, path: string, cookies: map<string, string>)

  datatype Response =
    | RateLimited(rejection: RateLimit.Rejection)
    | Redirect(target: string)
    | Next(headers: map<string, string>)

  /** The decision for a request the rate limiter let through. */
  function Route(path: string, cookies: map<string, string>): (r: Response)
    ensures r == Redirect("/signin") <==> !IsPublicPath(path) && !HasToken(cookies)
    ensures r == Redirect("/explore") <==> IsPublicPath(path) && HasToken(cookies)
    ensures r.Next? <==> (IsPublicPath(path) <==> !HasToken(cookies))
    ensures r.Next? ==> r.headers == SecurityHeaders
    ensures !r.RateLimited?
  {
    var isPublic := IsPublicPath(path);
    var token := HasToken(cookies);
    if !isPublic && !token then Redirect("/signin")
    else if isPublic && token then Redirect("/explore")
    else Next(SecurityHeaders)
  }

  /** `middleware`: the rate limiter's rejection, when there is one, is returned before anything else runs. */
  method Handle(limiter: RateLimit.RateLimiter, request: Request, now: int) returns (r: Response)
    modifies limiter
    ensures limiter.store == old(limiter.store)[RateLimit.ClientKey(request.forwardedFor) :=
      RateLimit.Advance(RateLimit.Lookup(old(limiter.store), RateLimit.ClientKey(request.forwardedFor)), now)]
    ensures var verdict := RateLimit.Decide(limiter.store[RateLimit.ClientKey(request.forwardedFor)], now);
      r == if verdict.Some? then RateLimited(verdict.value) else Route(request.path, request.cookies)
  {
    var rejection := limiter.Check(request.forwardedFor, now);
    if rejection.Some? {
      return RateLimited(rejection.value);
    }
    r := Route(request.path, request.cookies);
  }

  /** Following a redirect with the same cookies never redirects again. */
  lemma NoRedirectLoop(path: string, cookies: map<string, string>)
    ensures Route(path, cookies).Redirect? ==> Route(Route(path, cookies).target, cookies) == Next(SecurityHeaders)
  {
    if Route(path, cookies).Redirect? {
      assert IsPublicPath("/signin");
      assert !IsPublicPath("/explore") by {
        assert "/explore"[1] != "/legal/"[1] && "/explore"[1] != "/_next/"[1] && "/explore"[1] != "/api/"[1];
      }
    }
  }

  /** `/legal` without the trailing slash is not public; the pages below it are. */
  lemma LegalNeedsTrailingSlash(page: string)
    ensures !IsPublicPath("/legal")
    ensures IsPublicPath("/legal/" + page)
  {
    assert |"/legal"| < |"/legal/"| && |"/legal"| < |"/_next/"|;
    assert "/legal"[1] != "/api/"[1];
    assert "/legal/" <= "/legal/" + page;
  }
}
