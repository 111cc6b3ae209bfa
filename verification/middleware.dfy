/**
 * The page middleware: signed-in users are kept away from the login and
 * register pages, and signed-out users are sent from the dashboard to the
 * login page with the address they wanted.
 */
module Middleware {
  /** The parts of the request URL the middleware reads; `search` is "" or starts with "?". */
  datatype Url = Url(pathname: string, search: string)

  /** A redirect, `NextResponse.next()`, or no response at all. */
  datatype Decision = Redirect(to: Url) | Next | PassThrough

  predicate StartsWith(s: string, prefix: string)
  {
    |prefix| <= |s| && s[..|prefix|] == prefix
  }

  /** A plain prefix test, so "/login-help" counts as well. */
  predicate IsAuthPage(path: string)
  {
    StartsWith(path, "/login") || StartsWith(path, "/register")
  }

  /** The address to come back to: the path, and the query string when there is one. */
  function From(url: Url): (from: string)
    ensures url.search == "" ==> from == url.pathname
    ensures url.search != "" ==> from == url.pathname + url.search
  {
    var from := url.pathname;
    if url.search != "" then from + url.search else from
  }

  /** The login page, carrying the encoded return address in `from`. */
  function LoginUrl(url: Url, encode: string -> string): (r: Url)
    ensures r.pathname == "/login" && r.search == "?from=" + encode(From(url))
  {
    Url("/login", "?from=" + encode(From(url)))
  }

  const DashboardUrl := Url("/dashboard", "")

  /** The middleware's decision; `encode` is `encodeURIComponent`. */
  function Decide(isAuth: bool, url: Url, encode: string -> string): (d: Decision)
    ensures IsAuthPage(url.pathname) ==> d == (if isAuth then Redirect(DashboardUrl) else Next)
    ensures !IsAuthPage(url.pathname) && !isAuth && StartsWith(url.pathname, "/dashboard") ==>
      d == Redirect(LoginUrl(url, encode))
    ensures d == PassThrough <==>
      !IsAuthPage(url.pathname) && (isAuth || !StartsWith(url.pathname, "/dashboard"))
  {
    if IsAuthPage(url.pathname) then
      if isAuth then Redirect(DashboardUrl) else Next
    else if !isAuth && StartsWith(url.pathname, "/dashboard") then
      Redirect(LoginUrl(url, encode))
    else
      PassThrough
  }

  /** `config.matcher`: "/dashboard", "/dashboard/:path*", "/login" and "/register". */
  predicate Matched(path: string)
  {
    path == "/dashboard" || StartsWith(path, "/dashboard/") || path == "/login" || path == "/register"
  }

  /** The middleware as deployed: it runs only on matched paths. */
  function Run(isAuth: bool, url: Url, encode: string -> string): (d: Decision)
    ensures !Matched(url.pathname) ==> d == PassThrough
    ensures Matched(url.pathname) ==> d == Decide(isAuth, url, encode)
  {
    if Matched(url.pathname) then Decide(isAuth, url, encode) else PassThrough
  }

  /** On matched paths the two prefix tests split the paths cleanly. */
  lemma {:induction false} MatchedPathsSplit(path: string)
    requires Matched(path)
    ensures IsAuthPage(path) <==> path == "/login" || path == "/register"
    ensures !IsAuthPage(path) <==> StartsWith(path, "/dashboard")
  {
    if path == "/login" {
      assert StartsWith(path, "/login");
    } else if path == "/register" {
      assert StartsWith(path, "/register");
      assert !StartsWith(path, "/dashboard");
    } else {
      assert path[..|"/dashboard"|] == "/dashboard" by {
        if path != "/dashboard" {
          assert path[..|"/dashboard"|] == path[..|"/dashboard/"|][..|"/dashboard"|];
        }
      }
      assert path[1] == 'd';
    }
  }

  /**
   * A signed-out visitor never reaches a dashboard page, and a signed-in one
   * never reaches the login or register page.
   */
  lemma GuardsMatchedPages(isAuth: bool, url: Url, encode: string -> string)
    requires Matched(url.pathname)
    ensures !isAuth && !IsAuthPage(url.pathname) ==> Run(isAuth, url, encode) == Redirect(LoginUrl(url, encode))
    ensures isAuth && IsAuthPage(url.pathname) ==> Run(isAuth, url, encode) == Redirect(DashboardUrl)
    ensures isAuth && !IsAuthPage(url.pathname) ==> Run(isAuth, url, encode) == PassThrough
  {
    MatchedPathsSplit(url.pathname);
  }

  /** Following a redirect never leads to another one: the middleware has no redirect loop. */
  lemma NoRedirectLoop(isAuth: bool, url: Url, encode: string -> string)
    requires Run(isAuth, url, encode).Redirect?
    ensures !Run(isAuth, Run(isAuth, url, encode).to, encode).Redirect?
  {
    var target := Run(isAuth, url, encode).to;
    if isAuth {
      assert target == DashboardUrl;
      assert !IsAuthPage(target.pathname) by {
        assert target.pathname[1] == 'd';
      }
    } else {
      assert target.pathname == "/login";
      assert IsAuthPage(target.pathname) by {
        assert StartsWith("/login", "/login");
      }
    }
  }
}
