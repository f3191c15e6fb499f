/**
 * middleware.ts: the route matcher that chooses which requests reach the
 * auth callback, and the callback's redirect decision, from the path and
 * whether the request carries a session.
 */
module Middleware {
  import opened Wrappers
  import opened Strings

  const LoginPath := "/login"
  const DashboardPath := "/dashboard"

  /**
   * An anonymous request under `/dashboard` goes to `/login`; a logged-in
   * request under `/login` goes to `/dashboard`; anything else passes.
   */
  function Redirect(path: string, loggedIn: bool): (target: Option<string>)
    ensures target.Some? ==> target.value == LoginPath || target.value == DashboardPath
  {
    if StartsWith(path, DashboardPath) && !loggedIn then Some(LoginPath)
    else if StartsWith(path, LoginPath) && loggedIn then Some(DashboardPath)
    else None
  }

  /**
   * The excluded starts of the matcher's negative lookahead, read on the
   * path after its leading `/`: `api`, `_next/static`, `_next/image`,
   * `favicon.ico` (its `.` matches any character), or any text holding a `.`.
   */
  predicate Excluded(rest: string) {
    || StartsWith(rest, "api")
    || StartsWith(rest, "_next/static")
    || StartsWith(rest, "_next/image")
    || (|rest| >= 11 && rest[..7] == "favicon" && rest[8..11] == "ico")
    || '.' in rest
  }

  /** `config.matcher`: a path from the root whose remainder the lookahead does not exclude. */
  predicate Matched(path: string) {
    |path| >= 1 && path[0] == '/' && !Excluded(path[1..])
  }

  /**
   * The middleware as a whole: the callback's answer on the paths the
   * matcher lets through; every other request passes untouched.
   */
  function Middleware(path: string, loggedIn: bool): (target: Option<string>)
    ensures Matched(path) ==> target == Redirect(path, loggedIn)
    ensures !Matched(path) ==> target == None
  {
    if Matched(path) then Redirect(path, loggedIn) else None
  }

  /**
   * The pages the callback guards are matched, unless their path holds a
   * `.`: there the callback's decision is the middleware's.
   */
  lemma GuardedPagesMatched(path: string, loggedIn: bool)
    requires StartsWith(path, DashboardPath) || StartsWith(path, LoginPath)
    requires '.' !in path
    ensures Matched(path)
    ensures Middleware(path, loggedIn) == Redirect(path, loggedIn)
  {
    StartsWithMeans(path, DashboardPath);
    StartsWithMeans(path, LoginPath);
    var rest := path[1..];
    assert rest[0] == 'd' || rest[0] == 'l';
    StartsWithMeans(rest, "api");
    StartsWithMeans(rest, "_next/static");
    StartsWithMeans(rest, "_next/image");
    assert forall c | c in rest :: c in path;
  }

  /**
   * A dashboard file such as `/dashboard/report.pdf` is outside the matcher,
   * so an anonymous request for it is not redirected, although the callback
   * alone would send it to the login page.
   */
  lemma DottedDashboardPathPasses()
    ensures Redirect("/dashboard/report.pdf", false) == Some(LoginPath)
    ensures Middleware("/dashboard/report.pdf", false) == None
  {
    var path := "/dashboard/report.pdf";
    StartsWithMeans(path, DashboardPath);
    assert path[..|DashboardPath|] == DashboardPath;
    assert path[1..][16] == '.';
  }

  /** The two prefixes exclude each other, so at most one rule applies to a path. */
  lemma PrefixesExclusive(path: string)
    ensures !(StartsWith(path, DashboardPath) && StartsWith(path, LoginPath))
  {
    StartsWithMeans(path, DashboardPath);
    StartsWithMeans(path, LoginPath);
  }

  /** The whole decision, rule by rule, in terms of the path's leading characters. */
  lemma RedirectCases(path: string, loggedIn: bool)
    ensures Redirect(path, loggedIn) == Some(LoginPath) <==>
      !loggedIn && |DashboardPath| <= |path| && path[..|DashboardPath|] == DashboardPath
    ensures Redirect(path, loggedIn) == Some(DashboardPath) <==>
      loggedIn && |LoginPath| <= |path| && path[..|LoginPath|] == LoginPath
    ensures Redirect(path, loggedIn) == None <==>
      !(|DashboardPath| <= |path| && path[..|DashboardPath|] == DashboardPath && !loggedIn)
      && !(|LoginPath| <= |path| && path[..|LoginPath|] == LoginPath && loggedIn)
  {
    StartsWithMeans(path, DashboardPath);
    StartsWithMeans(path, LoginPath);
  }

  /** The page each user is sent to is never redirected again: following a redirect ends there. */
  lemma RedirectSettles(path: string, loggedIn: bool)
    requires Redirect(path, loggedIn).Some?
    ensures Redirect(Redirect(path, loggedIn).value, loggedIn) == None
  {
    StartsWithMeans(LoginPath, DashboardPath);
    StartsWithMeans(DashboardPath, LoginPath);
    assert LoginPath[1] != DashboardPath[1];
  }

  /** A logged-in user on the dashboard and an anonymous user on the login page stay where they are. */
  lemma NoRedirectOnOwnPage(path: string)
    ensures StartsWith(path, DashboardPath) ==> Redirect(path, true) == None
    ensures StartsWith(path, LoginPath) ==> Redirect(path, false) == None
  {
    PrefixesExclusive(path);
  }
}
