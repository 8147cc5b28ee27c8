/** The page guard (src/middleware.ts): for `/admin`, `/earner` and
    `/recruiter` pages, send visitors without a session to the sign-in
    page and signed-in users without the admin flag away from the admin
    pages; let everything else through. */
module Middleware {
  import opened Common

  datatype Decision = Next | Redirect(path: string)

  const SignInPath := "/auth/signin"
  const HomePath := "/earner/listings"

  /** `!!req.auth`: a session object is present, with or without a user. */
  predicate LoggedIn(auth: Option<Session>)
  {
    auth.Some?
  }

  /** `req.auth?.user?.isAdmin || false`. */
  predicate AdminFlag(auth: Option<Session>)
  {
    auth.Some? && auth.value.user.Some? && IsAdmin(auth.value.user.value)
  }

  predicate AdminPath(pathname: string)
  {
    StartsWith(pathname, "/admin")
  }

  predicate MemberPath(pathname: string)
  {
    StartsWith(pathname, "/earner") || StartsWith(pathname, "/recruiter")
  }

  /** The callback's decision from the path, the logged-in flag and the
      admin flag: sign-in for a visitor on a guarded page, home for a
      non-admin on an admin page, and otherwise pass. */
  function Decide(loggedIn: bool, isAdmin: bool, pathname: string): (d: Decision)
    ensures d == Redirect(SignInPath) <==> !loggedIn && (AdminPath(pathname) || MemberPath(pathname))
    ensures d == Redirect(HomePath) <==> loggedIn && !isAdmin && AdminPath(pathname)
    ensures d == Next <==> (AdminPath(pathname) ==> loggedIn && isAdmin) && (MemberPath(pathname) ==> loggedIn)
  {
    if AdminPath(pathname) && !loggedIn then Redirect(SignInPath)
    else if AdminPath(pathname) && !isAdmin then Redirect(HomePath)
    else if MemberPath(pathname) && !loggedIn then Redirect(SignInPath)
    else Next
  }

  /** The callback itself, reading the two flags off the session. */
  function Callback(auth: Option<Session>, pathname: string): Decision
  {
    Decide(LoggedIn(auth), AdminFlag(auth), pathname)
  }

  /** A `:path*` matcher entry: the base path itself or anything below it. */
  predicate UnderPath(pathname: string, base: string)
  {
    pathname == base || StartsWith(pathname, base + "/")
  }

  /** `matcher: ['/earner/:path*', '/recruiter/:path*', '/admin/:path*']`. */
  predicate Matches(pathname: string)
  {
    UnderPath(pathname, "/earner") || UnderPath(pathname, "/recruiter") || UnderPath(pathname, "/admin")
  }

  /** The middleware as deployed: the callback runs only on matched paths. */
  function Guard(auth: Option<Session>, pathname: string): (d: Decision)
    ensures !Matches(pathname) ==> d == Next
    ensures UnderPath(pathname, "/admin") ==>
              (d == Next <==> AdminFlag(auth))
              && (d == Redirect(SignInPath) <==> !LoggedIn(auth))
    ensures UnderPath(pathname, "/admin") && LoggedIn(auth) && !AdminFlag(auth) ==> d == Redirect(HomePath)
    ensures UnderPath(pathname, "/earner") || UnderPath(pathname, "/recruiter") ==>
              (d == Next <==> LoggedIn(auth))
    ensures (UnderPath(pathname, "/earner") || UnderPath(pathname, "/recruiter")) && !LoggedIn(auth) ==>
              d == Redirect(SignInPath)
  {
    if !Matches(pathname) then Next
    else
      UnderPathStartsWith(pathname, "/earner");
      UnderPathStartsWith(pathname, "/recruiter");
      UnderPathStartsWith(pathname, "/admin");
      NotAdminPath(pathname);
      Callback(auth, pathname)
  }

  lemma UnderPathStartsWith(pathname: string, base: string)
    ensures UnderPath(pathname, base) ==> StartsWith(pathname, base)
  {
    if StartsWith(pathname, base + "/") {
      assert pathname[..|base|] == pathname[..|base| + 1][..|base|];
      assert (base + "/")[..|base|] == base;
    }
  }

  /** A member page does not start with `/admin`. */
  lemma NotAdminPath(pathname: string)
    ensures MemberPath(pathname) ==> !AdminPath(pathname)
  {
    if AdminPath(pathname) {
      assert pathname[..6][1] == 'a';
    }
    if StartsWith(pathname, "/earner") {
      assert pathname[..7][1] == 'e';
    }
    if StartsWith(pathname, "/recruiter") {
      assert pathname[..10][1] == 'r';
    }
  }

  /** Whichever session is presented, the decision depends on it only
      through the two flags. */
  lemma DecisionDependsOnFlagsOnly(a: Option<Session>, b: Option<Session>, pathname: string)
    requires LoggedIn(a) == LoggedIn(b) && AdminFlag(a) == AdminFlag(b)
    ensures Guard(a, pathname) == Guard(b, pathname)
  {
  }
}
