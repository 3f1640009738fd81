/** The page middleware: the login page is for visitors without a session, every other page for visitors with one. */
module Middleware {
  import opened Wrappers

  /** Either a redirect to a path, or the request passed on with an `x-pathname` header. */
  datatype Decision = Redirect(location: string) | Next(xPathname: string)

  const LoginPath := "/login"
  const HomePath := "/"

  /** `middleware(req)`; `cookie` is the value of the access-token cookie, `None` when the request has none. */
  function Middleware(pathname: string, cookie: Option<string>): (d: Decision)
    ensures d.Next? <==> (pathname == LoginPath <==> cookie.None?)
    ensures d.Next? ==> d.xPathname == pathname
    ensures d.Redirect? ==> d.location == (if cookie.Some? then HomePath else LoginPath)
  {
    if pathname == LoginPath && cookie.Some? then Redirect(HomePath)
    else if pathname != LoginPath && cookie.None? then Redirect(LoginPath)
    else Next(pathname)
  }

  /** Only the presence of the cookie is consulted, never its value. */
  lemma OnlyPresenceMatters(pathname: string, v1: string, v2: string)
    ensures Middleware(pathname, Some(v1)) == Middleware(pathname, Some(v2))
  {
  }

  /** A redirect never points at the page that was requested. */
  lemma NoSelfRedirect(pathname: string, cookie: Option<string>)
    ensures Middleware(pathname, cookie).Redirect? ==> Middleware(pathname, cookie).location != pathname
  {
  }

  /** Following a redirect with the same cookie is let through: there is never a second redirect. */
  lemma RedirectSettles(pathname: string, cookie: Option<string>)
    requires Middleware(pathname, cookie).Redirect?
    ensures Middleware(Middleware(pathname, cookie).location, cookie).Next?
  {
  }
}
