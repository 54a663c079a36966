/**
  The route guard of src/middleware.jsx: a decision made from the session
  cookie and the request path alone. Paths are compared exactly; the login
  page is '/login/' because the site is configured with trailing slashes
  (next.config.js:3), while the redirect targets are written without one.
 */
module Middleware {
  import opened Values

  datatype Decision = Next | Redirect(target: string)

  /**
    `middleware(req)`, branch by branch. `cookie` is the value of the
    `firebaseAuth` cookie, if the request carries one.
   */
  function Guard(cookie: Option<string>, path: string): (d: Decision)
    // a signed-in visitor is sent from the entry pages to the dashboard
    ensures d == Redirect("/dashboard") <==> cookie.Some? && (path == "/" || path == "/login/")
    // a visitor without a session is sent to login from every page but the entry pages
    ensures d == Redirect("/login") <==> cookie.None? && path != "/" && path != "/login/"
    // every other request passes through
    ensures d == Next <==> (cookie.Some? && path != "/" && path != "/login/")
                           || (cookie.None? && (path == "/" || path == "/login/"))
  {
    if cookie.Some? && (path == "/" || path == "/login/") then Redirect("/dashboard")
    else if cookie.Some? && path == "/profile" then Next
    // the second check for '/' with a cookie can no longer fire
    else if cookie.Some? && path == "/" then assert false; Redirect("/dashboard")
    else if cookie.None? && path == "/login/" then Next
    else if cookie.None? && path != "/" then Redirect("/login")
    else Next
  }

  /** Only the cookie's presence is inspected, never its value. */
  lemma OnlyPresenceMatters(c1: Option<string>, c2: Option<string>, path: string)
    requires c1.Some? == c2.Some?
    ensures Guard(c1, path) == Guard(c2, path)
  {
  }
}
