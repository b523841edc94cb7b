/**
 * The route guard of `middleware.ts`: from whether a session exists and the
 * request path, decide between passing the request through and redirecting
 * it to the login page or to the home page.
 */
module Middleware {

  datatype Decision = PassThrough | Redirect(target: string)

  /** `pathname.startsWith(prefix)`. */
  predicate StartsWith(path: string, prefix: string) {
    |prefix| <= |path| && path[..|prefix|] == prefix
  }

  predicate IsAuthPage(path: string) {
    StartsWith(path, "/login")
  }

  predicate IsPublicPage(path: string) {
    path == "/" || IsAuthPage(path)
  }

  /** `middleware`: the decision taken for one request. */
  function Guard(hasSession: bool, path: string): (d: Decision)
    ensures d.Redirect? ==> d.target == "/login" || d.target == "/"
  {
    if !hasSession && !IsPublicPage(path) then Redirect("/login")
    else if hasSession && IsAuthPage(path) then Redirect("/")
    else PassThrough
  }

  /** Without a session, every path other than "/" and the login pages is sent to "/login", and nothing else is. */
  lemma SignedOutRedirectsToLogin(path: string)
    ensures Guard(false, path) == Redirect("/login") <==> (path != "/" && !StartsWith(path, "/login"))
    ensures Guard(false, path) != Redirect("/")
  {
  }

  /** With a session, exactly the login pages are sent to "/". */
  lemma SignedInLeavesLoginPages(path: string)
    ensures Guard(true, path) == Redirect("/") <==> StartsWith(path, "/login")
    ensures !StartsWith(path, "/login") ==> Guard(true, path) == PassThrough
  {
  }

  /** The home page always passes through, with or without a session. */
  lemma HomeAlwaysPasses(hasSession: bool)
    ensures Guard(hasSession, "/") == PassThrough
  {
  }

  /** No redirect loops: the target of a redirect passes through under the same session state. */
  lemma NoRedirectLoop(hasSession: bool, path: string)
    ensures Guard(hasSession, path).Redirect? ==> Guard(hasSession, Guard(hasSession, path).target) == PassThrough
  {
    assert StartsWith("/login", "/login");
  }

  /** The login test is a prefix test: "/loginx" counts as a login page. */
  lemma LoginPrefixIsAuthPage()
    ensures IsAuthPage("/loginx") && IsAuthPage("/login/reset")
    ensures Guard(true, "/loginx") == Redirect("/") && Guard(false, "/loginx") == PassThrough
  {
    assert "/loginx"[..6] == "/login";
    assert "/login/reset"[..6] == "/login";
  }
}
