/** The request middleware: pages under `/dashboard` need an `authToken`
    cookie; everything else passes through. */
module Middleware {
  import opened Js

  /** `NextResponse.next()` or a redirect to a path of the same origin. */
  datatype Decision = Next | Redirect(location: string)

  const GatedPrefix := "/dashboard"
  const LoginPath := "/login"

  /** `middleware`: `authToken` is the cookie as `cookies.get` finds it; a
      present cookie is an object, and so truthy, whatever its value. */
  function Decide(path: string, authToken: Option<string>): (d: Decision)
    ensures d.Redirect? <==> StartsWith(path, GatedPrefix) && authToken.None?
    ensures d.Redirect? ==> d.location == LoginPath
  {
    if StartsWith(path, GatedPrefix) && authToken.None? then Redirect(LoginPath) else Next
  }

  /** The gate is a plain prefix test: every path that begins with
      `/dashboard`, such as `/dashboardX` or `/dashboard/settings`, is gated. */
  lemma {:induction false} EveryExtensionGated(suffix: string)
    ensures Decide(GatedPrefix + suffix, None) == Redirect(LoginPath)
  {
    assert (GatedPrefix + suffix)[..|GatedPrefix|] == GatedPrefix;
  }

  /** The prefix test is case-sensitive: `/Dashboard` is not gated. */
  lemma CaseSensitive(suffix: string)
    ensures Decide("/Dashboard" + suffix, None) == Next
  {
    assert ("/Dashboard" + suffix)[1] == 'D';
  }

  /** A path that does not start with `/dashboard` always passes. */
  lemma UngatedPathsPass(path: string, authToken: Option<string>)
    requires !StartsWith(path, GatedPrefix)
    ensures Decide(path, authToken) == Next
  {
  }

  /** Only the presence of the cookie matters, never its value. */
  lemma CookieValueIgnored(path: string, v1: string, v2: string)
    ensures Decide(path, Some(v1)) == Decide(path, Some(v2)) == Next
  {
  }
}
