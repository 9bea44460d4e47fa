/** components/ConditionalHeader.tsx and
    components/ConditionalMobileSidebar.tsx: both hide their component on
    the editor and on the login page, by a raw prefix test on the current
    pathname (which is null before the router knows it). */
module ConditionalChrome {
  import opened Wrappers
  import opened Text

  const WriteRoute := "/write"
  const LoginRoute := "/login"

  /** `pathname?.startsWith("/write") || pathname?.startsWith("/login")`. */
  function HidesChrome(pathname: Option<string>): (hidden: bool)
    ensures hidden ==> pathname.Some? && |pathname.value| >= 6 && pathname.value[0] == '/'
    ensures pathname == Some(WriteRoute) || pathname == Some(LoginRoute) ==> hidden
  {
    pathname.Some? && (StartsWith(pathname.value, WriteRoute) || StartsWith(pathname.value, LoginRoute))
  }

  /** Whether ConditionalHeader renders the Header. */
  function RendersHeader(pathname: Option<string>): (shown: bool)
    ensures pathname.None? ==> shown
    ensures pathname.Some? ==> (shown <==> !(WriteRoute <= pathname.value) && !(LoginRoute <= pathname.value))
  {
    !HidesChrome(pathname)
  }

  /** Whether ConditionalMobileSidebar renders the MobileSidebar. */
  function RendersMobileSidebar(pathname: Option<string>): (shown: bool)
    ensures pathname.None? ==> shown
    ensures pathname.Some? ==> (shown <==> !(WriteRoute <= pathname.value) && !(LoginRoute <= pathname.value))
  {
    !HidesChrome(pathname)
  }

  /** A segment-wise reading of "is on route r": the path is r itself or
      lies below it. */
  predicate OnRoute(path: string, route: string) {
    path == route || route + "/" <= path
  }

  /** Every path on the editor or the login route (segment-wise) hides both
      components. */
  lemma RouteSegmentsAreHidden(path: string)
    requires OnRoute(path, WriteRoute) || OnRoute(path, LoginRoute)
    ensures !RendersHeader(Some(path)) && !RendersMobileSidebar(Some(path))
  {
    if WriteRoute + "/" <= path {
      assert path[..|WriteRoute|] == (WriteRoute + "/")[..|WriteRoute|];
    } else if LoginRoute + "/" <= path {
      assert path[..|LoginRoute|] == (LoginRoute + "/")[..|LoginRoute|];
    }
  }

  /** The test is a raw prefix, not a segment match: paths that merely
      begin with the same letters are hidden too. */
  lemma RawPrefixHidesMore()
    ensures !OnRoute("/writer", WriteRoute) && !RendersHeader(Some("/writer"))
    ensures !OnRoute("/loginx", LoginRoute) && !RendersMobileSidebar(Some("/loginx"))
    ensures !RendersHeader(Some("/login/x"))
  {
    assert "/writer"[..|WriteRoute|] == WriteRoute;
    assert "/loginx"[..|LoginRoute|] == LoginRoute;
    assert "/login/x"[..|LoginRoute|] == LoginRoute;
    assert ("/write" + "/")[6] != "/writer"[6];
    assert ("/login" + "/")[6] != "/loginx"[6];
  }

  /** The two components agree on every pathname. */
  lemma HeaderAndMobileSidebarAgree(pathname: Option<string>)
    ensures RendersHeader(pathname) == RendersMobileSidebar(pathname)
  {
  }
}
