/** The top-level dispatch of src/App.jsx: a fixed-priority choice on the
    pathname, the auth loading flag and the signed-in user, and the language
    the panel starts with. */
module App {
  import opened Common
  import I18n

  /** What `App` renders (or does) for one state. */
  datatype View =
    | RedirectRoutes                 // only the `/r/:code` route
    | ExternalRedirect(href: string) // `window.location.href` is assigned
    | Spinner
    | Login
    | Panel(language: string)        // the panel, inside the language provider
    | FallbackRoutes                 // `/r/:code` and `*` navigating to "/"

  const ShopHome := "https://mobila-buna.md/"

  /** `localStorage.getItem('language') || 'en'`. */
  function InitialLanguage(stored: Option<string>): (language: string)
    ensures Truthy(stored) ==> language == stored.value
    ensures !Truthy(stored) ==> language == "en"
    ensures language != ""
  {
    if Truthy(stored) then stored.value else "en"
  }

  /** The early returns of `App`, in order. */
  function Dispatch(pathname: string, loading: bool, signedIn: bool, language: string): (v: View)
    // a redirect path always gets the redirect route, whatever the auth state
    ensures StartsWith(pathname, "/r/") <==> v == RedirectRoutes
    // the exact root leaves for the shop
    ensures v.ExternalRedirect? <==> pathname == "/"
    ensures v.ExternalRedirect? ==> v.href == ShopHome
    // otherwise the spinner shows exactly while auth is loading
    ensures !StartsWith(pathname, "/r/") && pathname != "/" ==> (v == Spinner <==> loading)
    // the panel needs a user; without one, a panel path shows the login
    ensures v.Panel? <==> !loading && StartsWith(pathname, "/redoman") && signedIn
    ensures v.Panel? ==> v.language == language
    ensures v == Login <==> !loading && StartsWith(pathname, "/redoman") && !signedIn
    ensures v == FallbackRoutes <==> !StartsWith(pathname, "/r/") && pathname != "/" && !loading && !StartsWith(pathname, "/redoman")
  {
    PrefixesDisjoint(pathname);
    if StartsWith(pathname, "/r/") then RedirectRoutes
    else if pathname == "/" then ExternalRedirect(ShopHome)
    else if loading then Spinner
    else if StartsWith(pathname, "/redoman") then
      if !signedIn then Login else Panel(language)
    else FallbackRoutes
  }

  /** No path starts with both "/r/" and "/redoman", and "/" starts with neither. */
  lemma PrefixesDisjoint(pathname: string)
    ensures !(StartsWith(pathname, "/r/") && StartsWith(pathname, "/redoman"))
    ensures pathname == "/" ==> !StartsWith(pathname, "/r/") && !StartsWith(pathname, "/redoman")
  {
    if StartsWith(pathname, "/r/") {
      assert pathname[2] == '/' != "/redoman"[2];
    }
  }

  /** The panel a signed-in user reaches provides `t(key, language)` for the
      language read from storage: a supported stored language shows its own
      entries, any other stored value shows the English ones, nothing stored
      shows English, and a key no table has is shown as itself. */
  lemma PanelTranslate(pathname: string, stored: Option<string>, key: string)
    requires StartsWith(pathname, "/redoman")
    ensures var v := Dispatch(pathname, false, true, InitialLanguage(stored));
            v.Panel?
            && (I18n.ParseKey(key).None? ==> I18n.Translate(key, v.language) == key)
            && (I18n.ParseKey(key).Some? ==>
                  var k := I18n.ParseKey(key).value;
                  I18n.Translate(key, v.language)
                  == if Truthy(stored) && I18n.LocaleNamed(stored.value).Some?
                     then I18n.Text(I18n.LocaleNamed(stored.value).value, k)
                     else I18n.EnText(k))
  {
    PrefixesDisjoint(pathname);
  }

  /** The redirect page is reached without waiting for auth: the view for a
      `/r/` path does not depend on loading, user or language. */
  lemma RedirectIgnoresAuth(pathname: string, l1: bool, u1: bool, g1: string, l2: bool, u2: bool, g2: string)
    requires StartsWith(pathname, "/r/")
    ensures Dispatch(pathname, l1, u1, g1) == Dispatch(pathname, l2, u2, g2)
  {
  }

  /** The pathname without its trailing slashes. */
  function TrimSlashes(s: string): (r: string)
    ensures r <= s
    ensures r == [] || r[|r| - 1] != '/'
    ensures forall i | |r| <= i < |s| :: s[i] == '/'
  {
    if s != [] && s[|s| - 1] == '/' then TrimSlashes(s[..|s| - 1]) else s
  }

  /** The router's pattern for `/r/:code`, matched as React Router compiles
      it: the literal "/r/" compared ignoring case, then one non-empty
      segment `c` without '/', then any number of slashes. */
  predicate RouteShape(pathname: string, c: string) {
    |pathname| >= 3 + |c| && Lower(pathname[..3]) == "/r/"
    && c != "" && '/' !in c && pathname[3..3 + |c|] == c
    && forall i | 3 + |c| <= i < |pathname| :: pathname[i] == '/'
  }

  /** The `code` parameter of the route `/r/:code`: the segment after a
      case-insensitive "/r/", trailing slashes dropped. */
  function CodeParam(pathname: string): (code: Option<string>)
    ensures code.Some? ==> RouteShape(pathname, code.value)
  {
    if |pathname| < 3 || Lower(pathname[..3]) != "/r/" then None
    else
      var segment := TrimSlashes(pathname[3..]);
      if segment != "" && '/' !in segment then Some(segment) else None
  }

  /** Every path of the pattern's shape matches, with that segment as its
      code: the parameter is exactly what the pattern captures. */
  lemma CodeParamMatches(pathname: string, c: string)
    requires RouteShape(pathname, c)
    ensures CodeParam(pathname) == Some(c)
  {
    var rest := pathname[3..];
    var r := TrimSlashes(rest);
    // the last character of `c` is not a slash, and every character after it is
    assert rest[|c| - 1] == c[|c| - 1] != '/';
    assert forall i | |c| <= i < |rest| :: rest[i] == pathname[3 + i] == '/';
    assert |r| == |c|;
    assert r == rest[..|c|] == c;
  }

  /** What the fallback routes render. */
  datatype Routed = ShowRedirectPage(code: string) | NavigateHome

  /** The fallback `<Routes>`: the redirect page with its code when
      `/r/:code` matches, otherwise `*` navigates to "/". */
  function FallbackOutcome(pathname: string): (r: Routed)
    ensures r.ShowRedirectPage? <==> CodeParam(pathname).Some?
    ensures r.ShowRedirectPage? ==> RouteShape(pathname, r.code)
  {
    match CodeParam(pathname)
    case Some(c) => ShowRedirectPage(c)
    case None => NavigateHome
  }

  /** The fallback routes render the redirect page only for a path whose
      "/r/" is written with a capital R: every path starting with a
      lower-case "/r/" was dispatched before auth. Any other path there
      navigates to "/". */
  lemma FallbackRedirectsOnlyCapitalR(pathname: string, loading: bool, signedIn: bool, language: string)
    requires Dispatch(pathname, loading, signedIn, language) == FallbackRoutes
    ensures FallbackOutcome(pathname).ShowRedirectPage? ==> pathname[..3] == "/R/"
    ensures !(|pathname| >= 3 && pathname[..3] == "/R/") ==> FallbackOutcome(pathname) == NavigateHome
  {
  }

  /** A code link written with a capital R waits for auth: it shows the
      spinner while auth loads and then reaches the redirect page through
      the fallback routes. */
  lemma CapitalRWaitsForAuth(pathname: string, signedIn: bool, language: string)
    requires |pathname| >= 3 && pathname[..3] == "/R/"
    ensures Dispatch(pathname, true, signedIn, language) == Spinner
    ensures Dispatch(pathname, false, signedIn, language) == FallbackRoutes
    ensures CodeParam(pathname) == CodeParam("/r/" + pathname[3..])
  {
    var lower := "/r/" + pathname[3..];
    assert pathname[1] != "/r/"[1] && pathname[1] != "/redoman"[1];
    assert Lower(pathname[..3]) == "/r/";
    assert lower[..3] == "/r/" && lower[3..] == pathname[3..];
  }

  /** A code that reaches the redirect page through the route is truthy, so
      the page's missing-code branch is only reachable from elsewhere; with a
      lower-case "/r/" the route is reached whatever the auth state. */
  lemma RoutedCodeIsTruthy(pathname: string, loading: bool, signedIn: bool, language: string)
    requires CodeParam(pathname).Some?
    ensures Truthy(CodeParam(pathname))
    ensures StartsWith(pathname, "/r/") ==> Dispatch(pathname, loading, signedIn, language) == RedirectRoutes
  {
  }
}
