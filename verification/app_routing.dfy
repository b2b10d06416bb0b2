/**
 The hash router of the shell (App.tsx): the route a location hash names,
 the page shown for it, and the two redirects that keep a signed-in user
 off the login page and a visitor off the profile pages.
 */
module AppRouting {
  import opened SeqUtil
  import opened JsString

  datatype Page =
    | LoadingPage | HomePage | LoginPage | ProfilePage | AddWalletPage | TopUpPage | LiveOrdersPage | AdminPage

  /** The hash the shell starts from: `window.location.hash || '#/'`. */
  function InitialHash(locationHash: string): (r: string)
    ensures r != ""
    ensures locationHash != "" ==> r == locationHash
  {
    if locationHash == "" then "#/" else locationHash
  }

  /** `hash.replace(/^#/, '') || '/'`. */
  function RoutePath(hash: string): (r: string)
    ensures r != ""
    ensures |hash| > 1 && hash[0] == '#' ==> r == hash[1..]
    ensures hash == "" || hash == "#" ==> r == "/"
    ensures |hash| > 0 && hash[0] != '#' ==> r == hash
  {
    var p := StripLeadingHash(hash);
    if p == "" then "/" else p
  }

  predicate IsProtected(path: string) {
    path == "/profile" || path == "/profile/addwallet"
  }

  /** The paths the router names; everything else falls back to Home. */
  predicate IsKnownRoute(path: string) {
    || path == "/" || path == "/login" || IsProtected(path)
    || StartsWith(path, "/topup/") || path == "/recent-orders" || path == "/admin"
  }

  /** `getPage()`: the first matching rule wins. */
  function GetPage(hash: string, signedIn: bool, isLoading: bool): (r: Page)
    ensures isLoading <==> r == LoadingPage
    ensures r == LoginPage <==>
      !isLoading && (RoutePath(hash) == "/login" || (IsProtected(RoutePath(hash)) && !signedIn))
    ensures r == ProfilePage <==> !isLoading && RoutePath(hash) == "/profile" && signedIn
    ensures r == AddWalletPage <==> !isLoading && RoutePath(hash) == "/profile/addwallet" && signedIn
    ensures r == TopUpPage <==> !isLoading && StartsWith(RoutePath(hash), "/topup/")
    ensures r == LiveOrdersPage <==> !isLoading && RoutePath(hash) == "/recent-orders"
    ensures r == AdminPage <==> !isLoading && RoutePath(hash) == "/admin"
    ensures r == HomePage <==> !isLoading && (RoutePath(hash) == "/" || !IsKnownRoute(RoutePath(hash)))
  {
    var path := RoutePath(hash);
    assert !StartsWith("/profile", "/topup/") by { assert "/profile"[..7][2] != "/topup/"[2]; }
    if isLoading then LoadingPage
    else if path == "/" || path == "" then HomePage
    else if path == "/login" then LoginPage
    else if path == "/profile" then (if signedIn then ProfilePage else LoginPage)
    else if path == "/profile/addwallet" then (if signedIn then AddWalletPage else LoginPage)
    else if StartsWith(path, "/topup/") then TopUpPage
    else if path == "/recent-orders" then LiveOrdersPage
    else if path == "/admin" then AdminPage
    else HomePage
  }

  /** The hash the redirect effect writes, if any. */
  function Redirect(hash: string, signedIn: bool, isLoading: bool): (r: Option<string>)
    ensures r == Some("#/profile") <==> RoutePath(hash) == "/login" && signedIn
    ensures r == Some("#/login") <==> IsProtected(RoutePath(hash)) && !signedIn && !isLoading
    ensures r.Some? ==> r == Some("#/profile") || r == Some("#/login")
  {
    var path := RoutePath(hash);
    if path == "/login" && signedIn then Some("#/profile")
    else if IsProtected(path) && !signedIn && !isLoading then Some("#/login")
    else None
  }

  /** A profile page is never drawn for a visitor; the redirect then sends
      them to the login page, which the router already shows. */
  lemma ProfileNeedsSignIn(hash: string, signedIn: bool, isLoading: bool)
    ensures GetPage(hash, signedIn, isLoading) in {ProfilePage, AddWalletPage} ==> signedIn
    ensures Redirect(hash, signedIn, isLoading) == Some("#/login") ==>
      GetPage(hash, signedIn, isLoading) == LoginPage && GetPage("#/login", signedIn, isLoading) == LoginPage
  {
    assert RoutePath("#/login") == "/login";
  }

  /** Following a redirect lands on a route that redirects no further. */
  lemma RedirectSettles(hash: string, signedIn: bool, isLoading: bool)
    requires Redirect(hash, signedIn, isLoading).Some?
    ensures Redirect(Redirect(hash, signedIn, isLoading).value, signedIn, isLoading).None?
  {
    assert RoutePath("#/login") == "/login";
    assert RoutePath("#/profile") == "/profile";
  }

  /** The category cards link `#/topup/<id>` to the checkout page. */
  lemma CardLinkOpensTopUp(id: string, signedIn: bool)
    ensures GetPage("#/topup/" + id, signedIn, false) == TopUpPage
  {
    var h := "#/topup/" + id;
    assert RoutePath(h) == h[1..];
    assert h[1..][..7] == "/topup/";
  }

  /** The shell's first hash is routed as Home when the browser gave none. */
  lemma EmptyHashIsHome(signedIn: bool)
    ensures GetPage(InitialHash(""), signedIn, false) == HomePage
  {
    assert RoutePath("#/") == "/";
  }
}
