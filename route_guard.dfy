/**
 * The request-time route guard (`middleware` in middleware.ts): a pure
 * decision from the requested pathname and the `token` cookie to one of
 * three outcomes. Paths excluded by the framework's matcher never reach it.
 */
module RouteGuard {
  import opened Wrappers
  import opened Strings

  const Root := "/"
  const LoginPath := "/login"
  const DashboardPath := "/activities"

  /** The screens that need a session, in table order; the root entry is last. */
  const ProtectedPaths: seq<string> := [
    "/activities", "/devoir", "/annual-program", "/time-slots", "/absences",
    "/points", "/report", "/messages", "/profile", "/students", "/invoices",
    "/policy", Root
  ]

  /** The screens only a visitor without a session should see. */
  const AuthPaths: seq<string> := [LoginPath]

  datatype Decision = RedirectLogin | RedirectActivities | Next

  /** One protected entry against a pathname: the root only exactly, every other entry also as a prefix. */
  predicate EntryMatches(pathname: string, entry: string)
  {
    pathname == entry || (entry != Root && StartsWith(pathname, entry))
  }

  /** `entries.some(entry => EntryMatches(pathname, entry))` */
  function AnyEntryMatches(pathname: string, entries: seq<string>): (r: bool)
    ensures r <==> exists i :: 0 <= i < |entries| && EntryMatches(pathname, entries[i])
  {
    if entries == [] then false
    else EntryMatches(pathname, entries[0]) || AnyEntryMatches(pathname, entries[1..])
  }

  /** `entries.some(entry => pathname.startsWith(entry))` */
  function AnyPrefix(pathname: string, entries: seq<string>): (r: bool)
    ensures r <==> exists i :: 0 <= i < |entries| && StartsWith(pathname, entries[i])
  {
    if entries == [] then false
    else StartsWith(pathname, entries[0]) || AnyPrefix(pathname, entries[1..])
  }

  predicate IsProtectedPath(pathname: string)
  {
    AnyEntryMatches(pathname, ProtectedPaths)
  }

  predicate IsAuthPath(pathname: string)
  {
    AnyPrefix(pathname, AuthPaths)
  }

  /** `!token` fails and `token &&` passes exactly for a present, non-empty cookie value. */
  predicate HasToken(token: Option<string>)
  {
    token.Some? && token.value != ""
  }

  /** The guard's three rules, tried in order; anything they do not catch passes through. */
  function Middleware(pathname: string, token: Option<string>): (d: Decision)
    ensures d == RedirectLogin <==> !HasToken(token) && IsProtectedPath(pathname)
    ensures d == RedirectActivities <==> HasToken(token) && (IsAuthPath(pathname) || pathname == Root)
    ensures d == Next <==>
      if HasToken(token) then !IsAuthPath(pathname) && pathname != Root else !IsProtectedPath(pathname)
  {
    if !HasToken(token) && IsProtectedPath(pathname) then RedirectLogin
    else if HasToken(token) && IsAuthPath(pathname) then RedirectActivities
    else if HasToken(token) && pathname == Root then RedirectActivities
    else Next
  }

  /** A path is protected exactly when it is the root or starts with one of the other entries. */
  lemma ProtectedPathCharacterization(pathname: string)
    ensures IsProtectedPath(pathname) <==>
      pathname == Root || exists i :: 0 <= i < |ProtectedPaths| - 1 && StartsWith(pathname, ProtectedPaths[i])
  {
    assert ProtectedPaths[|ProtectedPaths| - 1] == Root;
    if IsProtectedPath(pathname) && pathname != Root {
      var i :| 0 <= i < |ProtectedPaths| && EntryMatches(pathname, ProtectedPaths[i]);
      assert i < |ProtectedPaths| - 1;
      assert StartsWith(pathname, ProtectedPaths[i]);
    }
    if exists i :: 0 <= i < |ProtectedPaths| - 1 && StartsWith(pathname, ProtectedPaths[i]) {
      var i :| 0 <= i < |ProtectedPaths| - 1 && StartsWith(pathname, ProtectedPaths[i]);
      assert EntryMatches(pathname, ProtectedPaths[i]);
    }
  }

  /** Without a session, every pathname that equals or extends a protected entry is sent to the login screen. */
  lemma NoTokenProtectedRedirectsToLogin(pathname: string, token: Option<string>, i: nat)
    requires !HasToken(token)
    requires i < |ProtectedPaths|
    requires pathname == ProtectedPaths[i] || (ProtectedPaths[i] != Root && StartsWith(pathname, ProtectedPaths[i]))
    ensures Middleware(pathname, token) == RedirectLogin
  {
    assert EntryMatches(pathname, ProtectedPaths[i]);
  }

  /** The root entry is matched only exactly: an unlisted path passes through without a session. */
  lemma UnlistedPathPassesWithoutToken()
    ensures !IsProtectedPath("/foo")
    ensures Middleware("/foo", None) == Next
  {
    ProtectedPathCharacterization("/foo");
  }

  /** Prefix matching also catches paths that merely start with an entry's text. */
  lemma PrefixQuirk()
    ensures IsProtectedPath("/pointsX")
    ensures Middleware("/pointsX", None) == RedirectLogin
  {
    assert EntryMatches("/pointsX", ProtectedPaths[5]);
  }

  /** With a session, anything starting with `/login` goes to the dashboard. */
  lemma LoggedInLoginPrefixRedirects(pathname: string, token: Option<string>)
    requires HasToken(token)
    requires StartsWith(pathname, LoginPath)
    ensures Middleware(pathname, token) == RedirectActivities
  {
    assert StartsWith(pathname, AuthPaths[0]);
  }

  lemma LoginPrefixExamples(token: Option<string>)
    requires HasToken(token)
    ensures Middleware("/login/x", token) == RedirectActivities
    ensures Middleware("/loginX", token) == RedirectActivities
  {
    LoggedInLoginPrefixRedirects("/login/x", token);
    LoggedInLoginPrefixRedirects("/loginX", token);
  }

  /** The root goes to the dashboard with a session and to the login screen without one. */
  lemma RootDecision(token: Option<string>)
    ensures Middleware(Root, token) == if HasToken(token) then RedirectActivities else RedirectLogin
  {
    assert EntryMatches(Root, ProtectedPaths[12]);
  }

  /** An empty cookie value counts as no session at all. */
  lemma EmptyTokenIsNoSession(pathname: string)
    ensures Middleware(pathname, Some("")) == Middleware(pathname, None)
  {
  }

  /** Following either redirect leads to a page the guard lets through. */
  lemma NoRedirectLoop(token: Option<string>)
    ensures Middleware(LoginPath, None) == Next
    ensures HasToken(token) ==> Middleware(DashboardPath, token) == Next
  {
    ProtectedPathCharacterization(LoginPath);
    DiffersAt(DashboardPath, LoginPath, 1);
  }

  /** A pathname that differs from a prefix at some position does not start with it. */
  lemma DiffersAt(s: string, p: string, k: nat)
    requires k < |s| && k < |p| && s[k] != p[k]
    ensures !StartsWith(s, p)
  {
  }

  /** The sidebar's menu entries (src/lib/navigation.ts) are all guarded. */
  const MenuHrefs: seq<string> := [
    "/activities", "/devoir", "/annual-program", "/time-slots", "/absences",
    "/points", "/report", "/messages", "/profile", "/students", "/invoices", "/policy"
  ]

  lemma MenuNeedsSession(k: nat, token: Option<string>)
    requires k < |MenuHrefs|
    ensures Middleware(MenuHrefs[k], token) == if HasToken(token) then Next else RedirectLogin
  {
    assert MenuHrefs[k] == ProtectedPaths[k];
    assert EntryMatches(MenuHrefs[k], ProtectedPaths[k]);
    assert MenuHrefs[k][1] != LoginPath[1];
    DiffersAt(MenuHrefs[k], LoginPath, 1);
  }
}
