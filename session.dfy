/**
 * The client-side session (src/lib/auth.tsx): `AuthProvider` restores the
 * session from the `token` and `user` cookies on mount, and `login` and
 * `logout` write or remove both cookies, update the state and navigate.
 */
module Session {
  import opened Wrappers
  import opened Js
  import opened Actions

  /** The lifetime of both session cookies written by the client. */
  const CookieDays: nat := 365

  /** What the mount effect finds in the cookie store. */
  datatype Restore =
    | NoSession                               // a cookie is missing or empty: nothing is restored
    | Restored(token: string, user: Json)     // both present and the user parses
    | Broken(token: string)                   // both present, but parsing the user throws

  function RestoreOf(jar: Jar): (r: Restore)
    ensures r.NoSession? <==>
      !(TokenCookie in jar && jar[TokenCookie].text.s != "" && UserCookie in jar && TextTruthy(jar[UserCookie].text))
    ensures r.Restored? ==> r.token == jar[TokenCookie].text.s && ParseJson(jar[UserCookie].text) == Got(r.user)
    ensures r.Broken? ==> ParseJson(jar[UserCookie].text).Threw?
  {
    if TokenCookie in jar && jar[TokenCookie].text.s != "" && UserCookie in jar && TextTruthy(jar[UserCookie].text) then
      match ParseJson(jar[UserCookie].text)
      case Got(u) => Restored(jar[TokenCookie].text.s, u)
      case Threw => Broken(jar[TokenCookie].text.s)
    else NoSession
  }

  /** The cookies `login` writes: the token as text and the user serialised as JSON, both for 365 days. */
  function WithSession(jar: Jar, token: Json, user: Json): (j: Jar)
    ensures j.Keys == jar.Keys + {TokenCookie, UserCookie}
    ensures j[TokenCookie] == Cookie(Chars(JsString(token)), Some(CookieDays), false)
    ensures j[UserCookie] == Cookie(JsonText(user), Some(CookieDays), false)
    ensures forall k :: k in jar && k != TokenCookie && k != UserCookie ==> j[k] == jar[k]
  {
    jar[TokenCookie := Cookie(Chars(JsString(token)), Some(CookieDays), false)]
       [UserCookie := Cookie(JsonText(user), Some(CookieDays), false)]
  }

  /** The cookies after `logout`: both session cookies gone, every other cookie kept. */
  function WithoutSession(jar: Jar): (j: Jar)
    ensures TokenCookie !in j && UserCookie !in j
    ensures forall k :: k in jar && k != TokenCookie && k != UserCookie ==> k in j && j[k] == jar[k]
    ensures j.Keys <= jar.Keys
  {
    jar - {TokenCookie, UserCookie}
  }

  /** Round trip: what `login` stores is what the next mount restores, when the token is non-empty. */
  lemma RestoreAfterLogin(jar: Jar, token: Json, user: Json)
    ensures RestoreOf(WithSession(jar, token, user)) ==
      if JsString(token) == "" then NoSession else Restored(JsString(token), user)
  {
  }

  /** After `logout` the next mount restores nothing, and a second logout changes nothing. */
  lemma RestoreAfterLogout(jar: Jar)
    ensures RestoreOf(WithoutSession(jar)) == NoSession
    ensures WithoutSession(WithoutSession(jar)) == WithoutSession(jar)
  {
  }

  class AuthProvider {
    var cookies: Jar
    var token: Json
    var user: Json
    var isLoading: bool
    /** The routes pushed so far, oldest first. */
    var navigations: seq<string>

    constructor (stored: Jar)
      ensures cookies == stored && token == Null && user == Null && isLoading && navigations == []
    {
      cookies := stored;
      token := Null;
      user := Null;
      isLoading := true;
      navigations := [];
    }

    /**
     * The mount effect. A session is restored only when both cookies are
     * present; loading then ends. When the stored user does not parse, the
     * effect throws after setting the token, and loading never ends.
     */
    method RestoreSession() returns (completed: bool)
      modifies this
      ensures cookies == old(cookies) && navigations == old(navigations)
      ensures completed <==> !RestoreOf(cookies).Broken?
      ensures completed ==> !isLoading
      ensures RestoreOf(cookies).NoSession? ==> token == old(token) && user == old(user)
      ensures RestoreOf(cookies).Restored? ==> token == Str(RestoreOf(cookies).token) && user == RestoreOf(cookies).user
      ensures RestoreOf(cookies).Broken? ==>
        token == Str(RestoreOf(cookies).token) && user == old(user) && isLoading == old(isLoading)
    {
      var storedToken := if TokenCookie in cookies then Some(cookies[TokenCookie].text.s) else None;
      var storedUser := if UserCookie in cookies then Some(cookies[UserCookie].text) else None;
      if storedToken.Some? && storedToken.value != "" && storedUser.Some? && TextTruthy(storedUser.value) {
        token := Str(storedToken.value);
        var parsed := ParseJson(storedUser.value);
        if parsed.Threw? {
          return false;
        }
        user := parsed.value;
      }
      isLoading := false;
      return true;
    }

    /** `login`: both cookies written for 365 days, the state set, then a navigation to `/`. */
    method Login(newToken: Json, newUser: Json)
      modifies this
      ensures cookies == WithSession(old(cookies), newToken, newUser)
      ensures token == newToken && user == newUser && isLoading == old(isLoading)
      ensures navigations == old(navigations) + ["/"]
    {
      cookies := cookies[TokenCookie := Cookie(Chars(JsString(newToken)), Some(CookieDays), false)];
      cookies := cookies[UserCookie := Cookie(JsonText(newUser), Some(CookieDays), false)];
      token := newToken;
      user := newUser;
      navigations := navigations + ["/"];
    }

    /** `logout`: both cookies removed, the state nulled, then a navigation to `/login`. */
    method Logout()
      modifies this
      ensures cookies == WithoutSession(old(cookies))
      ensures token == Null && user == Null && isLoading == old(isLoading)
      ensures navigations == old(navigations) + ["/login"]
    {
      cookies := cookies - {TokenCookie};
      cookies := cookies - {UserCookie};
      token := Null;
      user := Null;
      navigations := navigations + ["/login"];
    }
  }
}
