/**
  The identity session adapter of firebase/auth.js (`useFirebaseAuth`): the
  signed-in user view, the loading flag and the `firebaseAuth` cookie that
  the route guard reads. The provider's token arrives after the
  state-change event that asked for it, as an event of its own.
 */
module Session {
  import opened Values
  import Text
  import Middleware

  /** What the identity provider reports about a signed-in account. */
  datatype ProviderUser = ProviderUser(uid: string, email: Value, displayName: Value, photoURL: Value)

  /** The normalized view `{id, email, name}` that the adapter exposes. */
  datatype AuthUser = AuthUser(id: string, email: Value, name: Value)

  const CookiePrefix := "firebaseAuth="

  /** What follows the token: the path, a one-hour lifetime and same-site only. */
  const CookieAttributes := "; path=/; max-age=3600; SameSite=Strict"

  /**
    The cookie string written once a token is known. The browser reads the
    token back from it unchanged (identity tokens hold no ';').
   */
  function SessionCookie(token: string): (w: string)
    ensures Text.IsPrefix(CookiePrefix, w)
    ensures ';' !in token ==> CookieValue(w) == Some(token)
  {
    var tail := CookieAttributes[1..];
    assert CookieAttributes == [';'] + tail;
    assert CookiePrefix + token + CookieAttributes == CookiePrefix + token + [';'] + tail;
    if ';' in token then CookiePrefix + token + CookieAttributes
    else
      ReadAfterPrefix(CookiePrefix, token, tail);
      CookiePrefix + token + CookieAttributes
  }

  /** The cookie string that deletes the session cookie (an expiry in the past). */
  const ExpiredCookie := "firebaseAuth=; path=/; expires=Thu, 01 Jan 1970 00:00:00 GMT"

  /** The part of `s` before the first `c`. */
  function UpTo(s: string, c: char): (r: string)
    ensures |r| <= |s| && r == s[..|r|]
    ensures c !in r
    ensures |r| < |s| ==> s[|r|] == c
  {
    if s == [] || s[0] == c then [] else [s[0]] + UpTo(s[1..], c)
  }

  /** The value a cookie write gives to `firebaseAuth`, as the browser reads it. */
  function CookieValue(write: string): Option<string> {
    if Text.IsPrefix(CookiePrefix, write) then Some(UpTo(write[|CookiePrefix|..], ';')) else None
  }

  lemma {:induction false} UpToStops(t: string, rest: string, c: char)
    requires c !in t
    ensures UpTo(t + [c] + rest, c) == t
  {
    if t != [] {
      assert (t + [c] + rest)[1..] == t[1..] + [c] + rest;
      UpToStops(t[1..], rest, c);
    }
  }

  /** Whatever follows a prefix is read back up to the first ';'. */
  lemma ReadAfterPrefix(p: string, token: string, rest: string)
    requires ';' !in token
    ensures Text.IsPrefix(p, p + token + [';'] + rest)
    ensures UpTo((p + token + [';'] + rest)[|p|..], ';') == token
  {
    var w := p + token + [';'] + rest;
    assert w[..|p|] == p;
    assert w[|p|..] == token + [';'] + rest;
    UpToStops(token, rest, ';');
  }

  class FirebaseAuth {
    var authUser: Option<AuthUser>
    var isLoading: bool
    /** The `firebaseAuth` cookie in the browser, if one is set. */
    var cookie: Option<string>
    /** The last string assigned to `document.cookie` by this adapter. */
    var lastCookieWrite: Option<string>
    /** `getIdToken()` requests whose token has not arrived yet. */
    var pendingTokens: nat

    /** The hook's initial state; `jar` is whatever cookie the browser already holds. */
    constructor (jar: Option<string>)
      ensures authUser == None && !isLoading
      ensures cookie == jar && lastCookieWrite == None && pendingTokens == 0
    {
      authUser, isLoading := None, false;
      cookie, lastCookieWrite, pendingTokens := jar, None, 0;
    }

    /** `clear`: signed out, not loading, cookie overwritten with an expired empty one. */
    method Clear()
      modifies this
      ensures authUser == None && !isLoading
      ensures cookie == None && lastCookieWrite == Some(ExpiredCookie)
      ensures pendingTokens == old(pendingTokens)
    {
      authUser := None;
      lastCookieWrite, cookie := Some(ExpiredCookie), None;
      isLoading := false;
    }

    /**
      `saveTokenToCookie(token)`: the browser keeps what it reads back from
      the string written, which is the whole token when it holds no ';'.
     */
    method SaveTokenToCookie(token: string)
      modifies this
      ensures lastCookieWrite == Some(SessionCookie(token)) && cookie == CookieValue(SessionCookie(token))
      ensures cookie.Some?
      ensures ';' !in token ==> cookie == Some(token)
      ensures authUser == old(authUser) && isLoading == old(isLoading)
      ensures pendingTokens == old(pendingTokens)
    {
      lastCookieWrite, cookie := Some(SessionCookie(token)), CookieValue(SessionCookie(token));
    }

    /**
      `authStateChanged(user)`: no user clears the session; a user is
      normalized and a token is requested, while the cookie stays as it was.
     */
    method AuthStateChanged(user: Option<ProviderUser>)
      modifies this
      ensures !isLoading
      ensures user.None? ==> authUser == None && cookie == None && lastCookieWrite == Some(ExpiredCookie)
                             && pendingTokens == old(pendingTokens)
      ensures user.Some? ==> authUser == Some(AuthUser(user.value.uid, user.value.email, user.value.displayName))
                             && cookie == old(cookie) && lastCookieWrite == old(lastCookieWrite)
                             && pendingTokens == old(pendingTokens) + 1
    {
      isLoading := true;
      if user.None? {
        Clear();
        return;
      }
      var u := user.value;
      authUser := Some(AuthUser(u.uid, u.email, u.displayName));
      pendingTokens := pendingTokens + 1;
      isLoading := false;
    }

    /** A requested token arrives: `getIdToken().then(saveTokenToCookie)`. */
    method TokenResolved(token: string)
      requires pendingTokens > 0
      modifies this
      ensures lastCookieWrite == Some(SessionCookie(token)) && cookie == CookieValue(SessionCookie(token))
      ensures cookie.Some?
      ensures ';' !in token ==> cookie == Some(token)
      ensures authUser == old(authUser) && isLoading == old(isLoading)
      ensures pendingTokens == old(pendingTokens) - 1
    {
      pendingTokens := pendingTokens - 1;
      SaveTokenToCookie(token);
    }

    /**
      `signOut`: the state is cleared once the provider's sign-out resolves;
      when it rejects, nothing changes.
     */
    method SignOut(providerFails: bool)
      modifies this
      ensures providerFails ==> authUser == old(authUser) && isLoading == old(isLoading)
                                && cookie == old(cookie) && lastCookieWrite == old(lastCookieWrite)
      ensures !providerFails ==> authUser == None && !isLoading && cookie == None
                                 && lastCookieWrite == Some(ExpiredCookie)
      ensures pendingTokens == old(pendingTokens)
    {
      if !providerFails {
        Clear();
      }
    }
  }

  /**
    The window between the in-memory session and the cookie: a token asked
    for before sign-out still lands after it, so the route guard sees a
    session cookie while the adapter holds no user.
   */
  method StaleTokenAfterSignOut(u: ProviderUser, token: string)
    returns (signedOut: bool, guardSeesSession: bool)
    ensures signedOut && guardSeesSession
  {
    var s := new FirebaseAuth(None);
    s.AuthStateChanged(Some(u));
    s.SignOut(false);
    s.TokenResolved(token);
    signedOut := s.authUser.None?;
    guardSeesSession := Middleware.Guard(s.cookie, "/") == Middleware.Redirect("/dashboard");
  }

  /** After a completed sign-out every protected page redirects to login. */
  method SignOutLocksProfile(s: FirebaseAuth) returns (d: Middleware.Decision)
    modifies s
    ensures d == Middleware.Redirect("/login")
  {
    s.SignOut(false);
    d := Middleware.Guard(s.cookie, "/profile");
  }
}
