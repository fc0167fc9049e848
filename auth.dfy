/** The session library's callbacks and the session projections: the `jwt`
    callback ingests the provider's tokens at sign-in and refreshes them one
    minute before expiry; the `session` callback and `getSession` / `auth`
    expose them. */
module Auth {
  import opened JsValues

  /** Look-ahead before expiry at which a refresh is attempted (one minute, in ms). */
  const RefreshSkewMs: int := 1 * 60 * 1000

  /** The provider account handed to the callback at sign-in (`id_token`,
      `access_token`, `refresh_token`, and `expires_at` in SECONDS). */
  datatype Account = Account(
    idToken: Option<string>,
    accessToken: Option<string>,
    refreshToken: Option<string>,
    expiresAt: Option<int>)

  /** The session library's token: the credentials this layer adds (expiry in
      milliseconds) and the profile claims the library itself keeps. */
  datatype Jwt = Jwt(
    idToken: Option<string>,
    accessToken: Option<string>,
    refreshToken: Option<string>,
    expiresAt: Option<int>,
    sub: Option<string>,
    name: Option<string>,
    email: Option<string>,
    picture: Option<string>)

  /** The token `{}` returned when a refresh fails. */
  const EmptyJwt: Jwt := Jwt(None, None, None, None, None, None, None, None)

  /** The outcome of the discovery request and the token request together:
      either one of them threw, or the token endpoint answered. */
  datatype RefreshResponse =
    | RefreshThrew
    | RefreshOk(idToken: Option<string>, accessToken: Option<string>,
                refreshToken: Option<string>, expiresIn: int)

  /** The profile claims the callback never edits. */
  predicate SameClaims(a: Jwt, b: Jwt) {
    a.sub == b.sub && a.name == b.name && a.email == b.email && a.picture == b.picture
  }

  /** The refresh guard: access token, refresh token and a non-zero expiry are
      all present, and `now` is past the expiry minus the look-ahead. */
  predicate RefreshDue(t: Jwt, now: int) {
    Truthy(t.accessToken) && Truthy(t.refreshToken) && TruthyNumber(t.expiresAt) &&
    now > t.expiresAt.value - RefreshSkewMs
  }

  /** The token after sign-in: the account's tokens replace the token's, the
      expiry converted from seconds to ms (absent when missing or zero), and
      the profile claims kept. */
  function Ingested(token: Jwt, account: Account): (t: Jwt)
    ensures t.idToken == account.idToken
    ensures t.accessToken == account.accessToken
    ensures t.refreshToken == account.refreshToken
    ensures TruthyNumber(account.expiresAt) ==> t.expiresAt == Some(account.expiresAt.value * 1000)
    ensures !TruthyNumber(account.expiresAt) ==> t.expiresAt == None
    ensures SameClaims(t, token)
  {
    token.(idToken := account.idToken,
           accessToken := account.accessToken,
           refreshToken := account.refreshToken,
           expiresAt := if TruthyNumber(account.expiresAt) then Some(account.expiresAt.value * 1000) else None)
  }

  /** The token the refresh step sees: ingested at sign-in, as given otherwise. */
  function BeforeRefresh(token: Jwt, account: Option<Account>): Jwt {
    if account.Some? then Ingested(token, account.value) else token
  }

  /** First step of the `jwt` callback: at sign-in the account's tokens are
      copied into the token and its expiry converted from seconds to ms. */
  method IngestAccount(token: Jwt, account: Option<Account>) returns (t: Jwt)
    ensures account.None? ==> t == token
    ensures account.Some? ==>
              && t.idToken == account.value.idToken
              && t.accessToken == account.value.accessToken
              && t.refreshToken == account.value.refreshToken
              && (TruthyNumber(account.value.expiresAt) ==> t.expiresAt == Some(account.value.expiresAt.value * 1000))
              && (!TruthyNumber(account.value.expiresAt) ==> t.expiresAt == None)
    ensures SameClaims(t, token)
    ensures t == BeforeRefresh(token, account)
  {
    t := token;
    if account.Some? {
      var a := account.value;
      t := t.(idToken := a.idToken);
      t := t.(accessToken := a.accessToken);
      t := t.(refreshToken := a.refreshToken);
      t := t.(expiresAt := if TruthyNumber(a.expiresAt) then Some(a.expiresAt.value * 1000) else None);
    }
  }

  /** Second step of the `jwt` callback: when a refresh is due, the token's
      credentials are replaced from the response, the refresh token kept
      unless a new one is issued, and the expiry reset to `now + expires_in`;
      a failure clears the whole token. */
  method RefreshIfDue(t: Jwt, now: int, response: RefreshResponse) returns (r: Jwt)
    ensures !RefreshDue(t, now) ==> r == t
    ensures RefreshDue(t, now) && response.RefreshThrew? ==> r == EmptyJwt
    ensures RefreshDue(t, now) && response.RefreshOk? ==>
              && r.idToken == response.idToken
              && r.accessToken == response.accessToken
              && r.refreshToken == (if Truthy(response.refreshToken) then response.refreshToken else t.refreshToken)
              && r.expiresAt == Some(now + response.expiresIn * 1000)
              && SameClaims(r, t)
    ensures response.RefreshOk? ==> SameClaims(r, t)
    ensures response.RefreshOk? && Truthy(t.refreshToken) ==> Truthy(r.refreshToken)
    ensures RefreshDue(t, now) && response.RefreshOk? && response.expiresIn >= 60 ==> !RefreshDue(r, now)
  {
    r := t;
    if RefreshDue(t, now) {
      match response
      case RefreshThrew =>
        return EmptyJwt;
      case RefreshOk(idToken, accessToken, refreshToken, expiresIn) =>
        r := r.(idToken := idToken);
        r := r.(accessToken := accessToken);
        if Truthy(refreshToken) {
          r := r.(refreshToken := refreshToken);
        }
        r := r.(expiresAt := Some(now + expiresIn * 1000));
    }
  }

  /** The `jwt` callback: ingestion at sign-in, then the refresh step. */
  method JwtCallback(token: Jwt, account: Option<Account>, now: int, response: RefreshResponse)
    returns (r: Jwt)
    ensures var t := BeforeRefresh(token, account);
            !RefreshDue(t, now) ==> r == t
    ensures var t := BeforeRefresh(token, account);
            RefreshDue(t, now) && response.RefreshThrew? ==> r == EmptyJwt
    ensures var t := BeforeRefresh(token, account);
            RefreshDue(t, now) && response.RefreshOk? ==>
              && r.idToken == response.idToken
              && r.accessToken == response.accessToken
              && r.refreshToken == (if Truthy(response.refreshToken) then response.refreshToken else t.refreshToken)
              && r.expiresAt == Some(now + response.expiresIn * 1000)
              && SameClaims(r, token)
    ensures r == EmptyJwt || SameClaims(r, token)
    ensures account.None? && !RefreshDue(token, now) ==> r == token
    ensures account.None? && RefreshDue(token, now) && response.RefreshThrew? ==> r == EmptyJwt
    ensures response.RefreshOk? &&
            Truthy(if account.Some? then account.value.refreshToken else token.refreshToken) ==>
              Truthy(r.refreshToken)
  {
    var t := IngestAccount(token, account);
    r := RefreshIfDue(t, now, response);
  }

  /** The profile part of a session (`session.user`). */
  datatype User = User(
    name: Option<string>,
    email: Option<string>,
    image: Option<string>,
    sub: Option<string>)

  /** The session the library builds; `expires` is the library's own field. */
  datatype Session = Session(
    user: User,
    expires: string,
    idToken: Option<string>,
    accessToken: Option<string>,
    expiresAt: Option<int>)

  /** The `session` callback: the token's credentials and subject are added to
      the session; everything else the session had is kept. */
  function SessionCallback(session: Session, token: Jwt): (s: Session)
    ensures s.idToken == token.idToken && s.accessToken == token.accessToken
    ensures s.expiresAt == token.expiresAt
    ensures s.user.sub == token.sub
    ensures s.user.name == session.user.name && s.user.email == session.user.email
    ensures s.user.image == session.user.image
    ensures s.expires == session.expires
  {
    session.(idToken := token.idToken,
             accessToken := token.accessToken,
             expiresAt := token.expiresAt,
             user := session.user.(sub := token.sub))
  }

  /** What `getSession()` returns when there is a session. */
  datatype SessionView = SessionView(
    accessToken: Option<string>,
    idToken: Option<string>,
    profile: User)

  /** `getSession()`: null without a session, otherwise its tokens and profile. */
  function GetSession(session: Option<Session>): (r: Option<SessionView>)
    ensures r.None? <==> session.None?
    ensures r.Some? ==>
              && r.value.accessToken == session.value.accessToken
              && r.value.idToken == session.value.idToken
              && r.value.profile == session.value.user
  {
    match session
    case None => None
    case Some(s) => Some(SessionView(s.accessToken, s.idToken, s.user))
  }

  /** The user record `auth()` returns. */
  datatype AuthUser = AuthUser(
    emailVerifiedCognito: bool,
    displayName: Option<string>,
    email: Option<string>,
    sub: Option<string>,
    name: Option<string>,
    idToken: Option<string>,
    accessToken: Option<string>,
    expiresAt: Option<int>)

  datatype AuthData = AuthData(user: AuthUser)

  /** `auth()` once the library has answered: null without a session,
      otherwise a flat user record (an exception from the library is passed on
      unchanged, and is modelled where `auth()` is called). */
  function Auth(session: Option<Session>): (r: Option<AuthData>)
    ensures r.None? <==> session.None?
    ensures r.Some? ==>
              && r.value.user.emailVerifiedCognito
              && r.value.user.displayName == session.value.user.name
              && r.value.user.name == session.value.user.name
              && r.value.user.email == session.value.user.email
              && r.value.user.sub == session.value.user.sub
              && r.value.user.idToken == session.value.idToken
              && r.value.user.accessToken == session.value.accessToken
              && r.value.user.expiresAt == session.value.expiresAt
  {
    match session
    case None => None
    case Some(s) =>
      Some(AuthData(AuthUser(
        true, s.user.name, s.user.email, s.user.sub, s.user.name,
        s.idToken, s.accessToken, s.expiresAt)))
  }

  /** `getSession()` and `auth()` agree on whether a user is signed in and on
      the credentials they expose. */
  lemma GetSessionAgreesWithAuth(session: Option<Session>)
    ensures GetSession(session).Some? <==> Auth(session).Some?
    ensures GetSession(session).Some? ==>
              GetSession(session).value.accessToken == Auth(session).value.user.accessToken &&
              GetSession(session).value.idToken == Auth(session).value.user.idToken &&
              GetSession(session).value.profile.sub == Auth(session).value.user.sub
  {
  }

  /** Through the `session` callback, `auth()` exposes exactly the token's
      credentials and subject, and the session's own profile. */
  lemma AuthSeesToken(session: Session, token: Jwt)
    ensures Auth(Some(SessionCallback(session, token))) ==
              Some(AuthData(AuthUser(true, session.user.name, session.user.email, token.sub,
                                     session.user.name, token.idToken, token.accessToken,
                                     token.expiresAt)))
  {
  }

  /** The refresh boundary: with the credentials present, a refresh is due
      exactly when `now` is later than one minute before the expiry. */
  lemma RefreshBoundary(t: Jwt, now: int)
    requires Truthy(t.accessToken) && Truthy(t.refreshToken) && TruthyNumber(t.expiresAt)
    ensures RefreshDue(t, now) <==> now > t.expiresAt.value - 60000
    ensures now == t.expiresAt.value - 60000 ==> !RefreshDue(t, now)
    ensures t.expiresAt.value == now + 61000 ==> !RefreshDue(t, now)
    ensures t.expiresAt.value == now + 59000 ==> RefreshDue(t, now)
  {
  }

  /** No refresh is ever due without an access token, a refresh token and a
      non-zero expiry. */
  lemma NoRefreshWithoutCredentials(t: Jwt, now: int)
    requires !Truthy(t.accessToken) || !Truthy(t.refreshToken) || !TruthyNumber(t.expiresAt)
    ensures !RefreshDue(t, now)
  {
  }
}
