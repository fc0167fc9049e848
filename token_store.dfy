/** The two-cookie token store: the token record is split into a main cookie
    (id token, access token, expiry) and a separate refresh-token cookie, each
    an encrypted blob. Reading folds every decoding failure into "no tokens". */
module TokenStore {
  import opened JsValues
  import Encryption

  const AuthTokensCookieName: string := "auth-tokens"
  const RefreshTokenCookieName: string := "refresh-token"
  /** Cookie lifetime: 30 days, in seconds. */
  const MaxAgeSeconds: int := 30 * 24 * 60 * 60
  const CookiePath: string := "/"

  /** The persisted token record (`TokenData`). */
  datatype TokenData = TokenData(
    idToken: Option<string>,
    accessToken: Option<string>,
    refreshToken: Option<string>,
    expiresAt: Option<int>)

  datatype SameSite = Lax | Strict | NoRestriction

  /** A cookie as the jar holds it: its value and the attributes it was set with. */
  datatype Cookie = Cookie(
    value: string,
    httpOnly: bool,
    secure: bool,
    maxAge: int,
    path: string,
    sameSite: SameSite)

  /** `JSON.stringify` / `JSON.parse` on token records; None when parsing throws. */
  datatype Json = Json(stringify: TokenData -> string, parse: string -> Option<TokenData>)

  ghost predicate JsonRoundTrips(j: Json) {
    forall d :: j.parse(j.stringify(d)) == Some(d)
  }

  /** What the store reads from its environment: the shared secret, whether
      it runs in production, and the primitives it calls into. */
  datatype Config = Config(
    secret: string,
    production: bool,
    crypto: Encryption.Primitives,
    json: Json)

  ghost predicate SoundConfig(cfg: Config) {
    Encryption.Sound(cfg.crypto) && JsonRoundTrips(cfg.json)
  }

  /** The attributes both cookies are written with. */
  function TokenCookie(value: string, production: bool): (c: Cookie)
    ensures c.value == value
    ensures c.httpOnly && c.path == "/" && c.sameSite == Lax
    ensures c.maxAge == 2592000
    ensures c.secure <==> production
  {
    Cookie(value, true, production, MaxAgeSeconds, CookiePath, Lax)
  }

  /** The record without its refresh token: what goes into the main cookie. */
  function MainPart(data: TokenData): (main: TokenData)
    ensures main.refreshToken == None
    ensures main.idToken == data.idToken && main.accessToken == data.accessToken
    ensures main.expiresAt == data.expiresAt
  {
    data.(refreshToken := None)
  }

  /** The jar after `saveTokens(data)`, with the two encryption IVs as parameters. */
  function Saved(cfg: Config, jar: map<string, Cookie>, data: TokenData,
                 ivMain: Encryption.Bytes, ivRefresh: Encryption.Bytes): (r: map<string, Cookie>)
    requires |ivMain| == Encryption.IvLength && |ivRefresh| == Encryption.IvLength
    ensures AuthTokensCookieName in r
    ensures r[AuthTokensCookieName] ==
              TokenCookie(Encryption.Encrypt(cfg.crypto, cfg.json.stringify(MainPart(data)), cfg.secret, ivMain),
                          cfg.production)
    ensures Truthy(data.refreshToken) && Encryption.Base64KeepsNonEmpty(cfg.crypto) ==>
              RefreshTokenCookieName in r &&
              r[RefreshTokenCookieName] ==
                TokenCookie(Encryption.Encrypt(cfg.crypto, data.refreshToken.value, cfg.secret, ivRefresh),
                            cfg.production)
    ensures !Truthy(data.refreshToken) ==>
              (RefreshTokenCookieName in r <==> RefreshTokenCookieName in jar) &&
              (RefreshTokenCookieName in jar ==> r[RefreshTokenCookieName] == jar[RefreshTokenCookieName])
    ensures RefreshTokenCookieName in r && RefreshTokenCookieName !in jar ==> Truthy(data.refreshToken)
    ensures forall name :: name != AuthTokensCookieName && name != RefreshTokenCookieName ==>
              (name in r <==> name in jar) && (name in jar ==> r[name] == jar[name])
  {
    var mainBlob := Encryption.Encrypt(cfg.crypto, cfg.json.stringify(MainPart(data)), cfg.secret, ivMain);
    var withMain := jar[AuthTokensCookieName := TokenCookie(mainBlob, cfg.production)];
    var refreshBlob: Option<string> :=
      if Truthy(data.refreshToken)
      then Some(Encryption.Encrypt(cfg.crypto, data.refreshToken.value, cfg.secret, ivRefresh))
      else None;
    if Truthy(refreshBlob) then
      withMain[RefreshTokenCookieName := TokenCookie(refreshBlob.value, cfg.production)]
    else
      withMain
  }

  /** What `getTokens()` returns for a jar: None stands for `null`. */
  function Load(cfg: Config, jar: map<string, Cookie>): (r: Option<TokenData>)
    ensures AuthTokensCookieName !in jar ==> r == None
    ensures AuthTokensCookieName in jar ==>
              Encryption.Decrypt(cfg.crypto, jar[AuthTokensCookieName].value, cfg.secret) == None ==> r == None
    ensures RefreshTokenCookieName in jar ==>
              Encryption.Decrypt(cfg.crypto, jar[RefreshTokenCookieName].value, cfg.secret) == None ==> r == None
    ensures r.Some? && RefreshTokenCookieName in jar ==>
              Encryption.Decrypt(cfg.crypto, jar[RefreshTokenCookieName].value, cfg.secret) == r.value.refreshToken
    ensures r.Some? ==>
              var text := Encryption.Decrypt(cfg.crypto, jar[AuthTokensCookieName].value, cfg.secret);
              text.Some? && cfg.json.parse(text.value).Some? &&
              MainPart(r.value) == MainPart(cfg.json.parse(text.value).value)
    ensures AuthTokensCookieName in jar ==>
              var text := Encryption.Decrypt(cfg.crypto, jar[AuthTokensCookieName].value, cfg.secret);
              text.Some? && cfg.json.parse(text.value).Some? &&
              (RefreshTokenCookieName in jar ==>
                 Encryption.Decrypt(cfg.crypto, jar[RefreshTokenCookieName].value, cfg.secret).Some?)
              ==> r.Some?
    ensures r.Some? && RefreshTokenCookieName !in jar ==>
              var text := Encryption.Decrypt(cfg.crypto, jar[AuthTokensCookieName].value, cfg.secret);
              text.Some? && r == cfg.json.parse(text.value)
  {
    if AuthTokensCookieName !in jar then None
    else
      match Encryption.Decrypt(cfg.crypto, jar[AuthTokensCookieName].value, cfg.secret)
      case None => None
      case Some(text) =>
        match cfg.json.parse(text)
        case None => None
        case Some(mainTokens) =>
          if RefreshTokenCookieName in jar then
            match Encryption.Decrypt(cfg.crypto, jar[RefreshTokenCookieName].value, cfg.secret)
            case None => None
            case Some(refreshToken) => Some(mainTokens.(refreshToken := Some(refreshToken)))
          else
            Some(mainTokens)
  }

  /** Reading after saving a record with a refresh token gives the record back. */
  lemma LoadAfterSave(cfg: Config, jar: map<string, Cookie>, data: TokenData,
                      ivMain: Encryption.Bytes, ivRefresh: Encryption.Bytes)
    requires SoundConfig(cfg)
    requires |ivMain| == Encryption.IvLength && |ivRefresh| == Encryption.IvLength
    requires Truthy(data.refreshToken)
    ensures Load(cfg, Saved(cfg, jar, data, ivMain, ivRefresh)) == Some(data)
  {
    Encryption.DecryptEncrypt(cfg.crypto, cfg.json.stringify(MainPart(data)), cfg.secret, ivMain);
    Encryption.DecryptEncrypt(cfg.crypto, data.refreshToken.value, cfg.secret, ivRefresh);
  }

  /** Saving a record without a (non-empty) refresh token leaves the refresh
      cookie alone: reading back yields the new fields with whatever refresh
      token the jar already held, none if it held none, and null if that old
      cookie does not decrypt. */
  lemma LoadAfterSaveWithoutRefresh(cfg: Config, jar: map<string, Cookie>, data: TokenData,
                                    ivMain: Encryption.Bytes, ivRefresh: Encryption.Bytes)
    requires SoundConfig(cfg)
    requires |ivMain| == Encryption.IvLength && |ivRefresh| == Encryption.IvLength
    requires !Truthy(data.refreshToken)
    ensures RefreshTokenCookieName !in jar ==>
              Load(cfg, Saved(cfg, jar, data, ivMain, ivRefresh)) == Some(MainPart(data))
    ensures RefreshTokenCookieName in jar ==>
              var previous := Encryption.Decrypt(cfg.crypto, jar[RefreshTokenCookieName].value, cfg.secret);
              Load(cfg, Saved(cfg, jar, data, ivMain, ivRefresh)) ==
                if previous.Some? then Some(data.(refreshToken := previous)) else None
  {
    Encryption.DecryptEncrypt(cfg.crypto, cfg.json.stringify(MainPart(data)), cfg.secret, ivMain);
  }

  /** The request's cookie jar, which `saveTokens` updates in place. */
  class CookieStore {
    var cookies: map<string, Cookie>

    constructor (initial: map<string, Cookie>)
      ensures cookies == initial
    {
      cookies := initial;
    }

    /** `cookieStore.set`: writes one cookie, replacing any of that name. */
    method Set(name: string, cookie: Cookie)
      modifies this
      ensures cookies == old(cookies)[name := cookie]
    {
      cookies := cookies[name := cookie];
    }

    /** `saveTokens(data)`: the main cookie is always written, the refresh
        cookie only when the record carries a non-empty refresh token. */
    method SaveTokens(cfg: Config, data: TokenData, ivMain: Encryption.Bytes, ivRefresh: Encryption.Bytes)
      requires |ivMain| == Encryption.IvLength && |ivRefresh| == Encryption.IvLength
      modifies this
      ensures cookies == Saved(cfg, old(cookies), data, ivMain, ivRefresh)
    {
      var mainTokenString := cfg.json.stringify(MainPart(data));
      var encryptedMainData := Encryption.Encrypt(cfg.crypto, mainTokenString, cfg.secret, ivMain);
      var encryptedRefreshToken: Option<string> := None;
      if Truthy(data.refreshToken) {
        encryptedRefreshToken := Some(Encryption.Encrypt(cfg.crypto, data.refreshToken.value, cfg.secret, ivRefresh));
      }
      Set(AuthTokensCookieName, TokenCookie(encryptedMainData, cfg.production));
      if Truthy(encryptedRefreshToken) {
        Set(RefreshTokenCookieName, TokenCookie(encryptedRefreshToken.value, cfg.production));
      }
    }

    /** `getTokens()`: reads the jar and never fails; every decoding failure is null. */
    method GetTokens(cfg: Config) returns (r: Option<TokenData>)
      ensures r == Load(cfg, cookies)
    {
      if AuthTokensCookieName !in cookies {
        return None;
      }
      var decryptedMainData := Encryption.Decrypt(cfg.crypto, cookies[AuthTokensCookieName].value, cfg.secret);
      if decryptedMainData.None? {
        return None;
      }
      var mainTokens := cfg.json.parse(decryptedMainData.value);
      if mainTokens.None? {
        return None;
      }
      if RefreshTokenCookieName in cookies {
        var decryptedRefreshToken := Encryption.Decrypt(cfg.crypto, cookies[RefreshTokenCookieName].value, cfg.secret);
        if decryptedRefreshToken.None? {
          return None;
        }
        return Some(mainTokens.value.(refreshToken := decryptedRefreshToken));
      }
      return mainTokens;
    }
  }
}
