/**
 * The token provider: mints and parses HS256-signed JWTs (section 3.2 of RFC 7518) whose only
 * claims are `sub` (section 4.1.2 of RFC 7519), `iat` (section 4.1.6) and `exp` (section 4.1.4).
 * A token is modelled as the record of its claims plus the key that signed it; the MAC itself,
 * Base64 and the compact serialisation are not modelled. Clock reads are parameters, in
 * milliseconds since the epoch.
 */
module JwtProvider {
  import opened Wrappers
  import opened JavaText

  /** An HMAC-SHA key, identified by the Base64 secret it was decoded from. */
  datatype Key = HmacKey(secretBase64: string)

  /** `Keys.hmacShaKeyFor(Decoders.BASE64.decode(secret))`. */
  function KeyFor(secretBase64: string): Key {
    HmacKey(secretBase64)
  }

  /** The two final key fields, fixed when the provider is constructed. */
  datatype Provider = Provider(key: Key, refreshKey: Key)

  /** A signed token: its signing key and its three claims. */
  datatype Token = Token(signedWith: Key, sub: string, iat: Int64, exp: Int64)

  /** Why a parse throws: a signature mismatch, an expired token, or a subject that is not a `long`. */
  datatype JwtError = SignatureInvalid | Expired | NumberFormat

  const MillisPerMinute: int := 1000 * 60
  const MillisPerDay: int := 1000 * 60 * 60 * 24

  /**
   * The constructor. Both keys are decoded from `secretBase64`; the refresh secret is read from
   * the configuration but never used.
   */
  function NewProvider(secretBase64: string, refreshSecretBase64: string): (p: Provider)
    ensures p.refreshKey == p.key
    ensures p.key == KeyFor(secretBase64)
  {
    var keyBytes := secretBase64;
    Provider(KeyFor(keyBytes), KeyFor(secretBase64))
  }

  /** `now + 1000L * 60 * minutes`, a `long` sum of a `long` product. */
  function AccessExpiry(now: Int64, minutes: Int32): (r: Int64)
    ensures (now + MillisPerMinute * minutes - r) % TwoTo64 == 0
    ensures AccessExpiryFits(now, minutes) ==> r == now + 60000 * minutes
  {
    Wrap64(now + MillisPerMinute * minutes)
  }

  /** `1000 * 60 * 60 * 24 * i`, evaluated in `int` arithmetic. */
  function RefreshWindow(days: Int32): (r: Int32)
    ensures (86400000 * days - r) % TwoTo32 == 0
    ensures -0x8000_0000 <= 86400000 * days < 0x8000_0000 ==> r == 86400000 * days
  {
    Wrap32(MillisPerDay * days)
  }

  /** `currentTimeMillis + (1000 * 60 * 60 * 24 * i)`, the `int` window widened to `long`. */
  function RefreshExpiry(millis: Int64, days: Int32): (r: Int64)
    ensures (millis + RefreshWindow(days) - r) % TwoTo64 == 0
    ensures -0x8000_0000_0000_0000 <= millis + RefreshWindow(days) < 0x8000_0000_0000_0000 ==>
              r == millis + RefreshWindow(days)
  {
    Wrap64(millis + RefreshWindow(days))
  }

  /** `createAccessToken(id, minutes)` with `new Date()` read as `now`. */
  function CreateAccessToken(p: Provider, id: Option<Int64>, minutes: Int32, now: Int64): (t: Token)
    ensures t.signedWith == p.key
    ensures ParseLong(t.sub) == id
    ensures t.iat == now && t.exp == AccessExpiry(now, minutes)
  {
    Token(p.key, ValueOf(id), now, AccessExpiry(now, minutes))
  }

  /**
   * `createRefreshToken(id, i)`: `iat` is `new Date()` read as `now`, while `exp` is computed from
   * a second clock read, `System.currentTimeMillis()`, passed as `millis`.
   */
  function CreateRefreshToken(p: Provider, id: Option<Int64>, days: Int32, now: Int64, millis: Int64): (t: Token)
    ensures t.signedWith == p.refreshKey
    ensures ParseLong(t.sub) == id
    ensures t.iat == now && t.exp == RefreshExpiry(millis, days)
  {
    Token(p.refreshKey, ValueOf(id), now, RefreshExpiry(millis, days))
  }

  /**
   * `Jwts.parserBuilder().setSigningKey(key).build().parseClaimsJws(t)` followed by
   * `Long.valueOf(getSubject())`, at clock reading `now`: the signature is checked first,
   * then the expiry (a token expires once the clock is past `exp`), then the subject is read.
   */
  function Parse(key: Key, t: Token, now: Int64): (r: Result<Int64, JwtError>)
    ensures r.Ok? <==> t.signedWith == key && now <= t.exp && ParseLong(t.sub).Some?
    ensures r.Ok? ==> r.value == ParseLong(t.sub).value
    ensures r == Err(SignatureInvalid) <==> t.signedWith != key
    ensures r == Err(Expired) <==> t.signedWith == key && now > t.exp
  {
    if t.signedWith != key then Err(SignatureInvalid)
    else if now > t.exp then Err(Expired)
    else match ParseLong(t.sub)
      case None => Err(NumberFormat)
      case Some(v) => Ok(v)
  }

  /** `getUserId(token)`: parse with the access key. */
  function GetUserId(p: Provider, t: Token, now: Int64): (r: Result<Int64, JwtError>)
    ensures r.Ok? <==> t.signedWith == p.key && now <= t.exp && ParseLong(t.sub).Some?
    ensures r.Ok? ==> ParseLong(t.sub) == Some(r.value)
  {
    Parse(p.key, t, now)
  }

  /** `parseRefresh(token)`: parse with the refresh key. */
  function ParseRefresh(p: Provider, t: Token, now: Int64): (r: Result<Int64, JwtError>)
    ensures r.Ok? <==> t.signedWith == p.refreshKey && now <= t.exp && ParseLong(t.sub).Some?
    ensures r.Ok? ==> ParseLong(t.sub) == Some(r.value)
  {
    Parse(p.refreshKey, t, now)
  }

  /** Whether `now + 1000L * 60 * minutes` stays inside the `long` range. */
  predicate AccessExpiryFits(now: Int64, minutes: Int32) {
    -0x8000_0000_0000_0000 <= now + MillisPerMinute * minutes < 0x8000_0000_0000_0000
  }

  /** The access token's lifetime is exactly `minutes` minutes when the sum does not overflow. */
  lemma AccessTokenLifetime(p: Provider, id: Option<Int64>, minutes: Int32, now: Int64)
    requires AccessExpiryFits(now, minutes)
    ensures CreateAccessToken(p, id, minutes, now).exp - CreateAccessToken(p, id, minutes, now).iat
            == minutes * 60000
    ensures CreateAccessToken(p, id, minutes, now).signedWith == p.key
  {
  }

  /** Thirty minutes are 1800000 ms. */
  lemma ThirtyMinuteAccessToken(p: Provider, id: Option<Int64>, now: Int64)
    requires now <= 0x7fff_ffff_ffff_ffff - 1800000
    ensures CreateAccessToken(p, id, 30, now).exp == now + 1800000
  {
  }

  /** The refresh window is exact for up to 24 days: seven days are 604800000 ms. */
  lemma RefreshWindowExact(days: Int32)
    requires 0 <= days <= 24
    ensures RefreshWindow(days) == 86400000 * days
    ensures days == 7 ==> RefreshWindow(days) == 604800000
  {
  }

  /** From 25 days up to 49 days the `int` product wraps to a negative window. */
  lemma RefreshWindowWrapsNegative(days: Int32)
    requires 25 <= days <= 49
    ensures RefreshWindow(days) == 86400000 * days - TwoTo32
    ensures RefreshWindow(days) < 0
  {
    assert 0x8000_0000 <= MillisPerDay * days < TwoTo32;
  }

  /**
   * Consequently a refresh token requested for 25 to 49 days is already expired when it is
   * issued: parsing it at the very clock reading that computed its expiry throws.
   */
  lemma WrappedRefreshTokenBornExpired(p: Provider, id: Option<Int64>, days: Int32, now: Int64, millis: Int64)
    requires 25 <= days <= 49
    requires millis >= -0x8000_0000_0000_0000 + 0x8000_0000
    ensures ParseRefresh(p, CreateRefreshToken(p, id, days, now, millis), millis) == Err(Expired)
  {
    RefreshWindowWrapsNegative(days);
  }

  /** Round trip for access tokens: while unexpired, `getUserId` gives back the id. */
  lemma AccessRoundTrip(p: Provider, id: Int64, minutes: Int32, now: Int64, at: Int64)
    requires at <= AccessExpiry(now, minutes)
    ensures GetUserId(p, CreateAccessToken(p, Some(id), minutes, now), at) == Ok(id)
  {
    ParseLongInverse(id);
  }

  /** Round trip for refresh tokens: while unexpired, `parseRefresh` gives back the id. */
  lemma RefreshRoundTrip(p: Provider, id: Int64, days: Int32, now: Int64, millis: Int64, at: Int64)
    requires at <= RefreshExpiry(millis, days)
    ensures ParseRefresh(p, CreateRefreshToken(p, Some(id), days, now, millis), at) == Ok(id)
  {
    ParseLongInverse(id);
  }

  /** A token minted for a null id carries the subject "null", which `Long.valueOf` rejects. */
  lemma NullIdNotRecoverable(p: Provider, minutes: Int32, now: Int64, at: Int64)
    requires at <= AccessExpiry(now, minutes)
    ensures CreateAccessToken(p, None, minutes, now).sub == "null"
    ensures GetUserId(p, CreateAccessToken(p, None, minutes, now), at) == Err(NumberFormat)
  {
    NullIsNotALong();
  }

  /** Once the clock passes the expiry, both parsers throw `Expired` for their own tokens. */
  lemma ExpiredTokensRejected(p: Provider, id: Option<Int64>, minutes: Int32, days: Int32, now: Int64, millis: Int64, at: Int64)
    ensures at > AccessExpiry(now, minutes) ==>
              GetUserId(p, CreateAccessToken(p, id, minutes, now), at) == Err(Expired)
    ensures at > RefreshExpiry(millis, days) ==>
              ParseRefresh(p, CreateRefreshToken(p, id, days, now, millis), at) == Err(Expired)
  {
  }

  /** The refresh secret has no influence on the provider. */
  lemma RefreshSecretIgnored(secret: string, refreshSecret1: string, refreshSecret2: string)
    ensures NewProvider(secret, refreshSecret1) == NewProvider(secret, refreshSecret2)
  {
  }

  /**
   * Because the two keys coincide, `parseRefresh` accepts an unexpired access token and
   * `getUserId` accepts an unexpired refresh token.
   */
  lemma TokenClassesInterchangeable(secret: string, refreshSecret: string, id: Int64, minutes: Int32, days: Int32,
                                    now: Int64, millis: Int64, at: Int64)
    ensures var p := NewProvider(secret, refreshSecret);
            at <= AccessExpiry(now, minutes) ==>
              ParseRefresh(p, CreateAccessToken(p, Some(id), minutes, now), at) == Ok(id)
    ensures var p := NewProvider(secret, refreshSecret);
            at <= RefreshExpiry(millis, days) ==>
              GetUserId(p, CreateRefreshToken(p, Some(id), days, now, millis), at) == Ok(id)
  {
    ParseLongInverse(id);
  }

  /** A provider whose keys differ (two different secrets) rejects a token of the other class. */
  lemma DistinctKeysSeparateClasses(p: Provider, id: Option<Int64>, minutes: Int32, days: Int32, now: Int64, millis: Int64, at: Int64)
    requires p.key != p.refreshKey
    ensures ParseRefresh(p, CreateAccessToken(p, id, minutes, now), at) == Err(SignatureInvalid)
    ensures GetUserId(p, CreateRefreshToken(p, id, days, now, millis), at) == Err(SignatureInvalid)
  {
  }
}
