/**
 * The account service: email existence check, password login, signup and the refresh-cookie
 * exchange, over the shared database and the token provider. Each workflow is an outcome
 * function over the table state (the workflow's specification) and a method of `AuthService`
 * that performs it statement by statement against the `Database` object.
 */
module AuthService {
  import opened Wrappers
  import opened JavaText
  import opened JwtProvider
  import opened StoreTables
  import opened CredentialStore
  import opened Kakao

  /**
   * The password encoder: `encode` hashes and `matches(raw, encoded)` verifies. Nothing is
   * assumed of them except, where a lemma needs it, `Sound`.
   */
  datatype PasswordEncoder = PasswordEncoder(encode: string -> string, matches: (string, string) -> bool)

  /** Every raw password matches its own encoding. */
  ghost predicate Sound(enc: PasswordEncoder) {
    forall raw :: enc.matches(raw, enc.encode(raw))
  }

  /** `encoder.matches(raw, stored)`, where a null stored hash never matches. */
  predicate PasswordMatches(enc: PasswordEncoder, raw: string, stored: Option<string>) {
    stored.Some? && enc.matches(raw, stored.value)
  }

  /** The exceptions the workflows throw. */
  datatype AuthError =
    | NullPointer        // a method called on a null reference
    | BadCredentials     // BadCredentialsException
    | IndexOutOfBounds   // ArrayIndexOutOfBoundsException
    | Store(storeError: StoreError)
    | Jwt(jwtError: JwtError)

  /** The response: tokens and the user; the refresh token and the user may be null. */
  datatype AuthResult = AuthResult(accessToken: Token, refreshToken: Option<Token>, user: Option<User>)

  /**
   * The three clock reads behind issuing both tokens: `new Date()` in `createAccessToken`,
   * then `new Date()` and `System.currentTimeMillis()` in `createRefreshToken`.
   */
  datatype Clock = Clock(accessNow: Int64, refreshNow: Int64, refreshMillis: Int64)

  const AccessMinutes: Int32 := 30
  const RefreshDays: Int32 := 7

  // ---------------------------------------------------------------------------------------
  // `email.split("@")[0]`
  // ---------------------------------------------------------------------------------------

  /** The pieces of `s` between occurrences of `sep`, empty pieces included. */
  function Pieces(s: string, sep: char): (r: seq<string>)
    ensures |r| >= 1
  {
    if s == [] then [[]]
    else
      var rest := Pieces(s[1..], sep);
      if s[0] == sep then [[]] + rest else [[s[0]] + rest[0]] + rest[1..]
  }

  predicate AllEmpty(ps: seq<string>) {
    forall i :: 0 <= i < |ps| ==> ps[i] == []
  }

  /** The list without its trailing empty strings. */
  function DropTrailingEmpty(ps: seq<string>): (r: seq<string>)
    ensures r <= ps
    ensures r == [] <==> AllEmpty(ps)
  {
    if ps == [] then []
    else if ps[|ps| - 1] == [] then DropTrailingEmpty(ps[..|ps| - 1])
    else ps
  }

  /**
   * `String.split` with a one-character literal separator and limit 0: without a match the
   * result is the whole string; otherwise the pieces, less the trailing empty ones. The result
   * is empty exactly when `s` is non-empty and made only of separators; otherwise its first
   * element is the text before the first separator.
   */
  function Split(s: string, sep: char): (r: seq<string>)
    ensures sep !in s ==> r == [s]
    ensures r == [] <==> |s| > 0 && forall i :: 0 <= i < |s| ==> s[i] == sep
    ensures r != [] ==> r[0] <= s && sep !in r[0] && (|r[0]| < |s| ==> s[|r[0]|] == sep)
  {
    FirstPiece(s, sep);
    PiecesAllEmpty(s, sep);
    if sep !in s then
      assert |s| > 0 ==> s[0] != sep;
      [s]
    else
      DropTrailingEmpty(Pieces(s, sep))
  }

  /**
   * `email.split("@")[0]`; None is the index-out-of-bounds case. The display name is the text
   * before the first `@`, or the whole email when it has none; it is missing exactly when the
   * email is non-empty and made only of `@` characters, and it is empty when the email starts
   * with `@` followed by something else.
   */
  function DisplayName(email: string): (r: Option<string>)
    ensures r.None? <==> |email| > 0 && forall i :: 0 <= i < |email| ==> email[i] == '@'
    ensures r.Some? ==> r.value <= email && '@' !in r.value && (|r.value| < |email| ==> email[|r.value|] == '@')
    ensures r.Some? && |email| > 0 && email[0] == '@' ==> r.value == ""
  {
    var parts := Split(email, '@');
    if |parts| == 0 then None else Some(parts[0])
  }

  lemma {:induction false} FirstPiece(s: string, sep: char)
    ensures Pieces(s, sep)[0] <= s
    ensures sep !in Pieces(s, sep)[0]
    ensures |Pieces(s, sep)[0]| < |s| ==> s[|Pieces(s, sep)[0]|] == sep
  {
    if s != [] {
      FirstPiece(s[1..], sep);
    }
  }

  lemma {:induction false} PiecesAllEmpty(s: string, sep: char)
    ensures AllEmpty(Pieces(s, sep)) <==> forall i :: 0 <= i < |s| ==> s[i] == sep
  {
    if s != [] {
      PiecesAllEmpty(s[1..], sep);
      var rest := Pieces(s[1..], sep);
      if s[0] == sep {
        assert Pieces(s, sep) == [[]] + rest;
        if forall i :: 0 <= i < |s[1..]| ==> s[1..][i] == sep {
          assert forall i :: 0 <= i < |s| ==> s[i] == sep by {
            forall i | 0 <= i < |s| ensures s[i] == sep {
              if i > 0 { assert s[i] == s[1..][i - 1]; }
            }
          }
        } else {
          var j :| 0 <= j < |s[1..]| && s[1..][j] != sep;
          assert s[j + 1] != sep;
          assert !AllEmpty(rest);
          var k :| 0 <= k < |rest| && rest[k] != [];
          assert Pieces(s, sep)[k + 1] != [];
        }
      } else {
        assert Pieces(s, sep)[0] != [];
      }
    }
  }

  // ---------------------------------------------------------------------------------------
  // Workflows as outcome functions
  // ---------------------------------------------------------------------------------------

  /**
   * `login`: the user is looked up by email and, with no null check, an unknown email ends in a
   * null dereference; a password that does not match is rejected; otherwise a 30-minute access
   * token, a 7-day refresh token and the user without its password.
   */
  function LoginOutcome(t: Tables, enc: PasswordEncoder, jwt: Provider, email: string, password: string, c: Clock)
    : (r: Result<AuthResult, AuthError>)
    ensures r.Ok? ==> FindUserByEmail(t, email).Some?
    ensures r.Ok? ==> r.value.refreshToken.Some? && r.value.user.Some? && r.value.user.value.password.None?
    ensures r.Ok? ==> PasswordMatches(enc, password, FindUserByEmail(t, email).value.password)
  {
    match FindUserByEmail(t, email)
    case None => Err(NullPointer)
    case Some(user) =>
      if !PasswordMatches(enc, password, user.password) then Err(BadCredentials)
      else
        var accessToken := CreateAccessToken(jwt, user.id, AccessMinutes, c.accessNow);
        var refreshToken := CreateRefreshToken(jwt, user.id, RefreshDays, c.refreshNow, c.refreshMillis);
        var userNoPassword := User(user.id, user.email, user.name, user.profile, None, user.roles);
        Ok(AuthResult(accessToken, Some(refreshToken), Some(userNoPassword)))
  }

  /**
   * `signup`, one transaction: derive the display name, insert the user, its encoded
   * credential and the default role, mint both tokens for the new id and re-read the user.
   * Any failure leaves the tables as they were.
   */
  function SignupOutcome(t: Tables, enc: PasswordEncoder, jwt: Provider, email: string, password: string, c: Clock)
    : (r: (Tables, Result<AuthResult, AuthError>))
    ensures r.1.Err? ==> r.0 == t
    ensures r.1.Ok? ==> r.0.nextId == t.nextId + 1 && t.nextId in r.0.users && r.0.users[t.nextId].email == email
    ensures r.1.Ok? ==> r.1.value.refreshToken.Some? && r.1.value.user.Some?
  {
    match DisplayName(email)
    case None => (t, Err(IndexOutOfBounds))
    case Some(name) =>
      var (t1, inserted) := InsertUser(t, UserRow(email, name, None));
      match inserted
      case Err(e) => (t, Err(Store(e)))
      case Ok(id) =>
        var (t2, cred) := InsertCred(t1, id, enc.encode(password));
        match cred
        case Err(e) => (t, Err(Store(e)))
        case Ok(_) =>
          var (t3, role) := InsertUserRole(t2, id, [RoleUser]);
          match role
          case Err(e) => (t, Err(Store(e)))
          case Ok(_) =>
            var accessToken := CreateAccessToken(jwt, Some(id), AccessMinutes, c.accessNow);
            var refreshToken := CreateRefreshToken(jwt, Some(id), RefreshDays, c.refreshNow, c.refreshMillis);
            (t3, Ok(AuthResult(accessToken, Some(refreshToken), FindUserByUserId(t3, id))))
  }

  /**
   * `refreshByCookie`: the user id comes from the refresh token (parsed at clock reading
   * `parsedAt`); a new 30-minute access token (issued at `issuedAt`) and the user as read,
   * possibly null, and no refresh token.
   */
  function RefreshOutcome(t: Tables, jwt: Provider, cookie: Token, parsedAt: Int64, issuedAt: Int64)
    : (r: Result<AuthResult, AuthError>)
    ensures r.Ok? <==> ParseRefresh(jwt, cookie, parsedAt).Ok?
    ensures r.Ok? ==> r.value.refreshToken.None?
  {
    match ParseRefresh(jwt, cookie, parsedAt)
    case Err(e) => Err(Jwt(e))
    case Ok(userId) =>
      var user := FindUserByUserId(t, userId);
      var accessToken := CreateAccessToken(jwt, Some(userId), AccessMinutes, issuedAt);
      Ok(AuthResult(accessToken, None, user))
  }

  /**
   * The mapping at the end of `findUserByUserId`: the Kakao profile as a user with the
   * default role, no id and no password; a missing `profile` map is a null dereference. The
   * token lookup and the profile request before it are not part of this function.
   */
  function ProfileUser(account: KakaoAccount): (r: Result<User, AuthError>)
    ensures r.Err? <==> account.profile.None?
    ensures r.Err? ==> r.error == NullPointer
    ensures r.Ok? ==> && r.value.id.None? && r.value.password.None? && r.value.roles == [RoleUser]
                      && r.value.email == account.email
                      && r.value.name == account.profile.value.nickname
                      && r.value.profile == Some(account.profile.value.profileImageUrl)
  {
    match account.profile
    case None => Err(NullPointer)
    case Some(profile) => Ok(User(None, account.email, profile.nickname, Some(profile.profileImageUrl), None, [RoleUser]))
  }

  // ---------------------------------------------------------------------------------------
  // Properties of the workflows
  // ---------------------------------------------------------------------------------------

  /**
   * Login fails with a null dereference exactly when no user has the email, and with bad
   * credentials exactly when the user exists but the password does not match its stored hash
   * (a user without a credential row never matches); a failed login issues no token.
   */
  lemma LoginFailures(t: Tables, enc: PasswordEncoder, jwt: Provider, email: string, password: string, c: Clock)
    requires Valid(t)
    ensures LoginOutcome(t, enc, jwt, email, password, c) == Err(NullPointer) <==>
              !exists id :: id in t.users && t.users[id].email == email
    ensures LoginOutcome(t, enc, jwt, email, password, c) == Err(BadCredentials) <==>
              exists id :: id in t.users && t.users[id].email == email &&
                           !(id in t.credentials && enc.matches(password, t.credentials[id]))
    ensures LoginOutcome(t, enc, jwt, email, password, c).Err? ==>
              LoginOutcome(t, enc, jwt, email, password, c).error in {NullPointer, BadCredentials}
  {
    if email in t.byEmail {
      var id := t.byEmail[email];
      assert id in t.users && t.users[id].email == email;
      forall id' | id' in t.users && t.users[id'].email == email ensures id' == id { }
    }
  }

  /**
   * A successful login for the user `id`: an access token that `getUserId` resolves to `id`
   * for 30 minutes, a refresh token that `parseRefresh` resolves to `id` for 7 days, and the
   * stored user with its id, email, name, profile and roles but no password.
   */
  lemma LoginSuccess(t: Tables, enc: PasswordEncoder, jwt: Provider, email: string, password: string, c: Clock,
                     id: Int64, at: Int64)
    requires Valid(t) && id in t.users && t.users[id].email == email
    requires id in t.credentials && enc.matches(password, t.credentials[id])
    requires c.accessNow <= 0x7fff_ffff_ffff_ffff - 1800000
    requires c.refreshMillis <= 0x7fff_ffff_ffff_ffff - 604800000
    ensures var r := LoginOutcome(t, enc, jwt, email, password, c);
            && r.Ok?
            && r.value.accessToken.iat == c.accessNow
            && r.value.accessToken.exp == c.accessNow + 30 * 60000
            && (at <= c.accessNow + 30 * 60000 ==> GetUserId(jwt, r.value.accessToken, at) == Ok(id))
            && r.value.refreshToken.Some?
            && r.value.refreshToken.value.exp == c.refreshMillis + 7 * 86400000
            && (at <= c.refreshMillis + 7 * 86400000 ==> ParseRefresh(jwt, r.value.refreshToken.value, at) == Ok(id))
            && r.value.user == Some(User(Some(id), email, t.users[id].name, t.users[id].profile, None,
                                         if id in t.authorities then t.authorities[id] else []))
  {
    assert t.byEmail[email] == id;
    RefreshWindowExact(RefreshDays);
    if at <= c.accessNow + 30 * 60000 {
      AccessRoundTrip(jwt, id, AccessMinutes, c.accessNow, at);
    }
    if at <= c.refreshMillis + 7 * 86400000 {
      RefreshRoundTrip(jwt, id, RefreshDays, c.refreshNow, c.refreshMillis, at);
    }
  }

  /** Signup fails, and then changes nothing, exactly in these cases. */
  lemma SignupFailures(t: Tables, enc: PasswordEncoder, jwt: Provider, email: string, password: string, c: Clock)
    requires Valid(t)
    ensures var (t', r) := SignupOutcome(t, enc, jwt, email, password, c);
            && (r.Err? ==> t' == t)
            && (r == Err(IndexOutOfBounds) <==> |email| > 0 && forall i :: 0 <= i < |email| ==> email[i] == '@')
            && (r.Err? && r != Err(IndexOutOfBounds) <==>
                  DisplayName(email).Some? &&
                  ((exists id :: id in t.users && t.users[id].email == email) || t.nextId == 0x7fff_ffff_ffff_ffff))
            && ((exists id :: id in t.users && t.users[id].email == email) && DisplayName(email).Some? ==>
                  r == Err(Store(DuplicateKey)))
  {
    if DisplayName(email).Some? {
      var name := DisplayName(email).value;
      InsertUserFresh(t, UserRow(email, name, None));
      var (t1, inserted) := InsertUser(t, UserRow(email, name, None));
      if inserted.Ok? {
        assert inserted.value in t1.users && inserted.value !in t.credentials;
      }
      if exists id :: id in t.users && t.users[id].email == email {
        var id :| id in t.users && t.users[id].email == email;
        assert email in t.byEmail;
      }
    }
  }

  /**
   * A signup that succeeds inserts exactly one user (fresh id, the email and its display
   * name, no profile), one credential holding the encoded password and one authority with the
   * default role; nothing else changes and the schema constraints still hold. The user in the
   * response is re-read from the tables, so it still carries the encoded password. Its access
   * token resolves to the new id for 30 minutes and its refresh token for 7 days.
   */
  lemma SignupInsertsAccount(t: Tables, enc: PasswordEncoder, jwt: Provider, email: string, password: string, c: Clock)
    requires Valid(t)
    requires SignupOutcome(t, enc, jwt, email, password, c).1.Ok?
    ensures var (t', r) := SignupOutcome(t, enc, jwt, email, password, c);
            var id := t.nextId;
            var name := DisplayName(email).value;
            && id !in t.users
            && t' == t.(users := t.users[id := UserRow(email, name, None)],
                        byEmail := t.byEmail[email := id],
                        credentials := t.credentials[id := enc.encode(password)],
                        authorities := t.authorities[id := [RoleUser]],
                        nextId := id + 1)
            && Valid(t')
            && r.value.user == Some(User(Some(id), email, name, None, Some(enc.encode(password)), [RoleUser]))
            && (c.accessNow <= 0x7fff_ffff_ffff_ffff - 1800000 ==>
                  r.value.accessToken.exp == c.accessNow + 30 * 60000 &&
                  GetUserId(jwt, r.value.accessToken, c.accessNow) == Ok(id))
            && (c.refreshMillis <= 0x7fff_ffff_ffff_ffff - 604800000 ==>
                  r.value.refreshToken.value.exp == c.refreshMillis + 7 * 86400000 &&
                  ParseRefresh(jwt, r.value.refreshToken.value, c.refreshMillis) == Ok(id))
  {
    var name := DisplayName(email).value;
    var id := t.nextId;
    InsertUserFresh(t, UserRow(email, name, None));
    var (t1, inserted) := InsertUser(t, UserRow(email, name, None));
    assert inserted == Ok(id);
    var (t2, cred) := InsertCred(t1, id, enc.encode(password));
    assert id !in t.authorities;
    var (t3, role) := InsertUserRole(t2, id, [RoleUser]);
    assert [] + [RoleUser] == [RoleUser];
    assert t3.authorities == t.authorities[id := [RoleUser]];
    assert Valid(t3);
    RefreshWindowExact(RefreshDays);
    if c.accessNow <= 0x7fff_ffff_ffff_ffff - 1800000 {
      AccessRoundTrip(jwt, id, AccessMinutes, c.accessNow, c.accessNow);
    }
    if c.refreshMillis <= 0x7fff_ffff_ffff_ffff - 604800000 {
      RefreshRoundTrip(jwt, id, RefreshDays, c.refreshNow, c.refreshMillis, c.refreshMillis);
    }
  }

  /** Signing up twice with one email: the second call fails as a duplicate and leaves one user with that email. */
  lemma SignupTwice(t: Tables, enc: PasswordEncoder, jwt: Provider, email: string, password1: string,
                    password2: string, c1: Clock, c2: Clock)
    requires Valid(t)
    requires SignupOutcome(t, enc, jwt, email, password1, c1).1.Ok?
    ensures var t1 := SignupOutcome(t, enc, jwt, email, password1, c1).0;
            var (t2, r2) := SignupOutcome(t1, enc, jwt, email, password2, c2);
            && r2 == Err(Store(DuplicateKey))
            && t2 == t1
            && (forall id :: id in t2.users && t2.users[id].email == email ==> id == t.nextId)
  {
    SignupInsertsAccount(t, enc, jwt, email, password1, c1);
    var t1 := SignupOutcome(t, enc, jwt, email, password1, c1).0;
    assert t.nextId in t1.users && t1.users[t.nextId].email == email;
    SignupFailures(t1, enc, jwt, email, password2, c2);
  }

  /**
   * With a sound encoder, logging in with the pair just used to sign up succeeds, and its
   * access token resolves to the new user's id.
   */
  lemma SignupThenLogin(t: Tables, enc: PasswordEncoder, jwt: Provider, email: string, password: string,
                        c1: Clock, c2: Clock)
    requires Valid(t) && Sound(enc)
    requires SignupOutcome(t, enc, jwt, email, password, c1).1.Ok?
    requires c2.accessNow <= 0x7fff_ffff_ffff_ffff - 1800000
    requires c2.refreshMillis <= 0x7fff_ffff_ffff_ffff - 604800000
    ensures var t' := SignupOutcome(t, enc, jwt, email, password, c1).0;
            var r := LoginOutcome(t', enc, jwt, email, password, c2);
            r.Ok? && GetUserId(jwt, r.value.accessToken, c2.accessNow) == Ok(t.nextId)
  {
    SignupInsertsAccount(t, enc, jwt, email, password, c1);
    var t' := SignupOutcome(t, enc, jwt, email, password, c1).0;
    assert enc.matches(password, enc.encode(password));
    LoginSuccess(t', enc, jwt, email, password, c2, t.nextId, c2.accessNow);
  }

  /**
   * `refreshByCookie` succeeds exactly when `parseRefresh` does. It then returns an access
   * token that resolves to the parsed id for 30 minutes, no refresh token, and the user exactly
   * as read: null for an unknown id, and with its stored password otherwise.
   */
  lemma RefreshSpec(t: Tables, jwt: Provider, cookie: Token, parsedAt: Int64, issuedAt: Int64, at: Int64)
    requires issuedAt <= 0x7fff_ffff_ffff_ffff - 1800000
    ensures var r := RefreshOutcome(t, jwt, cookie, parsedAt, issuedAt);
            && (r.Ok? <==> ParseRefresh(jwt, cookie, parsedAt).Ok?)
            && (r.Err? ==> r.error == Jwt(ParseRefresh(jwt, cookie, parsedAt).error))
            && (r.Ok? ==>
                  var id := ParseRefresh(jwt, cookie, parsedAt).value;
                  && r.value.refreshToken.None?
                  && r.value.accessToken.signedWith == jwt.key
                  && r.value.accessToken.iat == issuedAt
                  && r.value.accessToken.exp == issuedAt + 30 * 60000
                  && (at <= issuedAt + 30 * 60000 ==> GetUserId(jwt, r.value.accessToken, at) == Ok(id))
                  && r.value.user == FindUserByUserId(t, id)
                  && (r.value.user.None? <==> id !in t.users)
                  && (r.value.user.Some? ==>
                        r.value.user.value.id == Some(id) &&
                        r.value.user.value.password == (if id in t.credentials then Some(t.credentials[id]) else None)))
  {
    if ParseRefresh(jwt, cookie, parsedAt).Ok? && at <= issuedAt + 30 * 60000 {
      AccessRoundTrip(jwt, ParseRefresh(jwt, cookie, parsedAt).value, AccessMinutes, issuedAt, at);
    }
  }

  /**
   * A refresh token issued for a user, presented before it expires, is exchanged for an
   * access token for that same user; because the provider's two keys coincide, an unexpired
   * access token is accepted as the cookie just as well.
   */
  lemma RefreshExchangesForSameUser(t: Tables, secret: string, refreshSecret: string, id: Int64,
                                    c: Clock, parsedAt: Int64, issuedAt: Int64)
    requires parsedAt <= RefreshExpiry(c.refreshMillis, RefreshDays)
    requires issuedAt <= 0x7fff_ffff_ffff_ffff - 1800000
    ensures var jwt := NewProvider(secret, refreshSecret);
            var r := RefreshOutcome(t, jwt, CreateRefreshToken(jwt, Some(id), RefreshDays, c.refreshNow, c.refreshMillis),
                                    parsedAt, issuedAt);
            r.Ok? && r.value.refreshToken.None? && GetUserId(jwt, r.value.accessToken, issuedAt) == Ok(id)
    ensures var jwt := NewProvider(secret, refreshSecret);
            parsedAt <= AccessExpiry(c.accessNow, AccessMinutes) ==>
              RefreshOutcome(t, jwt, CreateAccessToken(jwt, Some(id), AccessMinutes, c.accessNow), parsedAt, issuedAt).Ok?
  {
    var jwt := NewProvider(secret, refreshSecret);
    RefreshRoundTrip(jwt, id, RefreshDays, c.refreshNow, c.refreshMillis, parsedAt);
    AccessRoundTrip(jwt, id, AccessMinutes, issuedAt, issuedAt);
    if parsedAt <= AccessExpiry(c.accessNow, AccessMinutes) {
      TokenClassesInterchangeable(secret, refreshSecret, id, AccessMinutes, RefreshDays, c.accessNow, c.refreshMillis, parsedAt);
    }
  }

  // ---------------------------------------------------------------------------------------
  // The service object
  // ---------------------------------------------------------------------------------------

  class AuthService {
    const db: Database
    const encoder: PasswordEncoder
    const jwt: Provider

    constructor (db: Database, encoder: PasswordEncoder, jwt: Provider)
      ensures this.db == db && this.encoder == encoder && this.jwt == jwt
    {
      this.db := db;
      this.encoder := encoder;
      this.jwt := jwt;
    }

    /** `existsByEmail`: whether the email lookup finds a user; reads the database only. */
    method ExistsByEmail(email: string) returns (b: bool)
      ensures b <==> FindUserByEmail(db.Snapshot(), email).Some?
      ensures Valid(db.Snapshot()) ==> (b <==> exists id :: id in db.users && db.users[id].email == email)
    {
      var user := FindUserByEmail(db.Snapshot(), email);
      b := user.Some?;
    }

    method Login(email: string, password: string, c: Clock) returns (r: Result<AuthResult, AuthError>)
      ensures r == LoginOutcome(db.Snapshot(), encoder, jwt, email, password, c)
    {
      var found := FindUserByEmail(db.Snapshot(), email);
      if found.None? {
        return Err(NullPointer);
      }
      var user := found.value;
      if !PasswordMatches(encoder, password, user.password) {
        return Err(BadCredentials);
      }
      var accessToken := CreateAccessToken(jwt, user.id, AccessMinutes, c.accessNow);
      var refreshToken := CreateRefreshToken(jwt, user.id, RefreshDays, c.refreshNow, c.refreshMillis);
      var userNoPassword := User(user.id, user.email, user.name, user.profile, None, user.roles);
      r := Ok(AuthResult(accessToken, Some(refreshToken), Some(userNoPassword)));
    }

    method Signup(email: string, password: string, c: Clock) returns (r: Result<AuthResult, AuthError>)
      modifies db
      ensures (db.Snapshot(), r) == SignupOutcome(old(db.Snapshot()), encoder, jwt, email, password, c)
    {
      var saved := db.Snapshot();
      var name := DisplayName(email);
      if name.None? {
        return Err(IndexOutOfBounds);
      }
      var inserted := db.InsertUser(UserRow(email, name.value, None));
      if inserted.Err? {
        db.Restore(saved);
        return Err(Store(inserted.error));
      }
      var id := inserted.value;
      var cred := db.InsertCred(id, encoder.encode(password));
      if cred.Err? {
        db.Restore(saved);
        return Err(Store(cred.error));
      }
      // The user row was inserted just above, so its role insert cannot violate the foreign key.
      var _ := db.InsertUserRole(id, [RoleUser]);
      var accessToken := CreateAccessToken(jwt, Some(id), AccessMinutes, c.accessNow);
      var refreshToken := CreateRefreshToken(jwt, Some(id), RefreshDays, c.refreshNow, c.refreshMillis);
      var user := FindUserByUserId(db.Snapshot(), id);
      r := Ok(AuthResult(accessToken, Some(refreshToken), user));
    }

    method RefreshByCookie(cookie: Token, parsedAt: Int64, issuedAt: Int64) returns (r: Result<AuthResult, AuthError>)
      ensures r == RefreshOutcome(db.Snapshot(), jwt, cookie, parsedAt, issuedAt)
    {
      var parsed := ParseRefresh(jwt, cookie, parsedAt);
      if parsed.Err? {
        return Err(Jwt(parsed.error));
      }
      var userId := parsed.value;
      var user := FindUserByUserId(db.Snapshot(), userId);
      var accessToken := CreateAccessToken(jwt, Some(userId), AccessMinutes, issuedAt);
      r := Ok(AuthResult(accessToken, None, user));
    }
  }
}
