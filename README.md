# Authentication core of the menu application, modelled in Dafny

This project models the authentication slice of the menu-ordering service. It covers three parts.

- **Token provider** (`JWTProvider`). It mints HS256 JWTs whose only claims are `sub`, `iat` and `exp`, and parses them back to a user id.
- **Account service** (`AuthService`). It covers the email existence check, password login, signup and the refresh-cookie exchange. It also covers the mapping of a Kakao profile to a `User`.
- **Social identity linker** (`OAuth2Service.loadUser`). For Kakao it finds or creates the local account and then stores the latest provider access token.

The store is the state behind the data-access object.
- Users by id, with a unique email index.
- Credentials by user id.
- Authorities by user id.
- Identities keyed by (provider, providerUserId), each holding an access token and a user id.

`StoreTables` gives each mapper statement as a function on that state. A statement that breaks a constraint throws: the model returns an `Err` and leaves the state unchanged. `CredentialStore.Database` is the shared database object. Its methods update the tables in place, and `Restore` rolls a transaction back. The service classes call these methods one statement at a time. Each workflow method is proved equal to an outcome function over the tables, such as `LoginOutcome`, `SignupOutcome`, `RefreshOutcome` and `LoadUserOutcome`. The properties are lemmas about those functions. The bodies of `Login` and `RefreshByCookie` make the same calls, in the same order, as `LoginOutcome` and `RefreshOutcome`, so their `ensures` only ties each method to its function; what the code promises is proved on the functions.

Modelling choices:
- A token is the record of its signing key and its three claims.
- A key is identified by the Base64 secret it is decoded from.
- Every clock read is a parameter. This includes the separate `System.currentTimeMillis()` read behind a refresh token's `exp`.
- Java `int` and `long` arithmetic is written out with `Wrap32` and `Wrap64`. `String.valueOf(Long)` is `LongToString`, with `"null"` for a null id. `Long.valueOf` is `ParseLong`.
- The password encoder is a pair of functions, `encode` and `matches`. The only assumption about them is `Sound`: a password matches its own encoding. A null stored hash never matches.
- `email.split("@")[0]` is modelled exactly, following Java's `String.split` with limit 0. The pieces are split at each `@`, and trailing empty pieces are dropped. A string with no `@` is returned whole.
- A user read by `findUserByEmail` or `findUserByUserId` is assumed to join the user row, its credential (as `password`) and its authorities (as `roles`).
- `insertUser` is assumed to fill in a generated id that is above every id in use.
- `updateUserIdentities` is assumed to change only the access token of an existing (provider, providerUserId) row. When no such row exists it changes nothing.

Where the documented design and the code disagree, the model follows the code.
- Both signing keys are decoded from the access secret, so the refresh secret is ignored. The two token classes are therefore interchangeable (`TokenClassesInterchangeable`). `DistinctKeysSeparateClasses` shows what separate keys would give.
- `login` has no not-found branch. An unknown email ends in a null dereference (`NullPointer`).
- `refreshByCookie` does not check that the user exists. It returns the user as read, which may be null and is not stripped of the password.
- `signup` returns the re-read user with its encoded password still in it.
- A refresh token for 25 to 49 days gets a negative `int` window. Such a token is already expired when it is issued. The code only ever asks for 7 days.

## Model

| member | source | states |
|---|---|---|
| `JavaText.ParseLongInverse` | menu/src/main/java/com/kh/menu/security/model/provider/JWTProvider.java:85-94 | `Long.valueOf` reads back exactly the `long` that `String.valueOf` wrote as the subject |
| `JavaText.NullIsNotALong` | menu/src/main/java/com/kh/menu/security/model/provider/JWTProvider.java:60 | a null id becomes the subject `"null"`, which `Long.valueOf` rejects |
| `JavaText.ValueOf` | menu/src/main/java/com/kh/menu/security/model/provider/JWTProvider.java:60 | the subject written for an id reads back as that id under `Long.valueOf`, and a null id is written `"null"` |
| `JavaText.ParseLong` | menu/src/main/java/com/kh/menu/security/model/provider/JWTProvider.java:86 | `Long.valueOf` accepts only an optional sign followed by decimal digits, and the sign of the result follows the sign character |
| `JwtProvider.NewProvider` | menu/src/main/java/com/kh/menu/security/model/provider/JWTProvider.java:46-55 | both keys are derived from the access secret, so the access key and the refresh key are equal |
| `JwtProvider.AccessExpiry` | menu/src/main/java/com/kh/menu/security/model/provider/JWTProvider.java:62 | the access expiry is `now + 60000 * minutes` modulo 2^64, and exactly that sum when it fits in a `long` |
| `JwtProvider.RefreshWindow` | menu/src/main/java/com/kh/menu/security/model/provider/JWTProvider.java:78 | the refresh window is `86400000 * days` modulo 2^32, and exactly that product when it fits in an `int` |
| `JwtProvider.RefreshExpiry` | menu/src/main/java/com/kh/menu/security/model/provider/JWTProvider.java:78 | the refresh expiry is the clock reading plus the `int` window modulo 2^64, and exactly that sum when it fits in a `long` |
| `JwtProvider.CreateAccessToken` | menu/src/main/java/com/kh/menu/security/model/provider/JWTProvider.java:57-66 | the access token is signed with the access key, its subject reads back as the id, `iat` is the clock reading and `exp` is the access expiry |
| `JwtProvider.CreateRefreshToken` | menu/src/main/java/com/kh/menu/security/model/provider/JWTProvider.java:73-82 | the refresh token is signed with the refresh key, its subject reads back as the id, `iat` is the first clock reading and `exp` the refresh expiry from the second |
| `JwtProvider.GetUserId` | menu/src/main/java/com/kh/menu/security/model/provider/JWTProvider.java:85-94 | succeeds iff the token was signed with the access key, is unexpired and has a `long` subject, and then returns that subject |
| `JwtProvider.ParseRefresh` | menu/src/main/java/com/kh/menu/security/model/provider/JWTProvider.java:96-105 | succeeds iff the token was signed with the refresh key, is unexpired and has a `long` subject, and then returns that subject |
| `JwtProvider.RefreshSecretIgnored` | menu/src/main/java/com/kh/menu/security/model/provider/JWTProvider.java:52-54 | the refresh secret has no influence on the provider |
| `JwtProvider.Parse` | menu/src/main/java/com/kh/menu/security/model/provider/JWTProvider.java:85-105 | parsing succeeds iff the key is the signing key, the clock is not past `exp` and the subject is a `long`; it then returns only the subject; a signature error iff the keys differ; expiry iff the keys agree and the clock is past `exp` |
| `JwtProvider.AccessTokenLifetime` | menu/src/main/java/com/kh/menu/security/model/provider/JWTProvider.java:57-66 | an access token is signed with the access key and lives exactly `minutes` minutes (`60000 * minutes` ms in `long` arithmetic) |
| `JwtProvider.ThirtyMinuteAccessToken` | menu/src/main/java/com/kh/menu/security/model/service/AuthService.java:38 | the 30-minute access token expires 1800000 ms after it is issued |
| `JwtProvider.RefreshWindowExact` | menu/src/main/java/com/kh/menu/security/model/provider/JWTProvider.java:78 | the `int` window is exact for 0 to 24 days; 7 days is 604800000 ms |
| `JwtProvider.RefreshWindowWrapsNegative` | menu/src/main/java/com/kh/menu/security/model/provider/JWTProvider.java:78 | for 25 to 49 days `86400000 * i` wraps to `86400000 * i - 2^32`, which is negative |
| `JwtProvider.WrappedRefreshTokenBornExpired` | menu/src/main/java/com/kh/menu/security/model/provider/JWTProvider.java:73-82 | a refresh token for 25 to 49 days is already expired at the clock reading that set its expiry |
| `JwtProvider.AccessRoundTrip` | menu/src/main/java/com/kh/menu/security/model/provider/JWTProvider.java:57-94 | `getUserId(createAccessToken(id, m)) == id` while the token is unexpired |
| `JwtProvider.RefreshRoundTrip` | menu/src/main/java/com/kh/menu/security/model/provider/JWTProvider.java:73-105 | `parseRefresh(createRefreshToken(id, d)) == id` while the token is unexpired |
| `JwtProvider.NullIdNotRecoverable` | menu/src/main/java/com/kh/menu/security/model/provider/JWTProvider.java:57-94 | a token minted for a null id has subject `"null"`, and `getUserId` fails with a number-format error |
| `JwtProvider.ExpiredTokensRejected` | menu/src/main/java/com/kh/menu/security/model/provider/JWTProvider.java:85-105 | once the clock is past `exp`, both parsers throw `Expired` for their own tokens |
| `JwtProvider.TokenClassesInterchangeable` | menu/src/main/java/com/kh/menu/security/model/provider/JWTProvider.java:52-105 | with the keys as constructed, `parseRefresh` accepts an unexpired access token and `getUserId` accepts an unexpired refresh token |
| `JwtProvider.DistinctKeysSeparateClasses` | menu/src/main/java/com/kh/menu/security/model/provider/JWTProvider.java:85-105 | with two different keys, each parser rejects the other class's tokens with a signature error |
| `StoreTables.FindUserByEmail` | menu/src/main/java/com/kh/menu/security/model/dao/AuthDao.java:19-21 | in a valid store, a user is found iff some user has that email, and the user found has that email and an id in the table |
| `StoreTables.FindUserByUserId` | menu/src/main/java/com/kh/menu/security/model/dao/AuthDao.java:35-37 | a user is found iff the id is in the users table, and it carries that id and the stored email |
| `StoreTables.InsertUser` | menu/src/main/java/com/kh/menu/security/model/dao/AuthDao.java:23-25 | a duplicate email or an exhausted id sequence fails and changes nothing; otherwise the row is stored under the next id, indexed by its email, the id is returned and advanced, and no other row or table changes |
| `StoreTables.InsertCred` | menu/src/main/java/com/kh/menu/security/model/dao/AuthDao.java:27-29 | fails and changes nothing for an unknown user (foreign key) or one that has a credential; otherwise stores the hash for that user and nothing else |
| `StoreTables.InsertUserRole` | menu/src/main/java/com/kh/menu/security/model/dao/AuthDao.java:31-33 | fails iff the user is unknown, changing nothing; otherwise appends the roles to that user's authorities and changes nothing else |
| `StoreTables.InsertUserIdentities` | menu/src/main/java/com/kh/menu/security/model/dao/AuthDao.java:39-41 | a taken (provider, providerUserId) key or an unknown user fails and changes nothing; otherwise stores the identity row under the key and nothing else |
| `StoreTables.UpdateUserIdentities` | menu/src/main/java/com/kh/menu/security/model/dao/AuthDao.java:43-45 | only the access token of the row with that key changes; the keys, the other rows and the other tables stay as they were |
| `StoreTables.InsertUserFresh` | menu/src/main/java/com/kh/menu/security/model/dao/AuthDao.java:23-25 | inserting a user succeeds iff no user has the email and an id is left; the generated id was not in use; the constraints still hold |
| `StoreTables.UpdateUserIdentitiesOnlyToken` | menu/src/main/java/com/kh/menu/security/model/dao/AuthDao.java:43-45 | the identity update changes only the access token of an existing key and keeps the constraints |
| `CredentialStore.Database.InsertUser` | menu/src/main/java/com/kh/menu/security/model/dao/AuthDao.java:23-25 | the in-place insert has the effect and result of `StoreTables.InsertUser` |
| `CredentialStore.Database.InsertCred` | menu/src/main/java/com/kh/menu/security/model/dao/AuthDao.java:27-29 | the in-place insert has the effect and result of `StoreTables.InsertCred` |
| `CredentialStore.Database.InsertUserRole` | menu/src/main/java/com/kh/menu/security/model/dao/AuthDao.java:31-33 | the in-place insert has the effect and result of `StoreTables.InsertUserRole` |
| `CredentialStore.Database.InsertUserIdentities` | menu/src/main/java/com/kh/menu/security/model/dao/AuthDao.java:39-41 | the in-place insert has the effect and result of `StoreTables.InsertUserIdentities` |
| `CredentialStore.Database.UpdateUserIdentities` | menu/src/main/java/com/kh/menu/security/model/dao/AuthDao.java:43-45 | the in-place update has the effect of `StoreTables.UpdateUserIdentities` |
| `CredentialStore.Database.Restore` | menu/src/main/java/com/kh/menu/security/model/service/AuthService.java:55 | a rollback puts back exactly the saved tables |
| `AuthService.DropTrailingEmpty` | menu/src/main/java/com/kh/menu/security/model/service/AuthService.java:60 | dropping trailing empty strings leaves a prefix of the list, and leaves nothing iff every piece was empty |
| `AuthService.Split` | menu/src/main/java/com/kh/menu/security/model/service/AuthService.java:60 | `String.split` with limit 0: a string without the separator comes back whole; the result is empty iff the string is non-empty and all separators; otherwise its first element is the text before the first separator |
| `AuthService.DisplayName` | menu/src/main/java/com/kh/menu/security/model/service/AuthService.java:60 | the display name is the text before the first `@`, or the whole email when it has none; it is empty for a leading `@`; it is missing (array index out of bounds) iff the email is non-empty and made only of `@` |
| `AuthService.LoginOutcome` | menu/src/main/java/com/kh/menu/security/model/service/AuthService.java:29-54 | a successful login found a user by the email whose stored hash matches the password, and returns both tokens and the user without its password |
| `AuthService.SignupOutcome` | menu/src/main/java/com/kh/menu/security/model/service/AuthService.java:55-89 | a failed signup leaves the tables unchanged; a successful one consumes one id, stores a user with the email under it, and returns both tokens and the user |
| `AuthService.RefreshOutcome` | menu/src/main/java/com/kh/menu/security/model/service/AuthService.java:90-101 | the exchange succeeds iff `parseRefresh` accepts the cookie, and a success carries no refresh token |
| `AuthService.ProfileUser` | menu/src/main/java/com/kh/menu/security/model/service/AuthService.java:102-121 | a profile-less account is a null dereference; otherwise the user has no id and no password, roles `["ROLE_USER"]`, the account email, the nickname as name and the image URL as profile |
| `AuthService.AuthService.ExistsByEmail` | menu/src/main/java/com/kh/menu/security/model/service/AuthService.java:25-28 | true iff the email lookup finds a user; in a valid store, iff some user has that email; the database is only read |
| `AuthService.AuthService.Login` | menu/src/main/java/com/kh/menu/security/model/service/AuthService.java:29-54 | reads the database only and returns `LoginOutcome` of its tables |
| `AuthService.LoginFailures` | menu/src/main/java/com/kh/menu/security/model/service/AuthService.java:29-35 | login fails with a null dereference iff no user has the email, and with bad credentials iff the user exists but the password does not match its stored hash; there are no other failures |
| `AuthService.LoginSuccess` | menu/src/main/java/com/kh/menu/security/model/service/AuthService.java:38-53 | a successful login returns an access token that resolves to the user's id for 30 minutes, a refresh token that resolves to it for 7 days, and the user with the same id, email, name, profile and roles but no password |
| `AuthService.AuthService.Signup` | menu/src/main/java/com/kh/menu/security/model/service/AuthService.java:55-89 | the in-place insert sequence, with rollback on failure, has the effect and result of `SignupOutcome` |
| `AuthService.SignupFailures` | menu/src/main/java/com/kh/menu/security/model/service/AuthService.java:55-62 | a failed signup changes nothing; it fails on an all-`@` email, and otherwise iff the email is taken (a duplicate-key error) or no id is left |
| `AuthService.SignupInsertsAccount` | menu/src/main/java/com/kh/menu/security/model/service/AuthService.java:55-89 | a successful signup adds exactly one user (fresh id, the email and its display name), one credential `encode(password)` and one authority `["ROLE_USER"]`, keeps the constraints, and returns the re-read user with its encoded password |
| `AuthService.SignupTwice` | menu/src/main/java/com/kh/menu/security/model/service/AuthService.java:55-62 | a second signup with the same email fails as a duplicate, changes nothing, and leaves exactly one user with that email |
| `AuthService.SignupThenLogin` | menu/src/main/java/com/kh/menu/security/model/service/AuthService.java:29-89 | with a sound encoder, logging in with the pair used at signup succeeds, and its access token resolves to the new id |
| `AuthService.AuthService.RefreshByCookie` | menu/src/main/java/com/kh/menu/security/model/service/AuthService.java:90-101 | reads the database only and returns `RefreshOutcome` of its tables |
| `AuthService.RefreshSpec` | menu/src/main/java/com/kh/menu/security/model/service/AuthService.java:90-101 | the exchange succeeds iff `parseRefresh` does and otherwise passes its error on; on success: a 30-minute access token for the parsed id, no refresh token, and the user as read (null iff the id is unknown, and carrying the stored password) |
| `AuthService.RefreshExchangesForSameUser` | menu/src/main/java/com/kh/menu/security/model/service/AuthService.java:90-101 | an unexpired 7-day refresh token for a user is exchanged for an access token for that user; an unexpired access token is accepted as the cookie too |
| `OAuth2Service.OAuth2Service.LoadUser` | menu/src/main/java/com/kh/menu/security/model/service/OAuth2Service.java:39-95 | the in-place sequence of lookups, inserts and the update, with rollback on failure, has the effect and result of `LoadUserOutcome` |
| `OAuth2Service.LoadUserOutcome` | menu/src/main/java/com/kh/menu/security/model/service/OAuth2Service.java:39-95 | a failure leaves the tables unchanged; another provider touches nothing and succeeds iff the attributes carry an `id`; a success keeps the raw attributes and name key `"id"`, is a linked principal iff the provider is Kakao, and links to a user present in the resulting tables |
| `OAuth2Service.OtherProviderUntouched` | menu/src/main/java/com/kh/menu/security/model/service/OAuth2Service.java:47-93 | for a provider other than `"kakao"` the tables are unchanged; the result is a default principal with the raw attributes and name key `"id"`, or an illegal-argument failure when the attributes have no `id` |
| `OAuth2Service.KakaoWithoutAccount` | menu/src/main/java/com/kh/menu/security/model/service/OAuth2Service.java:48-49 | a Kakao sign-in without `kakao_account` fails with a null dereference and changes nothing |
| `OAuth2Service.NewAccountCreated` | menu/src/main/java/com/kh/menu/security/model/service/OAuth2Service.java:52-90 | for an unknown email, a profile map and an unused identity key: exactly one user (email, nickname, image URL, fresh id), one identity `(provider, String.valueOf(id))` with the access token and the new id, and one authority `["ROLE_USER"]`; the constraints still hold, and the principal carries the new id |
| `OAuth2Service.NewAccountAllOrNothing` | menu/src/main/java/com/kh/menu/security/model/service/OAuth2Service.java:38-76 | for an unknown email without a profile map (a null dereference before the first insert), or whose identity key is already taken, or with no id left, the sign-in fails and the tables are left as they were, the user inserted first rolled back |
| `OAuth2Service.ExistingAccountOnlyUpdates` | menu/src/main/java/com/kh/menu/security/model/service/OAuth2Service.java:52-90 | for a known email: no user, identity or authority is inserted; only the token of an existing identity changes; the principal carries the existing id; without that identity nothing changes and no link is made |
| `OAuth2Service.LatestTokenStored` | menu/src/main/java/com/kh/menu/security/model/service/OAuth2Service.java:79-84 | after a successful Kakao sign-in, the identity for (provider, providerUserId), if it exists, holds the latest access token |
| `OAuth2Service.UpdateUserIdentitiesIdempotent` | menu/src/main/java/com/kh/menu/security/model/service/OAuth2Service.java:79-84 | storing the same access token twice is the same as storing it once |
| `OAuth2Service.LoadUserKeepsValid` | menu/src/main/java/com/kh/menu/security/model/service/OAuth2Service.java:39-95 | sign-in preserves the store's constraints |
| `OAuth2Service.LoadUserIdempotent` | menu/src/main/java/com/kh/menu/security/model/service/OAuth2Service.java:39-95 | repeating the same sign-in leaves the tables unchanged and returns the same principal |
| `OAuth2Service.ProfileMatchesLinkedAccount` | menu/src/main/java/com/kh/menu/security/model/service/AuthService.java:102-121 | the profile mapping succeeds iff a first Kakao sign-in does (both need the profile map); it gives a user with no id, no password and roles `["ROLE_USER"]` that agrees in email, name, profile image and roles with the account the sign-in creates |

## Left out

- Network I/O is not modelled. `KakaoService.getUserInfo` and `DefaultOAuth2UserService.loadUser` are replaced by their decoded results, which are typed inputs (`KakaoAccount`, `Attributes`). The nested-map casts are replaced by optional fields.
- `AuthService.findUserByUserId` is modelled only through its profile-to-`User` mapping (`ProfileUser`). The access-token lookup and the profile request before it only feed the network call.
- `AuthService.getKakaoAccessToken` is not modelled. It passes straight through to the mapper.
- The mapper SQL is not part of this model. The statements are modelled by the table effects described above, and the SQL is assumed to have those effects.
- Connection failures are not modelled.
- jjwt internals are not modelled: the HMAC-SHA256 computation, Base64 decoding, compact serialisation, malformed token strings, and the weak-key and bad-Base64 failures at construction. `exp` is kept in milliseconds, so NumericDate's rounding to whole seconds is not modelled.
- `Long.valueOf` is modelled on ASCII digits only. Java also accepts other Unicode decimal digits.
- The password encoder is not modelled beyond `Sound`. BCrypt's random salt makes `encode` non-deterministic, and the model treats it as a function.
- The authorities that Spring attaches to the returned principal are not modelled. The principal is a plain record.
- Spring dependency injection and `@Value` configuration loading are not modelled. The services take the database, the encoder and the provider in their constructors.
- Concurrent requests are not modelled. Each workflow is one atomic transaction.
- Null emails, nicknames or image URLs from Kakao are not modelled. These fields are plain strings. A missing `kakao_account` or `profile` map is modelled: each is a null dereference, the second only on the new-account path.
- An `id` attribute that is present with a null value is not told apart from a missing one. The model treats both as missing, so the generic principal is rejected in both cases. Spring accepts a null-valued key when the principal is built.
- `CustomOAuth2User` is not part of this model. The linked principal is a plain record, and building it is taken not to fail.
- `AuthService.AuthService.ExistsByEmail`: that the database is unchanged is guaranteed by the method having no `modifies` clause; it is not stated in the `ensures`.
