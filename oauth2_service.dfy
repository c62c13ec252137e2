/**
 * The social identity linker run after a provider sign-in. For Kakao it finds the local
 * account by email or creates it (user, identity and default role, in one transaction), then
 * always stores the latest provider access token on the (provider, providerUserId) identity;
 * for any other provider it returns a plain principal and does not touch the database.
 */
module OAuth2Service {
  import opened Wrappers
  import opened JavaText
  import opened StoreTables
  import opened CredentialStore
  import opened Kakao
  import AuthService

  const KakaoRegistrationId: string := "kakao"
  const NameAttributeKey: string := "id"

  /** The parts of the `OAuth2UserRequest` read: the registration id and the access token value. */
  datatype OAuth2UserRequest = OAuth2UserRequest(registrationId: string, accessToken: string)

  /** The attribute map the provider returned, decoded: its `id` and its `kakao_account`, either possibly absent. */
  datatype Attributes = Attributes(id: Option<Int64>, kakaoAccount: Option<KakaoAccount>)

  /** The returned principal: generic, or carrying the resolved local user id. */
  datatype Principal =
    | DefaultPrincipal(attributes: Attributes, nameAttributeKey: string)
    | LinkedPrincipal(attributes: Attributes, nameAttributeKey: string, userId: Int64)

  /**
   * Why `loadUser` throws: a missing map dereferenced, a generic principal built without its
   * name attribute, or a failed statement.
   */
  datatype LoadError = NullPointer | IllegalArgument | Store(storeError: StoreError)

  /** `String.valueOf(attributes.get("id"))`. */
  function ProviderUserId(attrs: Attributes): string {
    ValueOf(attrs.id)
  }

  function IdentityOf(req: OAuth2UserRequest, attrs: Attributes): IdentityKey {
    IdentityKey(req.registrationId, ProviderUserId(attrs))
  }

  /** `loadUser` as one transaction over the tables; a failure leaves them as they were. */
  function LoadUserOutcome(t: Tables, req: OAuth2UserRequest, attrs: Attributes): (r: (Tables, Result<Principal, LoadError>))
    ensures r.1.Err? ==> r.0 == t
    ensures req.registrationId != KakaoRegistrationId ==>
              r.0 == t && (r.1.Ok? <==> attrs.id.Some?) && (r.1.Err? ==> r.1.error == IllegalArgument)
    ensures r.1.Ok? ==> r.1.value.attributes == attrs && r.1.value.nameAttributeKey == "id"
    ensures r.1.Ok? ==> (r.1.value.LinkedPrincipal? <==> req.registrationId == KakaoRegistrationId)
    ensures r.1.Ok? && r.1.value.LinkedPrincipal? ==> r.1.value.userId in r.0.users
  {
    if req.registrationId != KakaoRegistrationId then
      if attrs.id.None? then (t, Err(IllegalArgument)) else (t, Ok(DefaultPrincipal(attrs, NameAttributeKey)))
    else if attrs.kakaoAccount.None? then (t, Err(NullPointer))
    else
      var account := attrs.kakaoAccount.value;
      var key := IdentityOf(req, attrs);
      match FindUserByEmail(t, account.email)
      case Some(user) =>
        (UpdateUserIdentities(t, key, req.accessToken), Ok(LinkedPrincipal(attrs, NameAttributeKey, user.id.value)))
      case None =>
        if account.profile.None? then (t, Err(NullPointer))
        else
          var profile := account.profile.value;
          var (t1, inserted) := InsertUser(t, UserRow(account.email, profile.nickname, Some(profile.profileImageUrl)));
          match inserted
          case Err(e) => (t, Err(Store(e)))
          case Ok(id) =>
            var (t2, linked) := InsertUserIdentities(t1, key, req.accessToken, id);
            match linked
            case Err(e) => (t, Err(Store(e)))
            case Ok(_) =>
              var (t3, role) := InsertUserRole(t2, id, [RoleUser]);
              match role
              case Err(e) => (t, Err(Store(e)))
              case Ok(_) => (UpdateUserIdentities(t3, key, req.accessToken), Ok(LinkedPrincipal(attrs, NameAttributeKey, id)))
  }

  class OAuth2Service {
    const db: Database

    constructor (db: Database)
      ensures this.db == db
    {
      this.db := db;
    }

    method LoadUser(req: OAuth2UserRequest, attrs: Attributes) returns (r: Result<Principal, LoadError>)
      modifies db
      ensures (db.Snapshot(), r) == LoadUserOutcome(old(db.Snapshot()), req, attrs)
    {
      var provider := req.registrationId;
      var providerUserId := ValueOf(attrs.id);
      var accessToken := req.accessToken;
      if provider == KakaoRegistrationId {
        if attrs.kakaoAccount.None? {
          return Err(NullPointer);
        }
        var account := attrs.kakaoAccount.value;
        var saved := db.Snapshot();
        var user := FindUserByEmail(db.Snapshot(), account.email);
        var userId: Int64;
        if user.None? {
          if account.profile.None? {
            return Err(NullPointer);
          }
          var profile := account.profile.value;
          var inserted := db.InsertUser(UserRow(account.email, profile.nickname, Some(profile.profileImageUrl)));
          if inserted.Err? {
            db.Restore(saved);
            return Err(Store(inserted.error));
          }
          userId := inserted.value;
          var linked := db.InsertUserIdentities(IdentityKey(provider, providerUserId), accessToken, userId);
          if linked.Err? {
            db.Restore(saved);
            return Err(Store(linked.error));
          }
          // The user row was inserted just above, so its role insert cannot violate the foreign key.
          var _ := db.InsertUserRole(userId, [RoleUser]);
        } else {
          userId := user.value.id.value;
        }
        db.UpdateUserIdentities(IdentityKey(provider, providerUserId), accessToken);
        return Ok(LinkedPrincipal(attrs, NameAttributeKey, userId));
      }
      if attrs.id.None? {
        return Err(IllegalArgument);
      }
      r := Ok(DefaultPrincipal(attrs, NameAttributeKey));
    }
  }

  // ---------------------------------------------------------------------------------------
  // Properties
  // ---------------------------------------------------------------------------------------

  /**
   * Any provider but Kakao: no read or write; a generic principal with the raw attributes and
   * name key "id", or an illegal-argument failure when the attributes carry no `id`.
   */
  lemma OtherProviderUntouched(t: Tables, req: OAuth2UserRequest, attrs: Attributes)
    requires req.registrationId != "kakao"
    ensures attrs.id.Some? ==> LoadUserOutcome(t, req, attrs) == (t, Ok(DefaultPrincipal(attrs, "id")))
    ensures attrs.id.None? ==> LoadUserOutcome(t, req, attrs) == (t, Err(IllegalArgument))
  {
  }

  /** A Kakao sign-in whose attributes lack `kakao_account` is a null dereference before any database access. */
  lemma KakaoWithoutAccount(t: Tables, req: OAuth2UserRequest, attrs: Attributes)
    requires req.registrationId == "kakao" && attrs.kakaoAccount.None?
    ensures LoadUserOutcome(t, req, attrs) == (t, Err(NullPointer))
  {
  }

  /**
   * A Kakao sign-in with an unknown email and an unused identity key creates the account:
   * one user with the email, nickname and image URL under a fresh id, one identity for
   * (provider, String.valueOf(id)) holding the access token and the new id, and one authority
   * with the default role; nothing else changes, the constraints still hold, and the principal
   * carries the new id.
   */
  lemma NewAccountCreated(t: Tables, req: OAuth2UserRequest, attrs: Attributes)
    requires Valid(t)
    requires req.registrationId == "kakao" && attrs.kakaoAccount.Some?
    requires attrs.kakaoAccount.value.profile.Some?
    requires !exists id :: id in t.users && t.users[id].email == attrs.kakaoAccount.value.email
    requires IdentityKey("kakao", ValueOf(attrs.id)) !in t.identities
    requires t.nextId < 0x7fff_ffff_ffff_ffff
    ensures var a := attrs.kakaoAccount.value.profile.value;
            var id := t.nextId;
            var (t', r) := LoadUserOutcome(t, req, attrs);
            && id !in t.users
            && t' == t.(users := t.users[id := UserRow(attrs.kakaoAccount.value.email, a.nickname, Some(a.profileImageUrl))],
                        byEmail := t.byEmail[attrs.kakaoAccount.value.email := id],
                        identities := t.identities[IdentityKey("kakao", ValueOf(attrs.id)) := IdentityRow(req.accessToken, id)],
                        authorities := t.authorities[id := [RoleUser]],
                        nextId := id + 1)
            && Valid(t')
            && r == Ok(LinkedPrincipal(attrs, "id", id))
  {
    var a := attrs.kakaoAccount.value.profile.value;
    var id := t.nextId;
    var key := IdentityOf(req, attrs);
    var row := UserRow(attrs.kakaoAccount.value.email, a.nickname, Some(a.profileImageUrl));
    InsertUserFresh(t, row);
    var (t1, inserted) := InsertUser(t, row);
    assert inserted == Ok(id);
    var (t2, linked) := InsertUserIdentities(t1, key, req.accessToken, id);
    assert linked.Ok?;
    assert id !in t.authorities;
    var (t3, role) := InsertUserRole(t2, id, [RoleUser]);
    assert [] + [RoleUser] == [RoleUser];
    assert t3.authorities == t.authorities[id := [RoleUser]];
    assert UpdateUserIdentities(t3, key, req.accessToken) == t3;
    assert Valid(t3);
  }

  /**
   * With an unknown email but no profile map (a null dereference before the first insert), or
   * an identity key already taken (or no id left), the sign-in fails and the transaction leaves
   * no trace: the user inserted first is gone again.
   */
  lemma NewAccountAllOrNothing(t: Tables, req: OAuth2UserRequest, attrs: Attributes)
    requires Valid(t)
    requires req.registrationId == "kakao" && attrs.kakaoAccount.Some?
    requires !exists id :: id in t.users && t.users[id].email == attrs.kakaoAccount.value.email
    requires || attrs.kakaoAccount.value.profile.None?
             || IdentityKey("kakao", ValueOf(attrs.id)) in t.identities
             || t.nextId == 0x7fff_ffff_ffff_ffff
    ensures LoadUserOutcome(t, req, attrs).0 == t
    ensures LoadUserOutcome(t, req, attrs).1.Err?
    ensures attrs.kakaoAccount.value.profile.None? ==> LoadUserOutcome(t, req, attrs).1 == Err(NullPointer)
  {
    var a := attrs.kakaoAccount.value;
    if a.profile.Some? {
      var p := a.profile.value;
      InsertUserFresh(t, UserRow(a.email, p.nickname, Some(p.profileImageUrl)));
    }
  }

  /**
   * A Kakao sign-in with a known email inserts no user, identity or authority: the only change
   * is the access token of an existing (provider, providerUserId) identity, and the principal
   * carries the existing user's id. When that identity does not exist (an account made by
   * password signup, say) nothing changes at all and no link is created.
   */
  lemma ExistingAccountOnlyUpdates(t: Tables, req: OAuth2UserRequest, attrs: Attributes, id: Int64)
    requires Valid(t)
    requires req.registrationId == "kakao" && attrs.kakaoAccount.Some?
    requires id in t.users && t.users[id].email == attrs.kakaoAccount.value.email
    ensures var key := IdentityKey("kakao", ValueOf(attrs.id));
            var (t', r) := LoadUserOutcome(t, req, attrs);
            && r == Ok(LinkedPrincipal(attrs, "id", id))
            && t' == t.(identities := t'.identities)
            && t'.identities.Keys == t.identities.Keys
            && (key in t.identities ==>
                  t'.identities[key] == IdentityRow(req.accessToken, t.identities[key].userId))
            && (forall k :: k in t.identities && k != key ==> t'.identities[k] == t.identities[k])
            && (key !in t.identities ==> t' == t)
  {
    var key := IdentityOf(req, attrs);
    assert t.byEmail[attrs.kakaoAccount.value.email] == id;
    UpdateUserIdentitiesOnlyToken(t, key, req.accessToken);
  }

  /** Every successful Kakao sign-in leaves the latest access token on its identity, if that identity exists afterwards. */
  lemma LatestTokenStored(t: Tables, req: OAuth2UserRequest, attrs: Attributes)
    requires req.registrationId == "kakao"
    requires LoadUserOutcome(t, req, attrs).1.Ok?
    ensures var t' := LoadUserOutcome(t, req, attrs).0;
            var key := IdentityKey("kakao", ValueOf(attrs.id));
            key in t'.identities ==> t'.identities[key].accessToken == req.accessToken
  {
  }

  /** Sign-in keeps the schema constraints. */
  lemma LoadUserKeepsValid(t: Tables, req: OAuth2UserRequest, attrs: Attributes)
    requires Valid(t)
    ensures Valid(LoadUserOutcome(t, req, attrs).0)
  {
    if req.registrationId == KakaoRegistrationId && attrs.kakaoAccount.Some? {
      var a := attrs.kakaoAccount.value;
      var key := IdentityOf(req, attrs);
      if exists id :: id in t.users && t.users[id].email == a.email {
        var id :| id in t.users && t.users[id].email == a.email;
        ExistingAccountOnlyUpdates(t, req, attrs, id);
      } else if a.profile.Some? && key !in t.identities && t.nextId < 0x7fff_ffff_ffff_ffff {
        NewAccountCreated(t, req, attrs);
      } else {
        NewAccountAllOrNothing(t, req, attrs);
      }
    }
  }

  /** The outcome for a known email, as one update of the identity table. */
  lemma KnownEmailOutcome(t: Tables, req: OAuth2UserRequest, attrs: Attributes, id: Int64)
    requires Valid(t)
    requires req.registrationId == KakaoRegistrationId && attrs.kakaoAccount.Some?
    requires id in t.users && t.users[id].email == attrs.kakaoAccount.value.email
    ensures LoadUserOutcome(t, req, attrs) ==
              (UpdateUserIdentities(t, IdentityOf(req, attrs), req.accessToken), Ok(LinkedPrincipal(attrs, NameAttributeKey, id)))
  {
    assert t.byEmail[attrs.kakaoAccount.value.email] == id;
  }

  /** Storing the same access token twice is the same as storing it once. */
  lemma UpdateUserIdentitiesIdempotent(t: Tables, key: IdentityKey, accessToken: string)
    ensures var t1 := UpdateUserIdentities(t, key, accessToken);
            UpdateUserIdentities(t1, key, accessToken) == t1
  {
    var t1 := UpdateUserIdentities(t, key, accessToken);
    if key in t1.identities {
      assert t1.identities[key := t1.identities[key].(accessToken := accessToken)] == t1.identities;
    }
  }

  /** Repeating the same sign-in changes nothing further and gives the same principal. */
  lemma LoadUserIdempotent(t: Tables, req: OAuth2UserRequest, attrs: Attributes)
    requires Valid(t)
    ensures var (t1, r1) := LoadUserOutcome(t, req, attrs);
            LoadUserOutcome(t1, req, attrs) == (t1, r1)
  {
    if req.registrationId == KakaoRegistrationId && attrs.kakaoAccount.Some? {
      var a := attrs.kakaoAccount.value;
      var key := IdentityOf(req, attrs);
      var t1 := LoadUserOutcome(t, req, attrs).0;
      if exists id :: id in t.users && t.users[id].email == a.email {
        var id :| id in t.users && t.users[id].email == a.email;
        KnownEmailOutcome(t, req, attrs, id);
        UpdateUserIdentitiesOnlyToken(t, key, req.accessToken);
        KnownEmailOutcome(t1, req, attrs, id);
        UpdateUserIdentitiesIdempotent(t, key, req.accessToken);
      } else if a.profile.Some? && key !in t.identities && t.nextId < 0x7fff_ffff_ffff_ffff {
        NewAccountCreated(t, req, attrs);
        var id := t.nextId;
        KnownEmailOutcome(t1, req, attrs, id);
        assert t1.identities[key].accessToken == req.accessToken;
        UpdateUserIdentitiesIdempotent(t1, key, req.accessToken);
        assert UpdateUserIdentities(t1, key, req.accessToken) == t1 by {
          assert t1.identities[key := t1.identities[key].(accessToken := req.accessToken)] == t1.identities;
        }
      } else {
        NewAccountAllOrNothing(t, req, attrs);
      }
    }
  }

  /**
   * The account a first Kakao sign-in creates agrees with the profile mapping of
   * `findUserByUserId` on email, name, profile image and roles; both fail alike on an account
   * without a profile map.
   */
  lemma ProfileMatchesLinkedAccount(t: Tables, req: OAuth2UserRequest, attrs: Attributes)
    requires Valid(t)
    requires req.registrationId == "kakao" && attrs.kakaoAccount.Some?
    requires !exists id :: id in t.users && t.users[id].email == attrs.kakaoAccount.value.email
    requires IdentityKey("kakao", ValueOf(attrs.id)) !in t.identities
    requires t.nextId < 0x7fff_ffff_ffff_ffff
    ensures AuthService.ProfileUser(attrs.kakaoAccount.value).Ok? <==> LoadUserOutcome(t, req, attrs).1.Ok?
    ensures AuthService.ProfileUser(attrs.kakaoAccount.value).Ok? ==>
              var t' := LoadUserOutcome(t, req, attrs).0;
              var p := AuthService.ProfileUser(attrs.kakaoAccount.value).value;
              var u := UserOf(t', t.nextId);
              && t.nextId in t'.users
              && u.email == p.email && u.name == p.name && u.profile == p.profile && u.roles == p.roles
              && p.id.None? && p.password.None?
  {
    if attrs.kakaoAccount.value.profile.Some? {
      NewAccountCreated(t, req, attrs);
    } else {
      NewAccountAllOrNothing(t, req, attrs);
    }
  }
}
