/**
 * The relational state behind the data-access object: the users table with its unique email
 * index, credentials by user id, authorities by user id, and social identities keyed by
 * (provider, providerUserId). Each mapper statement the services use is one function from a
 * table state to the next state and its result; a statement that violates a constraint throws,
 * which is an `Err` together with the unchanged state. The SQL itself is not part of this model:
 * these functions fix what the statements are assumed to do.
 */
module StoreTables {
  import opened Wrappers
  import opened JavaText

  const RoleUser: string := "ROLE_USER"

  /** A row of the users table. */
  datatype UserRow = UserRow(email: string, name: string, profile: Option<string>)

  /** A row of the identities table, stored under its (provider, providerUserId) key. */
  datatype IdentityKey = IdentityKey(provider: string, providerUserId: string)
  datatype IdentityRow = IdentityRow(accessToken: string, userId: Int64)

  /** The `User` record the mapper returns (and the services build): null fields are `None`. */
  datatype User = User(id: Option<Int64>, email: string, name: string, profile: Option<string>,
                       password: Option<string>, roles: seq<string>)

  /**
   * A unique-key or foreign-key violation raised by the database, or an id generator whose
   * next value no longer fits the `long` id column.
   */
  datatype StoreError = DuplicateKey | ForeignKeyViolation | SequenceExhausted

  datatype Tables = Tables(
    users: map<Int64, UserRow>,
    byEmail: map<string, Int64>,
    credentials: map<Int64, string>,
    authorities: map<Int64, seq<string>>,
    identities: map<IdentityKey, IdentityRow>,
    nextId: Int64)

  /** The database starts empty; generated ids start at 1. */
  const Empty: Tables := Tables(map[], map[], map[], map[], map[], 1)

  /**
   * The constraints the schema enforces: the email index agrees with the users table (so emails
   * are unique), every credential, authority and identity belongs to an existing user, and
   * every id in use is below the next generated one.
   */
  ghost predicate Valid(t: Tables) {
    && (forall id :: id in t.users ==> id < t.nextId)
    && (forall id :: id in t.users ==> t.users[id].email in t.byEmail && t.byEmail[t.users[id].email] == id)
    && (forall e :: e in t.byEmail ==> t.byEmail[e] in t.users && t.users[t.byEmail[e]].email == e)
    && t.credentials.Keys <= t.users.Keys
    && t.authorities.Keys <= t.users.Keys
    && (forall k :: k in t.identities ==> t.identities[k].userId in t.users)
  }

  lemma EmptyValid()
    ensures Valid(Empty)
  {
  }

  /** The user with this id as the mapper assembles it: its row, password and roles. */
  function UserOf(t: Tables, id: Int64): User
    requires id in t.users
  {
    var row := t.users[id];
    User(Some(id), row.email, row.name, row.profile,
         if id in t.credentials then Some(t.credentials[id]) else None,
         if id in t.authorities then t.authorities[id] else [])
  }

  /** `findUserByEmail`: null when no user has that email. */
  function FindUserByEmail(t: Tables, email: string): (u: Option<User>)
    ensures Valid(t) ==> (u.Some? <==> exists id :: id in t.users && t.users[id].email == email)
    ensures u.Some? ==> u.value.id.Some? && u.value.id.value in t.users
    ensures Valid(t) && u.Some? ==> u.value.email == email
  {
    if email in t.byEmail && t.byEmail[email] in t.users then Some(UserOf(t, t.byEmail[email])) else None
  }

  /** `findUserByUserId`: null when no user has that id. */
  function FindUserByUserId(t: Tables, id: Int64): (u: Option<User>)
    ensures u.Some? <==> id in t.users
    ensures u.Some? ==> u.value.id == Some(id) && u.value.email == t.users[id].email
  {
    if id in t.users then Some(UserOf(t, id)) else None
  }

  /** `insertUser`: a duplicate email violates the unique index; otherwise the generated id is returned. */
  function InsertUser(t: Tables, row: UserRow): (r: (Tables, Result<Int64, StoreError>))
    ensures r.1.Err? ==> r.0 == t
    ensures r.1 == Err(DuplicateKey) <==> row.email in t.byEmail
    ensures r.1 == Err(SequenceExhausted) <==> row.email !in t.byEmail && t.nextId == 0x7fff_ffff_ffff_ffff
    ensures r.1.Ok? ==> && r.1.value == t.nextId
                        && r.0 == t.(users := r.0.users, byEmail := r.0.byEmail, nextId := t.nextId + 1)
                        && r.0.users.Keys == t.users.Keys + {t.nextId} && r.0.users[t.nextId] == row
                        && (forall id :: id in t.users && id != t.nextId ==> r.0.users[id] == t.users[id])
                        && r.0.byEmail == t.byEmail[row.email := t.nextId]
  {
    if row.email in t.byEmail then (t, Err(DuplicateKey))
    else if t.nextId == 0x7fff_ffff_ffff_ffff then (t, Err(SequenceExhausted))
    else
      var id := t.nextId;
      (t.(users := t.users[id := row], byEmail := t.byEmail[row.email := id], nextId := id + 1), Ok(id))
  }

  /** `insertCred`: one credential per existing user. */
  function InsertCred(t: Tables, userId: Int64, password: string): (r: (Tables, Result<(), StoreError>))
    ensures r.1.Err? ==> r.0 == t
    ensures r.1 == Err(ForeignKeyViolation) <==> userId !in t.users
    ensures r.1.Ok? <==> userId in t.users && userId !in t.credentials
    ensures r.1.Ok? ==> r.0 == t.(credentials := t.credentials[userId := password])
  {
    if userId !in t.users then (t, Err(ForeignKeyViolation))
    else if userId in t.credentials then (t, Err(DuplicateKey))
    else (t.(credentials := t.credentials[userId := password]), Ok(()))
  }

  /** `insertUserRole`: appends roles to an existing user's authorities. */
  function InsertUserRole(t: Tables, userId: Int64, roles: seq<string>): (r: (Tables, Result<(), StoreError>))
    ensures r.1.Err? <==> userId !in t.users
    ensures r.1.Err? ==> r.0 == t && r.1.error == ForeignKeyViolation
    ensures r.1.Ok? ==> && r.0 == t.(authorities := r.0.authorities)
                        && r.0.authorities.Keys == t.authorities.Keys + {userId}
                        && (forall u :: u in t.authorities && u != userId ==> r.0.authorities[u] == t.authorities[u])
                        && r.0.authorities[userId] == (if userId in t.authorities then t.authorities[userId] else []) + roles
  {
    if userId !in t.users then (t, Err(ForeignKeyViolation))
    else
      var existing := if userId in t.authorities then t.authorities[userId] else [];
      (t.(authorities := t.authorities[userId := existing + roles]), Ok(()))
  }

  /** `insertUserIdentities`: (provider, providerUserId) is unique. */
  function InsertUserIdentities(t: Tables, key: IdentityKey, accessToken: string, userId: Int64)
    : (r: (Tables, Result<(), StoreError>))
    ensures r.1.Err? ==> r.0 == t
    ensures r.1 == Err(DuplicateKey) <==> key in t.identities
    ensures r.1 == Err(ForeignKeyViolation) <==> key !in t.identities && userId !in t.users
    ensures r.1.Ok? ==> r.0 == t.(identities := t.identities[key := IdentityRow(accessToken, userId)])
  {
    if key in t.identities then (t, Err(DuplicateKey))
    else if userId !in t.users then (t, Err(ForeignKeyViolation))
    else (t.(identities := t.identities[key := IdentityRow(accessToken, userId)]), Ok(()))
  }

  /** `updateUserIdentities`: sets the access token of the row with that key; no row, no change. */
  function UpdateUserIdentities(t: Tables, key: IdentityKey, accessToken: string): (r: Tables)
    ensures r == t.(identities := r.identities)
    ensures r.identities.Keys == t.identities.Keys
    ensures key in t.identities ==> r.identities[key] == IdentityRow(accessToken, t.identities[key].userId)
    ensures forall k :: k in t.identities && k != key ==> r.identities[k] == t.identities[k]
  {
    if key in t.identities
    then t.(identities := t.identities[key := t.identities[key].(accessToken := accessToken)])
    else t
  }

  /** Inserting a user into a valid state takes a fresh id and keeps the state valid. */
  lemma InsertUserFresh(t: Tables, row: UserRow)
    requires Valid(t)
    ensures InsertUser(t, row).1.Ok? <==>
              (!exists id :: id in t.users && t.users[id].email == row.email) && t.nextId < 0x7fff_ffff_ffff_ffff
    ensures InsertUser(t, row).1.Ok? ==> InsertUser(t, row).1.value !in t.users
    ensures Valid(InsertUser(t, row).0)
  {
    if row.email in t.byEmail {
      var id := t.byEmail[row.email];
      assert id in t.users && t.users[id].email == row.email;
    }
  }

  /** The update touches only the access token of an existing identity and keeps the state valid. */
  lemma UpdateUserIdentitiesOnlyToken(t: Tables, key: IdentityKey, accessToken: string)
    requires Valid(t)
    ensures var t' := UpdateUserIdentities(t, key, accessToken);
            && Valid(t')
            && t'.identities.Keys == t.identities.Keys
            && t' == t.(identities := t'.identities)
            && (key in t.identities ==> t'.identities[key] == t.identities[key].(accessToken := accessToken))
            && (forall k :: k in t.identities && k != key ==> t'.identities[k] == t.identities[k])
  {
  }
}
