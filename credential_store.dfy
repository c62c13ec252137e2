/**
 * The database the services share, as an object whose tables the mapper statements update in
 * place. `Snapshot` reads the tables as a value; each statement is specified by the
 * corresponding function of `StoreTables`. `Restore` is a transaction's rollback.
 */
module CredentialStore {
  import opened Wrappers
  import opened StoreTables
  import opened JavaText

  class Database {
    var users: map<Int64, UserRow>
    var byEmail: map<string, Int64>
    var credentials: map<Int64, string>
    var authorities: map<Int64, seq<string>>
    var identities: map<IdentityKey, IdentityRow>
    var nextId: Int64

    function Snapshot(): Tables
      reads this
    {
      Tables(users, byEmail, credentials, authorities, identities, nextId)
    }

    constructor ()
      ensures Snapshot() == Empty
    {
      users, byEmail, credentials, authorities, identities, nextId := map[], map[], map[], map[], map[], 1;
    }

    /** Rolls the tables back to a state saved at the start of a transaction. */
    method Restore(t: Tables)
      modifies this
      ensures Snapshot() == t
    {
      users, byEmail, credentials, authorities, identities, nextId :=
        t.users, t.byEmail, t.credentials, t.authorities, t.identities, t.nextId;
    }

    method InsertUser(row: UserRow) returns (r: Result<Int64, StoreError>)
      modifies this
      ensures (Snapshot(), r) == StoreTables.InsertUser(old(Snapshot()), row)
    {
      if row.email in byEmail {
        return Err(DuplicateKey);
      }
      if nextId == 0x7fff_ffff_ffff_ffff {
        return Err(SequenceExhausted);
      }
      var id := nextId;
      users := users[id := row];
      byEmail := byEmail[row.email := id];
      nextId := id + 1;
      r := Ok(id);
    }

    method InsertCred(userId: Int64, password: string) returns (r: Result<(), StoreError>)
      modifies this
      ensures (Snapshot(), r) == StoreTables.InsertCred(old(Snapshot()), userId, password)
    {
      if userId !in users {
        return Err(ForeignKeyViolation);
      }
      if userId in credentials {
        return Err(DuplicateKey);
      }
      credentials := credentials[userId := password];
      r := Ok(());
    }

    method InsertUserRole(userId: Int64, roles: seq<string>) returns (r: Result<(), StoreError>)
      modifies this
      ensures (Snapshot(), r) == StoreTables.InsertUserRole(old(Snapshot()), userId, roles)
    {
      if userId !in users {
        return Err(ForeignKeyViolation);
      }
      var existing := if userId in authorities then authorities[userId] else [];
      authorities := authorities[userId := existing + roles];
      r := Ok(());
    }

    method InsertUserIdentities(key: IdentityKey, accessToken: string, userId: Int64) returns (r: Result<(), StoreError>)
      modifies this
      ensures (Snapshot(), r) == StoreTables.InsertUserIdentities(old(Snapshot()), key, accessToken, userId)
    {
      if key in identities {
        return Err(DuplicateKey);
      }
      if userId !in users {
        return Err(ForeignKeyViolation);
      }
      identities := identities[key := IdentityRow(accessToken, userId)];
      r := Ok(());
    }

    method UpdateUserIdentities(key: IdentityKey, accessToken: string)
      modifies this
      ensures Snapshot() == StoreTables.UpdateUserIdentities(old(Snapshot()), key, accessToken)
    {
      if key in identities {
        identities := identities[key := identities[key].(accessToken := accessToken)];
      }
    }
  }
}
