/** The `users` table: its rows and the lookups the endpoints run against it. */
module Users {
  import opened Errors
  import opened Models

  /** A row of `users`. Date of birth and gender are nullable columns. */
  datatype User = User(
    id: string, email: string, passwordHash: string, fullName: string,
    dateOfBirth: Option<Date>, gender: Option<string>, phoneNumber: Option<string>,
    role: UserRole, createdAt: int)

  /** No two rows share an e-mail address. */
  predicate EmailsUnique(users: seq<User>) {
    forall i, j :: 0 <= i < j < |users| ==> users[i].email != users[j].email
  }

  /** No two rows share an id (the database generates them). */
  predicate IdsUnique(users: seq<User>) {
    forall i, j :: 0 <= i < j < |users| ==> users[i].id != users[j].id
  }

  /** `SELECT ... FROM users WHERE email = %s` followed by `fetchone()`. */
  function FindByEmail(users: seq<User>, email: string): (r: Option<User>)
    ensures r.Some? ==> r.value in users && r.value.email == email
    ensures r.None? <==> forall u :: u in users ==> u.email != email
  {
    if users == [] then None
    else if users[0].email == email then Some(users[0])
    else FindByEmail(users[1..], email)
  }

  /** With unique e-mails, the lookup finds exactly the row that carries the address. */
  lemma {:induction false} FindByEmailFindsTheRow(users: seq<User>, u: User)
    requires EmailsUnique(users)
    requires u in users
    ensures FindByEmail(users, u.email) == Some(u)
  {
    if users[0] != u {
      assert u in users[1..];
      assert users[0].email != u.email by {
        var k :| 0 <= k < |users| && users[k] == u;
        assert k != 0;
      }
      FindByEmailFindsTheRow(users[1..], u);
    }
  }

  /** Appending a row with a fresh e-mail keeps e-mails unique. */
  lemma AppendFreshEmail(users: seq<User>, u: User)
    requires EmailsUnique(users)
    requires FindByEmail(users, u.email).None?
    ensures EmailsUnique(users + [u])
  {
    assert users[|users|..] + [u] == [u];
    assert forall i :: 0 <= i < |users| ==> users[i] in users;
  }

  /** Lookup on a table with one appended row. */
  lemma {:induction false} FindByEmailAppend(users: seq<User>, u: User, email: string)
    ensures FindByEmail(users + [u], email) ==
      if FindByEmail(users, email).Some? then FindByEmail(users, email)
      else if u.email == email then Some(u)
      else None
  {
    if users != [] {
      assert (users + [u])[1..] == users[1..] + [u];
      FindByEmailAppend(users[1..], u, email);
    }
  }

  /** `SELECT id FROM users WHERE id = %s AND role = 'PATIENT'` returns a row. */
  predicate IsPatientId(users: seq<User>, id: string) {
    exists u :: u in users && u.id == id && u.role == Patient
  }
}
