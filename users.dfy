/** The users table: rows in insertion order, looked up the way
    `query(User).filter(...).first()` does, and the errors the handlers
    raise. A user's id is the text of its UUID. */
module Users {
  import opened Common
  import opened Crypto
  import opened AuthSchema

  datatype User = User(id: string, fullname: string, email: string, passwordHash: PasswordHash, role: UserRole)

  /** An `HTTPException`: status code and detail. */
  datatype HttpError = HttpError(status: int, detail: string)

  /** The public view of a user: everything but the password hash. */
  function ToResponse(u: User): UserResponse {
    UserResponse(u.id, u.fullname, u.email, u.role)
  }

  predicate HasEmail(users: seq<User>, email: string) {
    exists i :: 0 <= i < |users| && users[i].email == email
  }

  predicate HasId(users: seq<User>, id: string) {
    exists i :: 0 <= i < |users| && users[i].id == id
  }

  /** The e-mail column is unique, and so is the primary key. */
  predicate WellFormed(users: seq<User>) {
    && (forall i, j :: 0 <= i < j < |users| ==> users[i].email != users[j].email)
    && (forall i, j :: 0 <= i < j < |users| ==> users[i].id != users[j].id)
  }

  /** The first user with the given e-mail, if any. */
  function FindByEmail(users: seq<User>, email: string): (r: Option<User>)
    ensures r.Some? <==> HasEmail(users, email)
    ensures r.Some? ==> r.value in users && r.value.email == email
  {
    if users == [] then None
    else if users[0].email == email then Some(users[0])
    else
      assert forall k :: 1 <= k < |users| ==> users[k] == users[1..][k - 1];
      FindByEmail(users[1..], email)
  }

  /** The first user with the given id, if any. */
  function FindById(users: seq<User>, id: string): (r: Option<User>)
    ensures r.Some? <==> HasId(users, id)
    ensures r.Some? ==> r.value in users && r.value.id == id
  {
    if users == [] then None
    else if users[0].id == id then Some(users[0])
    else
      assert forall k :: 1 <= k < |users| ==> users[k] == users[1..][k - 1];
      FindById(users[1..], id)
  }

  /** In a well-formed table the lookups find the one matching row. */
  lemma {:induction false} LookupsFindTheRow(users: seq<User>, i: int)
    requires WellFormed(users) && 0 <= i < |users|
    ensures FindByEmail(users, users[i].email) == Some(users[i])
    ensures FindById(users, users[i].id) == Some(users[i])
    decreases i
  {
    if i > 0 {
      var rest := users[1..];
      assert rest[i - 1] == users[i];
      assert WellFormed(rest) by {
        assert forall k :: 0 <= k < |rest| ==> rest[k] == users[k + 1];
      }
      LookupsFindTheRow(rest, i - 1);
    }
  }

  /** The login check: a user with that e-mail whose hash verifies the
      password. */
  function Authenticate(users: seq<User>, email: string, password: string): (r: Option<User>)
    ensures r.Some? <==> FindByEmail(users, email).Some? && VerifyPassword(password, FindByEmail(users, email).value.passwordHash)
    ensures r.Some? ==> r == FindByEmail(users, email)
  {
    var u := FindByEmail(users, email);
    if u.Some? && VerifyPassword(password, u.value.passwordHash) then u else None
  }

  /** The table with the password hash of user `id` replaced. */
  function WithPasswordHash(users: seq<User>, id: string, hash: PasswordHash): (r: seq<User>)
    ensures |r| == |users|
    ensures forall i :: 0 <= i < |users| ==>
              r[i] == if users[i].id == id then users[i].(passwordHash := hash) else users[i]
  {
    if users == [] then []
    else [if users[0].id == id then users[0].(passwordHash := hash) else users[0]]
         + WithPasswordHash(users[1..], id, hash)
  }

  /** Appending a user whose e-mail and id are new keeps the table well
      formed, and the new user is found by both. */
  lemma AppendKeepsWellFormed(users: seq<User>, u: User)
    requires WellFormed(users) && !HasEmail(users, u.email) && !HasId(users, u.id)
    ensures WellFormed(users + [u])
    ensures FindByEmail(users + [u], u.email) == Some(u)
    ensures FindById(users + [u], u.id) == Some(u)
  {
    var t := users + [u];
    assert t[|users|] == u;
    LookupsFindTheRow(t, |users|);
  }

  /** Replacing a hash keeps every row's e-mail and id, so the table stays
      well formed and holds the same e-mails. */
  lemma WithPasswordHashKeepsKeys(users: seq<User>, id: string, hash: PasswordHash, email: string)
    requires WellFormed(users)
    ensures WellFormed(WithPasswordHash(users, id, hash))
    ensures HasEmail(WithPasswordHash(users, id, hash), email) <==> HasEmail(users, email)
  {
    var r := WithPasswordHash(users, id, hash);
    assert forall i :: 0 <= i < |r| ==> r[i].email == users[i].email && r[i].id == users[i].id;
  }

  /** After replacing user `id`'s hash, looking an e-mail up finds the same
      row, with the new hash exactly when it is that user's row. */
  lemma WithPasswordHashLookup(users: seq<User>, id: string, hash: PasswordHash, email: string)
    requires WellFormed(users) && HasEmail(users, email)
    ensures FindByEmail(users, email).value.id != id ==>
              FindByEmail(WithPasswordHash(users, id, hash), email) == FindByEmail(users, email)
    ensures FindByEmail(users, email).value.id == id ==>
              FindByEmail(WithPasswordHash(users, id, hash), email) == Some(FindByEmail(users, email).value.(passwordHash := hash))
  {
    var r := WithPasswordHash(users, id, hash);
    WithPasswordHashKeepsKeys(users, id, hash, email);
    var i :| 0 <= i < |users| && users[i].email == email;
    LookupsFindTheRow(users, i);
    LookupsFindTheRow(r, i);
  }

  /** Replacing the hash of rows that do not carry `email` leaves the
      lookup of `email` as it was. */
  lemma {:induction false} WithPasswordHashOtherEmail(users: seq<User>, id: string, hash: PasswordHash, email: string)
    requires forall k :: 0 <= k < |users| && users[k].id == id ==> users[k].email != email
    ensures FindByEmail(WithPasswordHash(users, id, hash), email) == FindByEmail(users, email)
  {
    if users != [] {
      var r := WithPasswordHash(users, id, hash);
      assert r[1..] == WithPasswordHash(users[1..], id, hash);
      forall k | 0 <= k < |users[1..]| && users[1..][k].id == id ensures users[1..][k].email != email {
        assert users[1..][k] == users[k + 1];
      }
      WithPasswordHashOtherEmail(users[1..], id, hash, email);
    }
  }
}
