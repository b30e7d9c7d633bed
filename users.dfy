/**
 * The user directory routes (src/app/api/users/route.ts). Both are for
 * admins only, as decided by the admin token policy. GET lists every user;
 * POST checks the fields, the role enum and the uniqueness of the email, in
 * that order, then inserts the user with the HASH of the password. No reply
 * carries a password or a password hash.
 */
module Users {
  import opened Types
  import opened Auth
  import opened Store

  /** The JSON body `{ email, password, name, role }`. */
  datatype NewUserBody = NewUserBody(email: Json, password: Json, name: Json, role: Json)

  /** `bcrypt.hash(password, 10)`: the hash stored for a password. */
  type Hasher = string -> string

  const MsgInvalidRole := "Invalid role"
  const MsgDuplicateEmail := "User with this email already exists"

  /** The `select` of both routes: id, email, name and role. */
  function Public(u: User): PublicUser {
    PublicUser(u.id, u.email, u.name, u.role)
  }

  /** `GET /api/users`: 401 for a caller who is not a stored admin, otherwise
      every user of the directory, in order, without the password column. */
  function List(header: Option<string>, verify: Verifier, users: seq<User>): (r: Reply<seq<PublicUser>>)
    ensures r.Err? <==> AdminUserFromToken(header, verify, users).None?
    ensures r.Err? ==> r == Err(401, MsgUnauthorized)
    ensures r.Ok? ==> r.status == 200 && |r.value| == |users|
    ensures r.Ok? ==> forall i :: 0 <= i < |users| ==>
              r.value[i].id == users[i].id && r.value[i].email == users[i].email
              && r.value[i].name == users[i].name && r.value[i].role == users[i].role
  {
    if AdminUserFromToken(header, verify, users).None? then Err(401, MsgUnauthorized)
    else Ok(200, seq(|users|, i requires 0 <= i < |users| => Public(users[i])))
  }

  /** Whether some user of the directory has this email (`findUnique` by email). */
  predicate EmailTaken(users: seq<User>, email: string) {
    exists i :: 0 <= i < |users| && users[i].email == email
  }

  predicate AnyFieldMissing(body: NewUserBody) {
    Falsy(body.email) || Falsy(body.password) || Falsy(body.name) || Falsy(body.role)
  }

  /** `POST /api/users` as a decision: the reply of the route, and on success
      (201) the row it inserts, whose id `newId` the store generates. Checks in
      order: caller is an admin (401), all fields truthy (400), role is an enum
      value (400), email not taken (409). A field that passes these checks but
      is not a string makes the store or the hash throw into the 500 handler:
      the email at the lookup, before the duplicate check; the password and
      the name afterwards. */
  function Create(admin: Option<User>, body: NewUserBody, users: seq<User>, hash: Hasher, newId: string): (r: Reply<User>)
    ensures admin.None? <==> r == Err(401, MsgUnauthorized)
    ensures r == Err(400, MsgMissingFields) <==> admin.Some? && AnyFieldMissing(body)
    ensures r == Err(400, MsgInvalidRole) <==>
              admin.Some? && !AnyFieldMissing(body) && ParseRole(body.role).None?
    ensures r == Err(409, MsgDuplicateEmail) <==>
              admin.Some? && !AnyFieldMissing(body) && ParseRole(body.role).Some?
              && body.email.Str? && EmailTaken(users, body.email.s)
    ensures r == Err(500, MsgInternal) <==>
              admin.Some? && !AnyFieldMissing(body) && ParseRole(body.role).Some?
              && (!body.email.Str? || (!EmailTaken(users, body.email.s) && (!body.password.Str? || !body.name.Str?)))
    ensures r.Ok? <==>
              admin.Some? && !AnyFieldMissing(body) && ParseRole(body.role).Some?
              && body.email.Str? && body.password.Str? && body.name.Str?
              && !EmailTaken(users, body.email.s)
    ensures r.Ok? ==>
              && r.status == 201
              && r.value == User(newId, body.email.s, hash(body.password.s), body.name.s, r.value.role)
              && body.role == Str(RoleName(r.value.role))
    ensures r.Err? ==> r.status in {400, 401, 409, 500}
  {
    if admin.None? then Err(401, MsgUnauthorized)
    else if AnyFieldMissing(body) then Err(400, MsgMissingFields)
    else match ParseRole(body.role)
      case None => Err(400, MsgInvalidRole)
      case Some(role) =>
        if !body.email.Str? then Err(500, MsgInternal)
        else if EmailTaken(users, body.email.s) then Err(409, MsgDuplicateEmail)
        else if !body.password.Str? || !body.name.Str? then Err(500, MsgInternal)
        else Ok(201, User(newId, body.email.s, hash(body.password.s), body.name.s, role))
  }

  /** A successful insert keeps the emails of the directory unique, and the
      ids too when the generated id is not in use. */
  lemma {:induction false} CreateKeepsDirectoryUnique(admin: Option<User>, body: NewUserBody, users: seq<User>, hash: Hasher, newId: string)
    requires Create(admin, body, users, hash, newId).Ok?
    ensures var u := Create(admin, body, users, hash, newId).value;
            (UniqueEmails(users) ==> UniqueEmails(users + [u]))
            && (UniqueIds(users) && (forall v :: v in users ==> v.id != newId) ==> UniqueIds(users + [u]))
  {
    var u := Create(admin, body, users, hash, newId).value;
    var all := users + [u];
    forall i | 0 <= i < |users| ensures all[i].email != u.email && all[i] == users[i] {
      assert !EmailTaken(users, body.email.s);
    }
    if UniqueIds(users) && (forall v :: v in users ==> v.id != newId) {
      forall i | 0 <= i < |users| ensures all[i].id != u.id {
        assert users[i] in users;
      }
    }
  }

  /** The reply to POST does not depend on the hash: whatever the hash
      function, the caller sees the same status and the same public record. */
  lemma CreateReplyHidesHash(admin: Option<User>, body: NewUserBody, users: seq<User>, hash1: Hasher, hash2: Hasher, newId: string)
    ensures var r1, r2 := Create(admin, body, users, hash1, newId), Create(admin, body, users, hash2, newId);
            r1.Ok? == r2.Ok? && r1.status == r2.status
            && (r1.Ok? ==> Public(r1.value) == Public(r2.value))
            && (r1.Err? ==> r1.message == r2.message)
  {
  }

  /** Two directories that differ at most in their password hashes. */
  predicate SameButPasswords(users1: seq<User>, users2: seq<User>) {
    |users1| == |users2| && forall i :: 0 <= i < |users1| ==> Public(users1[i]) == Public(users2[i])
  }

  lemma {:induction false} FindUserByIdIgnoresPasswords(users1: seq<User>, users2: seq<User>, id: string)
    requires SameButPasswords(users1, users2)
    ensures FindUserById(users1, id).Some? == FindUserById(users2, id).Some?
    ensures FindUserById(users1, id).Some? ==>
              Public(FindUserById(users1, id).value) == Public(FindUserById(users2, id).value)
  {
    if users1 != [] {
      assert Public(users1[0]) == Public(users2[0]);
      if users1[0].id != id {
        assert SameButPasswords(users1[1..], users2[1..]) by {
          forall i | 0 <= i < |users1| - 1 ensures Public(users1[1..][i]) == Public(users2[1..][i]) {
            assert users1[1..][i] == users1[i + 1] && users2[1..][i] == users2[i + 1];
          }
        }
        FindUserByIdIgnoresPasswords(users1[1..], users2[1..], id);
      }
    }
  }

  /** The listing does not depend on the stored password hashes: no
      information about them reaches the reply. */
  lemma ListHidesPasswords(header: Option<string>, verify: Verifier, users1: seq<User>, users2: seq<User>)
    requires SameButPasswords(users1, users2)
    ensures List(header, verify, users1) == List(header, verify, users2)
  {
    var claim := UserIdFromToken(header, verify);
    if claim.Some? {
      FindUserByIdIgnoresPasswords(users1, users2, claim.value);
    }
    var r1, r2 := List(header, verify, users1), List(header, verify, users2);
    if r1.Ok? {
      assert r1.value == r2.value by {
        forall i | 0 <= i < |users1| ensures r1.value[i] == r2.value[i] {
          assert Public(users1[i]) == Public(users2[i]);
        }
      }
    }
  }

  /** `POST /api/users` on the database: the reply is the public view of the
      decision, the inserted row is appended when it succeeds, and nothing
      else changes. On any failure (401, 400, 409, 500) the directory is
      unchanged. The store generates `newId`, an id not in use. */
  method Post(db: Database, header: Option<string>, verify: Verifier, hash: Hasher, body: NewUserBody, newId: string)
    returns (resp: Reply<PublicUser>)
    requires db.Valid()
    requires forall u :: u in db.users ==> u.id != newId
    modifies db
    ensures db.Valid()
    ensures db.logs == old(db.logs)
    ensures var r := Create(AdminUserFromToken(header, verify, old(db.users)), body, old(db.users), hash, newId);
            && resp == (if r.Ok? then Ok(201, Public(r.value)) else Err(r.status, r.message))
            && db.users == (if r.Ok? then old(db.users) + [r.value] else old(db.users))
  {
    var adminUser := AdminUserFromToken(header, verify, db.users);
    if adminUser.None? {
      return Err(401, MsgUnauthorized);
    }
    if AnyFieldMissing(body) {
      return Err(400, MsgMissingFields);
    }
    var role := ParseRole(body.role);
    if role.None? {
      return Err(400, MsgInvalidRole);
    }
    if !body.email.Str? {
      return Err(500, MsgInternal);
    }
    if EmailTaken(db.users, body.email.s) {
      return Err(409, MsgDuplicateEmail);
    }
    if !body.password.Str? || !body.name.Str? {
      return Err(500, MsgInternal);
    }
    var newUser := User(newId, body.email.s, hash(body.password.s), body.name.s, role.value);
    CreateKeepsDirectoryUnique(adminUser, body, db.users, hash, newId);
    db.users := db.users + [newUser];
    resp := Ok(201, Public(newUser));
  }
}
