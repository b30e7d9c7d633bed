/**
 * Bearer-token identity resolution (src/lib/auth.ts): the `Authorization`
 * header must carry the `Bearer ` scheme of section 2.1 of RFC 6750, the rest
 * of the header is the token, and the token is checked by a JWT verifier
 * (RFC 7519) that is a parameter here. Two policies are built on it: the
 * plain one trusts the token's `userId` claim, the admin one re-reads the
 * user from the directory and requires the stored role to be ADMIN.
 */
module Auth {
  import opened Types

  const BearerPrefix: string := "Bearer "

  /** The header the client pages send with every API call: `Bearer ${token}`. */
  function BearerHeader(token: string): string {
    BearerPrefix + token
  }

  /** The token of an `authorization` header (null when absent): present only
      when the header starts, case-sensitively, with `Bearer `, and then it is
      the header with exactly that prefix removed (`substring(7)`). */
  function ExtractToken(header: Option<string>): (r: Option<string>)
    ensures r.Some? ==> header == Some(BearerHeader(r.value))
    ensures forall t {:trigger BearerHeader(t)} :: header == Some(BearerHeader(t)) ==> r == Some(t)
  {
    match header
    case None => None
    case Some(h) =>
      if |h| < |BearerPrefix| || h[..|BearerPrefix|] != BearerPrefix then None
      else
        assert h == BearerHeader(h[|BearerPrefix|..]);
        Some(h[|BearerPrefix|..])
  }

  /** `jwt.verify(token, JWT_SECRET)` with the server's fixed secret: the
      token's `userId` claim, or None when the verifier throws (bad signature,
      expired, malformed) or the payload has no `userId`. */
  type Verifier = string -> Option<string>

  /** `getUserIdFromToken`: the verified `userId` claim of the bearer token,
      null when the header is missing or not a bearer header, or when the
      token does not verify. The directory is not consulted. */
  function UserIdFromToken(header: Option<string>, verify: Verifier): (r: Option<string>)
    ensures forall t {:trigger BearerHeader(t)} :: header == Some(BearerHeader(t)) ==> r == verify(t)
    ensures (forall t {:trigger BearerHeader(t)} :: header != Some(BearerHeader(t))) ==> r.None?
  {
    match ExtractToken(header)
    case None => None
    case Some(token) => verify(token)
  }

  /** `prisma.user.findUnique({ where: { id } })`. */
  function FindUserById(users: seq<User>, id: string): (r: Option<User>)
    ensures r.Some? ==> r.value in users && r.value.id == id
    ensures r.None? <==> forall u :: u in users ==> u.id != id
  {
    if users == [] then None
    else if users[0].id == id then Some(users[0])
    else FindUserById(users[1..], id)
  }

  /** `getAdminUserFromToken`: the stored user named by the token's `userId`
      claim, provided the STORED role is ADMIN; null otherwise (bad header,
      token that does not verify, user no longer in the directory, or a user
      whose stored role is EMPLOYEE). */
  function AdminUserFromToken(header: Option<string>, verify: Verifier, users: seq<User>): (r: Option<User>)
    ensures r.Some? ==> r.value in users && r.value.role == Admin && UserIdFromToken(header, verify) == Some(r.value.id)
    ensures UserIdFromToken(header, verify).None? ==> r.None?
    ensures (forall u :: u in users ==> Some(u.id) != UserIdFromToken(header, verify)) ==> r.None?
    ensures UniqueIds(users) ==>
              forall u :: u in users && UserIdFromToken(header, verify) == Some(u.id) ==>
                r == (if u.role == Admin then Some(u) else None)
  {
    match UserIdFromToken(header, verify)
    case None => None
    case Some(id) =>
      match FindUserById(users, id)
      case Some(user) =>
        if user.role == Admin then Some(user) else None
      case None => None
  }
}
