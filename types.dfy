/**
 * Records shared by several stores and composables: the application user, a
 * partial update of it, and the JSON text the stores persist it as.
 */
module Types {
  import opened Base
  import opened Query

  /** The application's user record. `role` is kept as the raw string the server sent. */
  datatype User = User(
    id: int,
    email: string,
    name: string,
    role: string,
    blacklisted: bool,
    createdAt: string,
    updatedAt: string)

  /** What a successful login returns: the access token and the user. */
  datatype AuthResponse = AuthResponse(accessToken: string, user: User)

  /** `Partial<User>`: each field either given or left out. */
  datatype UserPatch = UserPatch(
    email: Option<string>,
    name: Option<string>,
    role: Option<string>,
    blacklisted: Option<bool>,
    updatedAt: Option<string>)

  function Pick<T>(o: Option<T>, d: T): T
  {
    if o.Some? then o.value else d
  }

  /** `{ ...user, ...patch }` */
  function Overlay(u: User, p: UserPatch): (r: User)
    ensures r.id == u.id && r.createdAt == u.createdAt
    ensures p.email.Some? ==> r.email == p.email.value
    ensures p.email.None? ==> r.email == u.email
    ensures p.name.Some? ==> r.name == p.name.value
    ensures p.name.None? ==> r.name == u.name
    ensures p.role.Some? ==> r.role == p.role.value
    ensures p.role.None? ==> r.role == u.role
    ensures p.blacklisted.Some? ==> r.blacklisted == p.blacklisted.value
    ensures p.blacklisted.None? ==> r.blacklisted == u.blacklisted
    ensures p.updatedAt.Some? ==> r.updatedAt == p.updatedAt.value
    ensures p.updatedAt.None? ==> r.updatedAt == u.updatedAt
  {
    User(u.id, Pick(p.email, u.email), Pick(p.name, u.name), Pick(p.role, u.role),
         Pick(p.blacklisted, u.blacklisted), u.createdAt, Pick(p.updatedAt, u.updatedAt))
  }

  /** `JSON.stringify(user)`, with the members in the order the record declares them. */
  function UserJson(u: User): string
  {
    Stringify(JObj([
      ("id", JNum(u.id)),
      ("email", JStr(u.email)),
      ("name", JStr(u.name)),
      ("role", JStr(u.role)),
      ("blacklisted", JBool(u.blacklisted)),
      ("created_at", JStr(u.createdAt)),
      ("updated_at", JStr(u.updatedAt))]))
  }
}
