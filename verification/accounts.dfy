/** The user account row and the views of it that responses expose. */
module Accounts {
  import opened Wrappers

  datatype Role = User | Admin

  /** The role as the token and the `role` column spell it. */
  function RoleName(r: Role): string {
    match r
    case User => "user"
    case Admin => "admin"
  }

  /** A row of the user table. Times are milliseconds since the epoch; `None` is a null column. */
  datatype Account = Account(
    id: string,
    name: string,
    slug: string,
    email: string,
    password: string,
    role: Role,
    emailVerifiedAt: Option<int>,
    deletedAt: Option<int>,
    lastLoginAt: Option<int>,
    createdAt: int,
    updatedAt: int)

  /** `{id, name, slug, email}`: what `auth/login` selects after its update. */
  datatype Summary = Summary(id: string, name: string, slug: string, email: string)

  /** The user object built by `user/login` and `api/login`; `role` is left undefined for non-admins. */
  datatype Profile = Profile(
    id: string,
    name: string,
    slug: string,
    email: string,
    emailVerifiedAt: Option<int>,
    role: Option<Role>,
    createdAt: int,
    updatedAt: int)

  /** A row as returned by a client that omits the password column. */
  datatype PublicAccount = PublicAccount(
    id: string,
    name: string,
    slug: string,
    email: string,
    role: Role,
    emailVerifiedAt: Option<int>,
    deletedAt: Option<int>,
    lastLoginAt: Option<int>,
    createdAt: int,
    updatedAt: int)

  function SummaryOf(a: Account): (s: Summary)
    ensures s.id == a.id && s.email == a.email && s.name == a.name && s.slug == a.slug
  {
    Summary(a.id, a.name, a.slug, a.email)
  }

  /** The profile never carries the password and exposes the role only when it is admin. */
  function ProfileOf(a: Account): (p: Profile)
    ensures p.role.Some? <==> a.role == Admin
    ensures p.role.Some? ==> p.role.value == Admin
    ensures p.id == a.id && p.email == a.email && p.emailVerifiedAt == a.emailVerifiedAt
  {
    Profile(a.id, a.name, a.slug, a.email, a.emailVerifiedAt,
            if a.role == Admin then Some(a.role) else None,
            a.createdAt, a.updatedAt)
  }

  /** Every column but the password. */
  function WithoutPassword(a: Account): (p: PublicAccount)
    ensures p.id == a.id && p.name == a.name && p.email == a.email && p.role == a.role
  {
    PublicAccount(a.id, a.name, a.slug, a.email, a.role, a.emailVerifiedAt,
                  a.deletedAt, a.lastLoginAt, a.createdAt, a.updatedAt)
  }
}
