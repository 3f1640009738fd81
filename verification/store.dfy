/** The mutable state the handlers share: the access-token cookie, the revocation ledger and the user table. */
module Store {
  import opened Wrappers
  import opened Accounts

  /** A cookie with the attributes a route sets on it. */
  datatype Cookie = Cookie(value: string, httpOnly: bool, secure: bool, sameSite: string, maxAge: int, path: string)

  /** Seconds in one day: the cookie's `maxAge`. */
  const CookieMaxAge := 60 * 60 * 24 * 1

  /** The cookie both token-issuing login routes set. */
  function SessionCookie(token: string): (c: Cookie)
    ensures c.value == token && c.httpOnly && c.secure && c.sameSite == "strict"
    ensures c.maxAge == 86400 && c.path == "/"
  {
    Cookie(token, true, true, "strict", CookieMaxAge, "/")
  }

  /** The access-token cookie of the current request, as `cookies()` exposes it. */
  class CookieJar {
    var access: Option<Cookie>

    constructor (c: Option<Cookie>)
      ensures access == c
    {
      access := c;
    }
  }

  /** A row of the token table: a revoked token and the time (ms) it would have expired. */
  datatype Revocation = Revocation(accessToken: string, expiryDate: int)

  /** The revocation ledger. */
  class TokenTable {
    var records: seq<Revocation>

    /** `accessToken` is unique in the table. */
    ghost predicate Valid()
      reads this
    {
      forall i, j :: 0 <= i < j < |records| ==> records[i].accessToken != records[j].accessToken
    }

    /** The revoked tokens. */
    function Tokens(): set<string>
      reads this
    {
      set r | r in records :: r.accessToken
    }

    /** How many records name `token`. */
    function Count(token: string): nat
      reads this
    {
      |set i | 0 <= i < |records| && records[i].accessToken == token|
    }

    constructor ()
      ensures records == [] && Valid()
    {
      records := [];
    }
  }

  /** Every row sits under its own email: the email column is the table's unique key. */
  ghost predicate KeyedByEmail(users: map<string, Account>) {
    forall e :: e in users ==> users[e].email == e
  }

  /** The user table, keyed by the unique email column. */
  class UserTable {
    var users: map<string, Account>

    ghost predicate Valid()
      reads this
    {
      KeyedByEmail(users)
    }

    constructor (initial: map<string, Account>)
      ensures users == initial
    {
      users := initial;
    }
  }
}
