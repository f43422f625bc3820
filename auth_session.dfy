/**
 * A signed-in user's tokens (`AuthSession`, `AuthenticatedUser`). Dates are
 * whole seconds on one clock, and the session's `UUID` identifier is a
 * number supplied by the caller.
 */
module Auth {
  import opened Wrappers

  datatype AuthenticatedUser = AuthenticatedUser(
    subject: string,
    email: Option<string>,
    givenName: Option<string>,
    familyName: Option<string>)

  datatype AuthSession = AuthSession(
    id: nat,
    accessToken: string,
    refreshToken: Option<string>,
    idToken: string,
    expiresAt: int,
    user: AuthenticatedUser)
  {
    /** `isExpired`, with the current time passed in. */
    predicate IsExpired(now: int) {
      now >= expiresAt
    }

    /** Everything but the identifier, which is not carried through encoding. */
    function Content(): (string, Option<string>, string, int, AuthenticatedUser) {
      (accessToken, refreshToken, idToken, expiresAt, user)
    }
  }

  /** A session has already expired at the instant it expires, and not a second before. */
  lemma ExpiresAtDeadline(s: AuthSession)
    ensures s.IsExpired(s.expiresAt)
    ensures !s.IsExpired(s.expiresAt - 1)
  {
  }

  /** Once expired, a session stays expired. */
  lemma StaysExpired(s: AuthSession, now: int, later: int)
    requires s.IsExpired(now) && now <= later
    ensures s.IsExpired(later)
  {
  }

  /** Expiry depends on the deadline alone, not on the tokens, the user or the identifier. */
  lemma ExpiryDependsOnlyOnDeadline(s: AuthSession, t: AuthSession, now: int)
    requires s.expiresAt == t.expiresAt
    ensures s.IsExpired(now) <==> t.IsExpired(now)
  {
  }
}
