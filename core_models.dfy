/**
 * Bearer tokens and their expiry. Instants are integer microseconds on the
 * server clock (UTC); the code compares token times against the clock
 * shifted by five hours.
 */
module CoreModels {

  const MicrosPerSecond: int := 1_000_000

  /** `timedelta(hours=5)`. */
  const FiveHours: int := 5 * 3600 * MicrosPerSecond

  datatype UserToken = UserToken(user: string, token: string, issuedAt: int, expiresAt: int, expiryTime: int)

  /** `UserToken.is_expired`. */
  predicate IsExpired(t: UserToken, now: int) {
    t.expiresAt <= now + FiveHours
  }

  /** `UserToken.expires_in`: 0 for an expired token, otherwise the whole seconds
      left, the fraction truncated. */
  function ExpiresIn(t: UserToken, now: int): (r: int)
    ensures r >= 0
    ensures IsExpired(t, now) ==> r == 0
    ensures !IsExpired(t, now) ==>
      r * MicrosPerSecond <= t.expiresAt - (now + FiveHours) < (r + 1) * MicrosPerSecond
  {
    if IsExpired(t, now) then 0 else (t.expiresAt - (now + FiveHours)) / MicrosPerSecond
  }

  /** As the clock advances, the seconds left never increase and an expired token
      stays expired. */
  lemma ExpiryMonotonic(t: UserToken, earlier: int, later: int)
    requires earlier <= later
    ensures IsExpired(t, earlier) ==> IsExpired(t, later)
    ensures ExpiresIn(t, later) <= ExpiresIn(t, earlier)
  {
  }
}
