/** The token half of `MarketoClient`: the fields `authenticate` writes, and
    what one call of `authenticate` does to them. Wall-clock time is an
    integer `now`; the identity endpoint's answer is `grant` (None when the
    transport returned nothing). */
module Auth {
  import opened Wire
  import opened Requests

  /** The parsed answer of `/identity/oauth/token`. */
  datatype TokenGrant = TokenGrant(accessToken: string, tokenType: string, expiresIn: int, scope: string)

  /** `token`, `token_type`, `expires_in`, `valid_until`, `scope` and `args`. */
  datatype Session = Session(
    token: Option<string>,
    tokenType: Option<string>,
    expiresIn: Option<int>,
    validUntil: Option<int>,
    scope: Option<string>,
    args: Option<Args>)

  /** The session of a freshly constructed client. */
  const Unauthenticated := Session(None, None, None, None, None, None)

  /** `self.valid_until is not None and self.valid_until > time.time()` */
  predicate TokenValid(s: Session, now: int) {
    s.validUntil.Some? && s.validUntil.value > now
  }

  /** The fields are only ever written together, so an expiry implies a token. */
  predicate Coherent(s: Session) {
    s.validUntil.Some? ==> s.token.Some?
  }

  /** The fields after a successful fetch at time `now`; the token is
      valid exactly before `now + expires_in`. */
  function Granted(g: TokenGrant, now: int): (s: Session)
    ensures s.token == Some(g.accessToken) && s.validUntil == Some(now + g.expiresIn)
    ensures s.tokenType == Some(g.tokenType) && s.expiresIn == Some(g.expiresIn) && s.scope == Some(g.scope)
    ensures s.args == Some(TokenArgs(g.accessToken))
    ensures forall later :: TokenValid(s, later) <==> later < now + g.expiresIn
  {
    Session(Some(g.accessToken), Some(g.tokenType), Some(g.expiresIn), Some(now + g.expiresIn),
            Some(g.scope), Some(TokenArgs(g.accessToken)))
  }

  /** What `authenticate` does to the session: nothing while the token is
      valid; otherwise the fetched grant, or "Empty Response" with nothing
      written. */
  function Refresh(s: Session, now: int, grant: Option<TokenGrant>): (r: Result<Session>)
    ensures TokenValid(s, now) ==> r == Success(s)
    ensures !TokenValid(s, now) && grant.None? ==> r == Failure(EmptyResponse)
    ensures !TokenValid(s, now) && grant.Some? ==> r == Success(Granted(grant.value, now))
    ensures Coherent(s) && r.Success? ==> Coherent(r.value) && r.value.token.Some?
  {
    if TokenValid(s, now) then Success(s)
    else if grant.None? then Failure(EmptyResponse)
    else Success(Granted(grant.value, now))
  }

  /** Calling `authenticate` again at the same instant, against the same
      identity answer, changes nothing: a token with a positive lifetime is
      now valid, and one without is fetched to the same values again. */
  lemma RefreshIdempotent(s: Session, now: int, grant: Option<TokenGrant>)
    requires Refresh(s, now, grant).Success?
    ensures Refresh(Refresh(s, now, grant).value, now, grant) == Refresh(s, now, grant)
  {
  }

}
