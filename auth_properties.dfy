/**
 * Properties that relate several operations of the authentication service:
 * registering then logging in, refresh-token rotation, logging out, and the
 * invariants every sequence of requests keeps.
 */
module AuthProperties {
  import opened Wrappers
  import opened AuthTypes
  import opened AuthSpec

  /** With a sound hasher, the credentials a user registers with log that user in. */
  lemma RegisterThenLogin(
    s: Stores, h: Hasher, ts: TokenService,
    userType: string, name: string, surname: string, email: string, password: string,
    salt: string, now: Instant, later: Instant)
    requires Valid(s) && Sound(h)
    requires Register(s, h, ts, userType, name, surname, email, password, salt, now).response.Success?
    ensures
      var registered := Register(s, h, ts, userType, name, surname, email, password, salt, now);
      var login := Login(registered.stores, h, ts, email, password, later);
      && login.response.Success?
      && login.response.value.user == registered.response.value.user
  {
  }

  /** A password the fresh digest does not verify is refused as an incorrect password. */
  lemma RegisterThenWrongPassword(
    s: Stores, h: Hasher, ts: TokenService,
    userType: string, name: string, surname: string, email: string, password: string,
    salt: string, now: Instant, attempt: string, later: Instant)
    requires Valid(s)
    requires Register(s, h, ts, userType, name, surname, email, password, salt, now).response.Success?
    requires !h.compare(attempt, h.hash(password, salt))
    ensures
      var registered := Register(s, h, ts, userType, name, surname, email, password, salt, now);
      Login(registered.stores, h, ts, email, attempt, later) ==
        Outcome(Failure(BadRequest(IncorrectPassword)), registered.stores)
  {
  }

  /**
   * Every refresh token the service signs decodes to the id it was signed
   * for throughout its lifetime `ttl` (after that it may be refused).
   */
  ghost predicate RoundTripsWithin(ts: TokenService, ttl: nat) {
    forall dto, issued: Instant, later: Instant :: issued <= later < issued + ttl ==>
      ts.validateRefreshToken(ts.createTokens(dto, issued).refreshToken, later) == Some(dto.id)
  }

  /** Within its lifetime, the refresh token a registration answers with refreshes the same user's session. */
  lemma RegisterThenRefresh(
    s: Stores, h: Hasher, ts: TokenService,
    userType: string, name: string, surname: string, email: string, password: string,
    salt: string, now: Instant, later: Instant, ttl: nat)
    requires Valid(s) && RoundTripsWithin(ts, ttl) && now <= later < now + ttl
    requires Register(s, h, ts, userType, name, surname, email, password, salt, now).response.Success?
    requires Register(s, h, ts, userType, name, surname, email, password, salt, now).response.value.refreshToken != ""
    ensures
      var registered := Register(s, h, ts, userType, name, surname, email, password, salt, now);
      var refreshed := Refresh(registered.stores, ts, registered.response.value.refreshToken, later);
      && refreshed.response.Success?
      && refreshed.response.value.user == registered.response.value.user
  {
  }

  /** Within its lifetime, the refresh token a login answers with refreshes the same user's session. */
  lemma LoginThenRefresh(
    s: Stores, h: Hasher, ts: TokenService, email: string, password: string, now: Instant, later: Instant,
    ttl: nat)
    requires Valid(s) && RoundTripsWithin(ts, ttl) && now <= later < now + ttl
    requires Login(s, h, ts, email, password, now).response.Success?
    requires Login(s, h, ts, email, password, now).response.value.refreshToken != ""
    ensures
      var login := Login(s, h, ts, email, password, now);
      var refreshed := Refresh(login.stores, ts, login.response.value.refreshToken, later);
      && refreshed.response.Success?
      && refreshed.response.value.user == login.response.value.user
  {
  }

  /**
   * Rotation: once a refresh has replaced the token with a different one, the
   * old token is refused, provided no other user's record held it too.
   */
  lemma RefreshRotates(s: Stores, ts: TokenService, refreshToken: string, now: Instant, later: Instant)
    requires Valid(s)
    requires Refresh(s, ts, refreshToken, now).response.Success?
    requires Refresh(s, ts, refreshToken, now).response.value.refreshToken != refreshToken
    requires forall id :: id in s.tokens && s.tokens[id] == refreshToken ==>
      id == ts.validateRefreshToken(refreshToken, now).value
    ensures
      var rotated := Refresh(s, ts, refreshToken, now).stores;
      Refresh(rotated, ts, refreshToken, later) == Outcome(Failure(Unauthorized), rotated)
  {
  }

  /**
   * refresh as written accepts a token that is on file under ANOTHER user's
   * record: it logs in the token's subject and leaves that record in place.
   */
  lemma RefreshIgnoresRecordOwner(s: Stores, ts: TokenService, refreshToken: string, now: Instant, owner: UserId)
    requires Valid(s)
    requires refreshToken != ""
    requires ts.validateRefreshToken(refreshToken, now).Some?
    requires ts.validateRefreshToken(refreshToken, now).value in s.users
    requires owner in s.tokens && s.tokens[owner] == refreshToken
    requires owner != ts.validateRefreshToken(refreshToken, now).value
    ensures
      var o := Refresh(s, ts, refreshToken, now);
      && o.response.Success?
      && o.response.value.user.id == ts.validateRefreshToken(refreshToken, now).value
      && owner in o.stores.tokens && o.stores.tokens[owner] == refreshToken
  {
  }

  /** Logging out twice leaves the stores as logging out once. */
  lemma LogoutIdempotent(s: Stores, refreshToken: string)
    ensures Logout(Logout(s, refreshToken), refreshToken) == Logout(s, refreshToken)
  {
  }

  /** After logout the token can no longer be refreshed. */
  lemma LogoutEndsSession(s: Stores, ts: TokenService, refreshToken: string, now: Instant)
    ensures Refresh(Logout(s, refreshToken), ts, refreshToken, now).response == Failure(Unauthorized)
  {
  }

  // ---------------------------------------------------------------------
  // Sequences of requests

  /** One call into the service, as the request-handling layer makes it. */
  datatype Request =
    | RegisterRequest(userType: string, name: string, surname: string, email: string, password: string,
                      salt: string, now: Instant)
    | LoginRequest(email: string, password: string, now: Instant)
    | LogoutRequest(refreshToken: string)
    | RefreshRequest(refreshToken: string, now: Instant)

  function Step(s: Stores, h: Hasher, ts: TokenService, req: Request): Stores {
    match req
    case RegisterRequest(userType, name, surname, email, password, salt, now) =>
      Register(s, h, ts, userType, name, surname, email, password, salt, now).stores
    case LoginRequest(email, password, now) => Login(s, h, ts, email, password, now).stores
    case LogoutRequest(refreshToken) => Logout(s, refreshToken)
    case RefreshRequest(refreshToken, now) => Refresh(s, ts, refreshToken, now).stores
  }

  function Run(s: Stores, h: Hasher, ts: TokenService, requests: seq<Request>): Stores
    decreases |requests|
  {
    if requests == [] then s else Run(Step(s, h, ts, requests[0]), h, ts, requests[1..])
  }

  /** Every refresh-token record holds a token the token service issued to that record's user. */
  ghost predicate TokensIssuedToOwners(s: Stores, ts: TokenService) {
    forall id :: id in s.tokens ==>
      id in s.users && exists t :: s.tokens[id] == ts.createTokens(ToDto(s.users[id]), t).refreshToken
  }

  ghost predicate Invariant(s: Stores, h: Hasher, ts: TokenService) {
    Valid(s) && PasswordsHashed(s, h) && TokensIssuedToOwners(s, ts)
  }

  /** Any single register, login, logout or refresh keeps the invariant. */
  lemma StepKeepsInvariant(s: Stores, h: Hasher, ts: TokenService, req: Request)
    requires Invariant(s, h, ts)
    ensures Invariant(Step(s, h, ts, req), h, ts)
  {
    match req
    case RegisterRequest(userType, name, surname, email, password, salt, now) =>
      var o := Register(s, h, ts, userType, name, surname, email, password, salt, now);
      assert Valid(o.stores);
    case LoginRequest(email, password, now) =>
      var o := Login(s, h, ts, email, password, now);
      assert Valid(o.stores);
    case LogoutRequest(refreshToken) =>
    case RefreshRequest(refreshToken, now) =>
      var o := Refresh(s, ts, refreshToken, now);
      assert Valid(o.stores);
  }

  lemma {:induction false} RunKeepsInvariant(s: Stores, h: Hasher, ts: TokenService, requests: seq<Request>)
    requires Invariant(s, h, ts)
    ensures Invariant(Run(s, h, ts, requests), h, ts)
    decreases |requests|
  {
    if requests != [] {
      StepKeepsInvariant(s, h, ts, requests[0]);
      RunKeepsInvariant(Step(s, h, ts, requests[0]), h, ts, requests[1..]);
    }
  }

  /**
   * In every state the service can reach from empty stores, emails are
   * unique, every stored password is an output of the hasher, and every
   * refresh-token record holds a token issued to its owner. (That a user has
   * at most one record comes from the upsert keyed by user id, not from
   * this lemma.)
   */
  lemma ReachableStoresKeepInvariant(h: Hasher, ts: TokenService, requests: seq<Request>)
    ensures Invariant(Run(Empty, h, ts, requests), h, ts)
  {
    RunKeepsInvariant(Empty, h, ts, requests);
  }
}
