/**
 * The authentication service's operations, each as a function from the state
 * of the two stores it works over to its answer and the stores' new state.
 * The class in module Auth runs the same operations step by step and is
 * proved to agree with these functions.
 */
module AuthSpec {
  import opened Wrappers
  import opened AuthTypes

  /**
   * The user store (records by id, with the unique index on email) and the
   * refresh-token store (one record per user id). `nextId` stands for the
   * store's generator of fresh ObjectIds.
   */
  datatype Stores = Stores(
    users: map<UserId, User>,
    emails: map<string, UserId>,
    tokens: map<UserId, string>,
    nextId: UserId)

  const Empty: Stores := Stores(map[], map[], map[], 0)

  /**
   * Records are filed under their own id, ids are below the generator, the
   * email index and the records agree (so emails are unique). A
   * refresh-token record may name a user the store no longer holds.
   */
  ghost predicate Valid(s: Stores) {
    && (forall id :: id in s.users ==> s.users[id].id == id && id < s.nextId)
    && (forall e :: e in s.emails ==> s.emails[e] in s.users && s.users[s.emails[e]].email == e)
    && (forall id :: id in s.users ==> s.users[id].email in s.emails && s.emails[s.users[id].email] == id)
  }

  /** Every stored password is an output of the hasher, for some password and salt. */
  ghost predicate PasswordsHashed(s: Stores, h: Hasher) {
    forall id :: id in s.users ==> exists password, salt :: s.users[id].password == h.hash(password, salt)
  }

  /** An operation's answer (or error) and the stores after it. */
  datatype Outcome = Outcome(response: Result<LoginResponse, ApiError>, stores: Stores)

  // ---------------------------------------------------------------------
  // The user store: findOne({email}), findById, create

  function FindByEmail(s: Stores, email: string): (r: Option<User>)
    ensures Valid(s) ==> (r.Some? <==> exists id :: id in s.users && s.users[id].email == email)
    ensures Valid(s) && r.Some? ==> r.value.email == email && r.value.id in s.users && s.users[r.value.id] == r.value
  {
    if email in s.emails && s.emails[email] in s.users then Some(s.users[s.emails[email]]) else None
  }

  function FindById(s: Stores, id: UserId): (r: Option<User>)
    ensures r.Some? <==> id in s.users
    ensures r.Some? ==> r.value == s.users[id]
    ensures Valid(s) && r.Some? ==> r.value.id == id
  {
    if id in s.users then Some(s.users[id]) else None
  }

  /** Creates a record under a fresh id; the token store is untouched. */
  function CreateUser(s: Stores, userType: string, name: string, surname: string, email: string, password: string)
    : (r: (User, Stores))
    ensures r.0 == User(s.nextId, userType, name, surname, email, password)
    ensures Valid(s) ==> r.0.id !in s.users
    ensures r.1.users == s.users[r.0.id := r.0] && r.1.emails == s.emails[email := r.0.id]
    ensures r.1.nextId > r.0.id && r.1.tokens == s.tokens
    ensures Valid(s) && FindByEmail(s, email).None? ==> Valid(r.1) && FindByEmail(r.1, email) == Some(r.0)
  {
    var user := User(s.nextId, userType, name, surname, email, password);
    (user, Stores(s.users[user.id := user], s.emails[email := user.id], s.tokens, s.nextId + 1))
  }

  // ---------------------------------------------------------------------
  // The refresh-token store: saveToken (an upsert keyed by user id, an
  // assumption about the token service), findToken, removeToken

  function SaveToken(s: Stores, userId: UserId, refreshToken: string): (r: Stores)
    ensures userId in r.tokens && r.tokens[userId] == refreshToken
    ensures forall id :: id != userId ==> (id in r.tokens <==> id in s.tokens)
    ensures forall id :: id != userId && id in s.tokens ==> r.tokens[id] == s.tokens[id]
    ensures r.users == s.users && r.emails == s.emails && r.nextId == s.nextId
    ensures Valid(s) && userId in s.users ==> Valid(r)
  {
    s.(tokens := s.tokens[userId := refreshToken])
  }

  function FindToken(s: Stores, refreshToken: string): (found: bool)
    ensures found <==> exists id :: id in s.tokens && s.tokens[id] == refreshToken
  {
    refreshToken in s.tokens.Values
  }

  /** The answer carrying the token pair the token service signs for `dto` at `now`. */
  function IssuedResponse(ts: TokenService, dto: UserDto, now: Instant): LoginResponse {
    var pair := ts.createTokens(dto, now);
    LoginResponse(pair.accessToken, pair.refreshToken, dto)
  }

  // ---------------------------------------------------------------------
  // AuthService

  /** doesUserExist: whether some user is registered under `email`. */
  function DoesUserExist(s: Stores, email: string): (b: bool)
    ensures Valid(s) ==> (b <==> exists id :: id in s.users && s.users[id].email == email)
  {
    FindByEmail(s, email).Some?
  }

  /** hashPassword: the digest of `password` under the salt `genSalt` produced. */
  function HashPassword(h: Hasher, password: string, salt: string): (digest: string)
    ensures Sound(h) ==> h.compare(password, digest)
  {
    h.hash(password, salt)
  }

  /**
   * formUserLoginResponse: signs a token pair for the user's public claims,
   * saves its refresh token under the user's id and answers both tokens with
   * the public user. A null user (refresh's findById found nothing) makes the
   * DTO constructor throw inside the try block, which answers an internal error.
   */
  function FormUserLoginResponse(s: Stores, ts: TokenService, user: Option<User>, now: Instant): (o: Outcome)
    ensures o.response.Success? <==> user.Some?
    ensures user.None? ==> o == Outcome(Failure(InternalServerError), s)
    ensures user.Some? ==>
      && o.response.value == IssuedResponse(ts, ToDto(user.value), now)
      && o.stores == SaveToken(s, user.value.id, o.response.value.refreshToken)
  {
    match user
    case None => Outcome(Failure(InternalServerError), s)
    case Some(u) =>
      var response := IssuedResponse(ts, ToDto(u), now);
      Outcome(Success(response), SaveToken(s, u.id, response.refreshToken))
  }

  /**
   * register: refuses an email already on file; otherwise stores one new
   * user whose password field holds the hasher's digest of the password
   * under the salt, and logs it in.
   */
  function Register(
    s: Stores, h: Hasher, ts: TokenService,
    userType: string, name: string, surname: string, email: string, password: string,
    salt: string, now: Instant): (o: Outcome)
    ensures DoesUserExist(s, email) ==> o == Outcome(Failure(BadRequest(AlreadyRegistered)), s)
    ensures !DoesUserExist(s, email) ==> o.response.Success?
    ensures Valid(s) && o.response.Success? ==>
      var u := o.response.value.user;
      && u.id !in s.users
      && u == UserDto(u.id, userType, name, surname, email)
      && o.stores.users == s.users[u.id := User(u.id, userType, name, surname, email, h.hash(password, salt))]
      && o.stores.tokens == s.tokens[u.id := o.response.value.refreshToken]
      && o.response.value == IssuedResponse(ts, u, now)
    ensures Valid(s) ==> Valid(o.stores)
  {
    if DoesUserExist(s, email) then
      Outcome(Failure(BadRequest(AlreadyRegistered)), s)
    else
      var hashed := HashPassword(h, password, salt);
      var (user, created) := CreateUser(s, userType, name, surname, email, hashed);
      FormUserLoginResponse(created, ts, Some(user), now)
  }

  /**
   * login: an unknown email and a wrong password are refused with two
   * different messages; otherwise the user is logged in.
   */
  function Login(s: Stores, h: Hasher, ts: TokenService, email: string, password: string, now: Instant): (o: Outcome)
    ensures FindByEmail(s, email).None? ==> o == Outcome(Failure(BadRequest(IncorrectContact)), s)
    ensures FindByEmail(s, email).Some? && !h.compare(password, FindByEmail(s, email).value.password) ==>
      o == Outcome(Failure(BadRequest(IncorrectPassword)), s)
    ensures o.response.Success? <==>
      FindByEmail(s, email).Some? && h.compare(password, FindByEmail(s, email).value.password)
    ensures o.response.Success? ==>
      var u := FindByEmail(s, email).value;
      && o.response.value == IssuedResponse(ts, ToDto(u), now)
      && o.stores == SaveToken(s, u.id, o.response.value.refreshToken)
    ensures Valid(s) ==> Valid(o.stores)
  {
    match FindByEmail(s, email)
    case None => Outcome(Failure(BadRequest(IncorrectContact)), s)
    case Some(user) =>
      if h.compare(password, user.password) then FormUserLoginResponse(s, ts, Some(user), now)
      else Outcome(Failure(BadRequest(IncorrectPassword)), s)
  }

  /** logout: removes the refresh-token record(s) holding `refreshToken`; users are untouched. */
  function Logout(s: Stores, refreshToken: string): (r: Stores)
    ensures r.users == s.users && r.emails == s.emails && r.nextId == s.nextId
    ensures forall id :: id in r.tokens <==> id in s.tokens && s.tokens[id] != refreshToken
    ensures forall id :: id in r.tokens ==> r.tokens[id] == s.tokens[id]
    ensures !FindToken(r, refreshToken)
    ensures Valid(s) ==> Valid(r)
  {
    s.(tokens := map id | id in s.tokens && s.tokens[id] != refreshToken :: s.tokens[id])
  }

  /**
   * refresh: an empty token is refused before anything else; then the token
   * must decode and be on file (any record holding it, whoever it belongs
   * to); then the decoded user is looked up and logged in again.
   */
  function Refresh(s: Stores, ts: TokenService, refreshToken: string, now: Instant): (o: Outcome)
    ensures refreshToken == "" ==> o == Outcome(Failure(Unauthorized), s)
    ensures refreshToken != "" && !FindToken(s, refreshToken) ==> o == Outcome(Failure(Unauthorized), s)
    ensures refreshToken != "" && ts.validateRefreshToken(refreshToken, now).None? ==>
      o == Outcome(Failure(Unauthorized), s)
    ensures
      && refreshToken != ""
      && ts.validateRefreshToken(refreshToken, now).Some?
      && FindToken(s, refreshToken)
      && ts.validateRefreshToken(refreshToken, now).value !in s.users
      ==> o == Outcome(Failure(InternalServerError), s)
    ensures o.response.Failure? ==> o.stores == s
    ensures o.response.Success? <==>
      && refreshToken != ""
      && ts.validateRefreshToken(refreshToken, now).Some?
      && FindToken(s, refreshToken)
      && ts.validateRefreshToken(refreshToken, now).value in s.users
    ensures o.response.Success? ==>
      var id := ts.validateRefreshToken(refreshToken, now).value;
      && o.response.value == IssuedResponse(ts, ToDto(s.users[id]), now)
      && o.stores == SaveToken(s, o.response.value.user.id, o.response.value.refreshToken)
      && (Valid(s) ==> o.response.value.user.id == id)
    ensures Valid(s) ==> Valid(o.stores)
  {
    if refreshToken == "" then
      Outcome(Failure(Unauthorized), s)
    else
      var userData := ts.validateRefreshToken(refreshToken, now);
      var tokenFromDb := FindToken(s, refreshToken);
      if userData.None? || !tokenFromDb then
        Outcome(Failure(Unauthorized), s)
      else
        FormUserLoginResponse(s, ts, FindById(s, userData.value), now)
  }
}
