/**
 * AuthService as the source runs it: each public operation is a short chain
 * of guards followed by writes to the user store and the refresh-token store,
 * which are this object's map-valued fields. Every method is proved to leave
 * the stores exactly as the matching function of AuthSpec says, so the
 * properties proved there hold of these methods.
 */
module Auth {
  import opened Wrappers
  import opened AuthTypes
  import AuthSpec

  class AuthService {
    const hasher: Hasher
    const tokenService: TokenService

    // the user store: records by id, the unique email index, the id generator
    var users: map<UserId, User>
    var emails: map<string, UserId>
    var nextId: UserId
    // the refresh-token store: one record per user id
    var tokens: map<UserId, string>

    /** The stores as a value. */
    function State(): AuthSpec.Stores
      reads this
    {
      AuthSpec.Stores(users, emails, tokens, nextId)
    }

    ghost predicate Valid()
      reads this
    {
      AuthSpec.Valid(State())
    }

    /** The service over whatever the database already holds. */
    constructor (hasher: Hasher, tokenService: TokenService, stores: AuthSpec.Stores)
      requires AuthSpec.Valid(stores)
      ensures this.hasher == hasher && this.tokenService == tokenService
      ensures State() == stores && Valid()
    {
      this.hasher := hasher;
      this.tokenService := tokenService;
      users, emails, nextId, tokens := stores.users, stores.emails, stores.nextId, stores.tokens;
    }

    /** UserModel.create: files a new record under a fresh id. */
    method CreateUser(userType: string, name: string, surname: string, email: string, password: string)
      returns (user: User)
      modifies this
      ensures (user, State()) == AuthSpec.CreateUser(old(State()), userType, name, surname, email, password)
    {
      user := User(nextId, userType, name, surname, email, password);
      users := users[user.id := user];
      emails := emails[email := user.id];
      nextId := nextId + 1;
    }

    /** tokenService.saveToken: upserts the record of `userId`. */
    method SaveToken(userId: UserId, refreshToken: string)
      modifies this`tokens
      ensures State() == AuthSpec.SaveToken(old(State()), userId, refreshToken)
    {
      tokens := tokens[userId := refreshToken];
    }

    /** tokenService.findToken: whether some record holds `refreshToken`. */
    method FindToken(refreshToken: string) returns (found: bool)
      ensures found <==> exists id :: id in tokens && tokens[id] == refreshToken
    {
      found := refreshToken in tokens.Values;
    }

    /** tokenService.removeToken: drops every record holding `refreshToken`. */
    method RemoveToken(refreshToken: string)
      modifies this`tokens
      ensures State() == AuthSpec.Logout(old(State()), refreshToken)
    {
      tokens := map id | id in tokens && tokens[id] != refreshToken :: tokens[id];
    }

    method DoesUserExist(email: string) returns (found: bool)
      requires Valid()
      ensures found <==> exists id :: id in users && users[id].email == email
    {
      var existingUser := AuthSpec.FindByEmail(State(), email);
      found := existingUser.Some?;
    }

    method HashPassword(password: string, salt: string) returns (digest: string)
      ensures digest == AuthSpec.HashPassword(hasher, password, salt)
      ensures Sound(hasher) ==> hasher.compare(password, digest)
    {
      digest := hasher.hash(password, salt);
    }

    method FormUserLoginResponse(user: Option<User>, now: Instant) returns (r: Result<LoginResponse, ApiError>)
      modifies this`tokens
      ensures AuthSpec.Outcome(r, State()) == AuthSpec.FormUserLoginResponse(old(State()), tokenService, user, now)
    {
      if user.None? {
        return Failure(InternalServerError);
      }
      var userDto := ToDto(user.value);
      var pair := tokenService.createTokens(userDto, now);
      SaveToken(userDto.id, pair.refreshToken);
      r := Success(LoginResponse(pair.accessToken, pair.refreshToken, userDto));
    }

    method Register(
      userType: string, name: string, surname: string, email: string, password: string,
      salt: string, now: Instant) returns (r: Result<LoginResponse, ApiError>)
      requires Valid()
      modifies this
      ensures Valid()
      ensures AuthSpec.Outcome(r, State()) ==
              AuthSpec.Register(old(State()), hasher, tokenService, userType, name, surname, email, password, salt, now)
    {
      var taken := DoesUserExist(email);
      if taken {
        return Failure(BadRequest(AlreadyRegistered));
      }
      var hashedPassword := HashPassword(password, salt);
      var user := CreateUser(userType, name, surname, email, hashedPassword);
      r := FormUserLoginResponse(Some(user), now);
    }

    method Login(email: string, password: string, now: Instant) returns (r: Result<LoginResponse, ApiError>)
      requires Valid()
      modifies this`tokens
      ensures Valid()
      ensures AuthSpec.Outcome(r, State()) == AuthSpec.Login(old(State()), hasher, tokenService, email, password, now)
    {
      var user := AuthSpec.FindByEmail(State(), email);
      if user.Some? {
        var auth := hasher.compare(password, user.value.password);
        if auth {
          r := FormUserLoginResponse(user, now);
          return;
        }
        return Failure(BadRequest(IncorrectPassword));
      }
      return Failure(BadRequest(IncorrectContact));
    }

    method Logout(refreshToken: string)
      requires Valid()
      modifies this`tokens
      ensures Valid()
      ensures State() == AuthSpec.Logout(old(State()), refreshToken)
    {
      RemoveToken(refreshToken);
    }

    method Refresh(refreshToken: string, now: Instant) returns (r: Result<LoginResponse, ApiError>)
      requires Valid()
      modifies this`tokens
      ensures Valid()
      ensures AuthSpec.Outcome(r, State()) == AuthSpec.Refresh(old(State()), tokenService, refreshToken, now)
    {
      if refreshToken == "" {
        return Failure(Unauthorized);
      }
      var userData := tokenService.validateRefreshToken(refreshToken, now);
      var tokenFromDb := FindToken(refreshToken);
      if userData.None? || !tokenFromDb {
        return Failure(Unauthorized);
      }
      var user := AuthSpec.FindById(State(), userData.value);
      r := FormUserLoginResponse(user, now);
    }
  }
}
