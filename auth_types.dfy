/**
 * The entities the authentication service works with, and its collaborators.
 *
 * Password hashing (bcrypt) and token signing (the token service) are foreign
 * code: each is a record of functions, so that every property proved about the
 * service holds for whatever hashing and signing the deployment plugs in.
 */
module AuthTypes {
  import opened Wrappers

  /** The user store's identifier (a MongoDB ObjectId). */
  type UserId = nat

  /** A point in time, read from the clock when a token is signed or checked. */
  type Instant = nat

  /** A stored user record; `password` holds the bcrypt digest. */
  datatype User = User(
    id: UserId,
    userType: string,
    name: string,
    surname: string,
    email: string,
    password: string)

  /** The public representation of a user: every field but the password. */
  datatype UserDto = UserDto(
    id: UserId,
    userType: string,
    name: string,
    surname: string,
    email: string)

  function ToDto(u: User): UserDto {
    UserDto(u.id, u.userType, u.name, u.surname, u.email)
  }

  datatype TokenPair = TokenPair(accessToken: string, refreshToken: string)

  /** What register, login and refresh answer: both tokens and the public user. */
  datatype LoginResponse = LoginResponse(accessToken: string, refreshToken: string, user: UserDto)

  /** The errors the service raises (`ApiError` in the source). */
  datatype ApiError =
    | BadRequest(message: string)
    | Unauthorized
    | InternalServerError

  const AlreadyRegistered := "That contact is already registered"
  const IncorrectPassword := "Incorrect password"
  const IncorrectContact := "Incorrect contact"

  /**
   * bcrypt: `hash(password, salt)` with a salt from `genSalt`, and
   * `compare(password, digest)`.
   */
  datatype Hasher = Hasher(hash: (string, string) -> string, compare: (string, string) -> bool)

  /** A digest always verifies against the password it was made from, whatever the salt. */
  ghost predicate Sound(h: Hasher) {
    forall password, salt :: h.compare(password, h.hash(password, salt))
  }

  /**
   * The token service: signs a pair of tokens for a user's claims, and decodes
   * a refresh token into the id it was issued for (None when its signature
   * or expiry does not check out).
   */
  datatype TokenService = TokenService(
    createTokens: (UserDto, Instant) -> TokenPair,
    validateRefreshToken: (string, Instant) -> Option<UserId>)
}
