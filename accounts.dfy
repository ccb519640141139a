/** The entities the two services work on, their abstract collaborators
    (token service, password encoder, authentication manager), the failures
    the services raise, and the stores: the user and reset-token
    repositories and the outgoing mail. */
module Accounts {
  import opened Common

  // ---------------------------------------------------------------------
  // Entities and requests

  /** The user roles. The enum's own file is not part of this model; its
      constants are taken to be USER and ADMIN. */
  datatype Role = USER | ADMIN

  function RoleName(role: Role): string {
    match role
    case USER => "USER"
    case ADMIN => "ADMIN"
  }

  /** Role.valueOf: the role whose constant is spelled exactly `name`, and
      none (the IllegalArgumentException) when no constant is. */
  function RoleValueOf(name: string): (r: Option<Role>)
    ensures r.Some? ==> RoleName(r.value) == name
    ensures r.None? ==> forall role: Role :: RoleName(role) != name
  {
    if name == "USER" then Some(USER)
    else if name == "ADMIN" then Some(ADMIN)
    else None
  }

  /** A stored user; the password field holds the encoded password. */
  datatype User = User(
    firstName: string,
    secondName: string,
    firstLastName: string,
    secondLastName: string,
    email: string,
    username: string,
    password: string,
    role: Role)

  datatype RegisterRequest = RegisterRequest(
    firstName: string,
    secondName: string,
    firstLastName: string,
    secondLastName: string,
    email: string,
    username: string,
    password: string,
    role: string)

  datatype AuthenticationRequest = AuthenticationRequest(username: string, password: string)

  datatype PasswordChangeRequest = PasswordChangeRequest(currentPassword: string, newPassword: string)

  /** The access token and refresh token handed back to the client. */
  datatype AuthenticationResponse = AuthenticationResponse(authenticationToken: string, refreshToken: string)

  /** A password-reset token: its random key, the user it is bound to (by
      username, the key of the user repository) and its expiry instant in
      seconds. */
  datatype ResetToken = ResetToken(token: string, username: string, expiry: nat)

  /** A mail handed to the mail service. */
  datatype Email = Email(to: string, subject: string, text: string)

  // ---------------------------------------------------------------------
  // Abstract collaborators

  /** The password encoder: a one-way encoding and the check of a raw
      password against an encoded one. */
  datatype PasswordEncoder = PasswordEncoder(encode: string -> string, matches: (string, string) -> bool)

  /** What every encoder guarantees: a raw password matches its own encoding. */
  ghost predicate Sound(encoder: PasswordEncoder) {
    forall raw :: encoder.matches(raw, encoder.encode(raw))
  }

  /** The JWT service. A None from a username extraction stands for the
      exception the JWT library throws on a token it cannot verify or parse. */
  datatype JwtService = JwtService(
    extractUserName: string -> Option<string>,
    usernameFromToken: string -> Option<string>,
    generateToken: User -> string,
    generateRefresh: (map<string, string>, User) -> string,
    validateToken: string -> bool)

  // ---------------------------------------------------------------------
  // Failures

  /** The exceptions the services throw, one constructor per throw site. */
  datatype ServiceError =
    | TokenRejected              // the JWT library rejects the token
    | UserNotFound               // UsernameNotFoundException
    | CurrentPasswordIncorrect   // BadCredentialsException
    | InvalidToken               // IllegalArgumentException
    | TokenExpired               // IllegalArgumentException
    | BadCredentials             // BadCredentialsException from the authentication manager
    | InvalidUsernameOrPassword  // IllegalArgumentException
    | InvalidRefreshToken        // IllegalArgumentException
    | InvalidRole                // IllegalArgumentException from Role.valueOf
    | DuplicateUser              // DataIntegrityViolationException from the unique constraints
  {
    /** The message the service itself writes, where it writes one. */
    function Message(): Option<string> {
      match this
      case UserNotFound => Some("User not found")
      case CurrentPasswordIncorrect => Some("Current password is incorrect")
      case InvalidToken => Some("Invalid token")
      case TokenExpired => Some("Token expired")
      case InvalidUsernameOrPassword => Some("Invalid username or password")
      case InvalidRefreshToken => Some("Invalid refresh token")
      case _ => None
    }
  }

  // ---------------------------------------------------------------------
  // Stores

  /** The user table, keyed by username; username and email are unique. */
  class UserRepository {
    var users: map<string, User>

    ghost predicate Valid()
      reads this
    {
      && (forall name :: name in users ==> users[name].username == name)
      && (forall a, b :: a in users && b in users && users[a].email == users[b].email ==> a == b)
    }

    constructor ()
      ensures Valid() && users == map[]
    {
      users := map[];
    }

    /** Some stored user already has this email. */
    predicate EmailTaken(email: string)
      reads this
    {
      exists name | name in users :: users[name].email == email
    }

    /** The user with this email, if any. */
    function FindByEmail(email: string): (r: Option<User>)
      reads this
      requires Valid()
      ensures r.Some? ==> r.value.username in users && users[r.value.username] == r.value && r.value.email == email
      ensures r.None? ==> forall name :: name in users ==> users[name].email != email
    {
      if EmailTaken(email) then
        var name :| name in users && users[name].email == email;
        Some(users[name])
      else None
    }

    /** Saves a new user; the unique constraints reject a user whose
        username or email is already stored. */
    method Insert(user: User) returns (saved: bool)
      requires Valid()
      modifies this
      ensures Valid()
      ensures saved <==> user.username !in old(users) && !old(EmailTaken(user.email))
      ensures users == if saved then old(users)[user.username := user] else old(users)
    {
      saved := user.username !in users && !EmailTaken(user.email);
      if saved {
        users := users[user.username := user];
      }
    }

    /** Saves changes to a stored user whose username and email are kept. */
    method Update(user: User)
      requires Valid()
      requires user.username in users && users[user.username].email == user.email
      modifies this
      ensures Valid()
      ensures users == old(users)[user.username := user]
    {
      users := users[user.username := user];
    }
  }

  /** The reset-token table, keyed by the token string. */
  class ResetTokenRepository {
    var tokens: map<string, ResetToken>

    ghost predicate Valid()
      reads this
    {
      forall key :: key in tokens ==> tokens[key].token == key
    }

    constructor ()
      ensures Valid() && tokens == map[]
    {
      tokens := map[];
    }

    method Save(resetToken: ResetToken)
      requires Valid()
      requires resetToken.token !in tokens
      modifies this
      ensures Valid()
      ensures tokens == old(tokens)[resetToken.token := resetToken]
    {
      tokens := tokens[resetToken.token := resetToken];
    }

    method Delete(resetToken: ResetToken)
      requires Valid()
      modifies this
      ensures Valid()
      ensures tokens == old(tokens) - {resetToken.token}
    {
      tokens := tokens - {resetToken.token};
    }
  }

  /** The mail service; delivery is recorded as an outbox of sent mails. */
  class EmailService {
    var outbox: seq<Email>

    constructor ()
      ensures outbox == []
    {
      outbox := [];
    }

    method SendPasswordResetEmail(to: string, subject: string, text: string)
      modifies this
      ensures outbox == old(outbox) + [Email(to, subject, text)]
    {
      outbox := outbox + [Email(to, subject, text)];
    }
  }
}
