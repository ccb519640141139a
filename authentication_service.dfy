/** Registration, login, token refresh and token validation over the user
    repository and the abstract JWT service. */
module Authentication {
  import opened Common
  import opened Accounts

  class AuthenticationService {
    const usuarioRepository: UserRepository
    const passwordEncoder: PasswordEncoder
    const jwtService: JwtService
    /** The authentication manager's verdict on a username/password pair;
        false stands for the BadCredentialsException it throws. */
    const authenticationManager: (string, string) -> bool

    ghost predicate Valid()
      reads this, usuarioRepository
    {
      usuarioRepository.Valid()
    }

    constructor (usuarioRepository: UserRepository, passwordEncoder: PasswordEncoder,
                 jwtService: JwtService, authenticationManager: (string, string) -> bool)
      ensures this.usuarioRepository == usuarioRepository && this.passwordEncoder == passwordEncoder
      ensures this.jwtService == jwtService && this.authenticationManager == authenticationManager
    {
      this.usuarioRepository := usuarioRepository;
      this.passwordEncoder := passwordEncoder;
      this.jwtService := jwtService;
      this.authenticationManager := authenticationManager;
    }

    /** The token pair issued for a user: an access token and a refresh
        token generated with no extra claims. */
    function IssuedFor(user: User): AuthenticationResponse {
      AuthenticationResponse(jwtService.generateToken(user), jwtService.generateRefresh(map[], user))
    }

    /** Builds the user from the request with the encoded password, saves it,
        and issues both tokens for it. A role name that is no Role fails
        before anything is saved; the store's unique constraints reject a
        taken username or email. On success exactly one user is added. */
    method Register(request: RegisterRequest) returns (r: Result<AuthenticationResponse, ServiceError>)
      requires Valid()
      modifies usuarioRepository
      ensures Valid()
      ensures RoleValueOf(request.role).None? ==> r == Err(InvalidRole)
      ensures RoleValueOf(request.role).Some? ==>
        (r.Ok? <==> request.username !in old(usuarioRepository.users) && !old(usuarioRepository.EmailTaken(request.email)))
      ensures RoleValueOf(request.role).Some? && r.Err? ==> r == Err(DuplicateUser)
      ensures r.Err? ==> usuarioRepository.users == old(usuarioRepository.users)
      ensures r.Ok? ==>
        && usuarioRepository.users.Keys == old(usuarioRepository.users).Keys + {request.username}
        && request.username !in old(usuarioRepository.users)
        && (forall name :: name in old(usuarioRepository.users) ==>
              usuarioRepository.users[name] == old(usuarioRepository.users)[name])
      ensures r.Ok? ==>
        var user := usuarioRepository.users[request.username];
        && user.firstName == request.firstName && user.secondName == request.secondName
        && user.firstLastName == request.firstLastName && user.secondLastName == request.secondLastName
        && user.email == request.email && user.username == request.username
        && user.password == passwordEncoder.encode(request.password)
        && RoleName(user.role) == request.role
        && r.value == IssuedFor(user)
    {
      var password := passwordEncoder.encode(request.password);
      var role := RoleValueOf(request.role);
      if role.None? {
        return Err(InvalidRole);
      }
      var user := User(request.firstName, request.secondName, request.firstLastName, request.secondLastName,
                       request.email, request.username, password, role.value);
      var saved := usuarioRepository.Insert(user);
      if !saved {
        return Err(DuplicateUser);
      }
      var jwtToken := jwtService.generateToken(user);
      var refreshToken := jwtService.generateRefresh(map[], user);
      r := Ok(AuthenticationResponse(jwtToken, refreshToken));
    }

    /** Lets the authentication manager check the pair, then issues both
        tokens for the stored user; changes nothing. */
    method Authenticate(request: AuthenticationRequest) returns (r: Result<AuthenticationResponse, ServiceError>)
      ensures !authenticationManager(request.username, request.password) ==> r == Err(BadCredentials)
      ensures authenticationManager(request.username, request.password) && request.username !in usuarioRepository.users
              ==> r == Err(InvalidUsernameOrPassword)
      ensures r.Ok? <==>
              authenticationManager(request.username, request.password) && request.username in usuarioRepository.users
      ensures r.Ok? ==> r.value == IssuedFor(usuarioRepository.users[request.username])
    {
      if !authenticationManager(request.username, request.password) {
        return Err(BadCredentials);
      }
      if request.username !in usuarioRepository.users {
        return Err(InvalidUsernameOrPassword);
      }
      var user := usuarioRepository.users[request.username];
      var jwtToken := jwtService.generateToken(user);
      var refreshToken := jwtService.generateRefresh(map[], user);
      r := Ok(AuthenticationResponse(jwtToken, refreshToken));
    }

    /** Issues a fresh token pair for the user the refresh token names;
        changes nothing. */
    method RefreshToken(refreshToken: string) returns (r: Result<AuthenticationResponse, ServiceError>)
      ensures jwtService.usernameFromToken(refreshToken).None? ==> r == Err(TokenRejected)
      ensures jwtService.usernameFromToken(refreshToken).Some? && jwtService.usernameFromToken(refreshToken).value !in usuarioRepository.users
              ==> r == Err(InvalidRefreshToken)
      ensures r.Ok? <==> jwtService.usernameFromToken(refreshToken).Some? &&
                         jwtService.usernameFromToken(refreshToken).value in usuarioRepository.users
      ensures r.Ok? ==> r.value == IssuedFor(usuarioRepository.users[jwtService.usernameFromToken(refreshToken).value])
    {
      var username := jwtService.usernameFromToken(refreshToken);
      if username.None? {
        return Err(TokenRejected);
      }
      if username.value !in usuarioRepository.users {
        return Err(InvalidRefreshToken);
      }
      var user := usuarioRepository.users[username.value];
      var jwtToken := jwtService.generateToken(user);
      var newRefreshToken := jwtService.generateRefresh(map[], user);
      r := Ok(AuthenticationResponse(jwtToken, newRefreshToken));
    }

    /** The token service's verdict, unchanged. */
    method ValidateToken(token: string) returns (valid: bool)
      ensures valid == jwtService.validateToken(token)
    {
      valid := jwtService.validateToken(token);
    }
  }
}
