/** The password-management state machine: change the password of the
    caller, start a recovery by mailing a reset link, and reset a password
    with a single-use, expiring reset token. */
module PasswordManagement {
  import opened Common
  import opened Accounts

  /** A reset token is valid for 1000 hours from its creation. */
  const ResetTokenValidityHours: nat := 1000
  const SecondsPerHour: nat := 3600
  const ResetSubject := "Password Reset"
  const ResetLinkPrefix := "https://api/v1/auth/reset-password?token="

  /** Every reset token is bound to a stored user. */
  ghost predicate TokensBound(tokens: map<string, ResetToken>, users: map<string, User>) {
    forall key :: key in tokens ==> tokens[key].username in users
  }

  /** The user with the given password replaced by its encoding. */
  function WithPassword(user: User, encoder: PasswordEncoder, rawPassword: string): User {
    user.(password := encoder.encode(rawPassword))
  }

  class ManagePasswordService {
    const usuarioRepository: UserRepository
    const passwordResetTokenRepository: ResetTokenRepository
    const emailService: EmailService
    const passwordEncoder: PasswordEncoder
    const jwtService: JwtService

    ghost predicate Valid()
      reads this, usuarioRepository, passwordResetTokenRepository
    {
      && usuarioRepository.Valid()
      && passwordResetTokenRepository.Valid()
      && Sound(passwordEncoder)
      && TokensBound(passwordResetTokenRepository.tokens, usuarioRepository.users)
    }

    constructor (usuarioRepository: UserRepository, passwordResetTokenRepository: ResetTokenRepository,
                 emailService: EmailService, passwordEncoder: PasswordEncoder, jwtService: JwtService)
      requires usuarioRepository.Valid() && passwordResetTokenRepository.Valid() && Sound(passwordEncoder)
      requires TokensBound(passwordResetTokenRepository.tokens, usuarioRepository.users)
      ensures Valid()
      ensures this.usuarioRepository == usuarioRepository
      ensures this.passwordResetTokenRepository == passwordResetTokenRepository
      ensures this.emailService == emailService
      ensures this.passwordEncoder == passwordEncoder && this.jwtService == jwtService
    {
      this.usuarioRepository := usuarioRepository;
      this.passwordResetTokenRepository := passwordResetTokenRepository;
      this.emailService := emailService;
      this.passwordEncoder := passwordEncoder;
      this.jwtService := jwtService;
    }

    /** Changes the caller's password. The caller is the user named by the
        access token; the current password must match the stored hash. On
        success only that user's password changes, to the encoding of the
        new password, which from then on matches it. No failure changes
        anything, and reset tokens and mail are never touched. */
    method ChangePassword(jwt: string, request: PasswordChangeRequest) returns (r: Outcome<ServiceError>)
      requires Valid()
      modifies usuarioRepository
      ensures Valid()
      ensures jwtService.extractUserName(jwt).None? ==>
        r == Fail(TokenRejected) && usuarioRepository.users == old(usuarioRepository.users)
      ensures jwtService.extractUserName(jwt).Some? ==>
        var name := jwtService.extractUserName(jwt).value;
        if name !in old(usuarioRepository.users) then
          r == Fail(UserNotFound) && usuarioRepository.users == old(usuarioRepository.users)
        else if !passwordEncoder.matches(request.currentPassword, old(usuarioRepository.users)[name].password) then
          r == Fail(CurrentPasswordIncorrect) && usuarioRepository.users == old(usuarioRepository.users)
        else
          && r == Pass
          && usuarioRepository.users == old(usuarioRepository.users)[name :=
               WithPassword(old(usuarioRepository.users)[name], passwordEncoder, request.newPassword)]
          && passwordEncoder.matches(request.newPassword, usuarioRepository.users[name].password)
    {
      var username := jwtService.extractUserName(jwt);
      if username.None? {
        return Fail(TokenRejected);
      }
      if username.value !in usuarioRepository.users {
        return Fail(UserNotFound);
      }
      var user := usuarioRepository.users[username.value];
      if !passwordEncoder.matches(request.currentPassword, user.password) {
        return Fail(CurrentPasswordIncorrect);
      }
      user := user.(password := passwordEncoder.encode(request.newPassword));
      usuarioRepository.Update(user);
      r := Pass;
    }

    /** Starts a recovery. An email no user has changes nothing and sends
        nothing. Otherwise a reset token with the fresh key, bound to that
        user and expiring 1000 hours after `now`, is stored beside the
        existing ones, and exactly one mail carrying the reset link goes to
        the user's address. Users are never touched. */
    method InitiatePasswordRecovery(email: string, now: nat, freshToken: string)
      requires Valid()
      requires freshToken !in passwordResetTokenRepository.tokens
      modifies passwordResetTokenRepository, emailService
      ensures Valid()
      ensures usuarioRepository.FindByEmail(email).None? ==>
        && passwordResetTokenRepository.tokens == old(passwordResetTokenRepository.tokens)
        && emailService.outbox == old(emailService.outbox)
      ensures usuarioRepository.FindByEmail(email).Some? ==>
        var user := usuarioRepository.FindByEmail(email).value;
        && passwordResetTokenRepository.tokens == old(passwordResetTokenRepository.tokens)[freshToken :=
             ResetToken(freshToken, user.username, now + ResetTokenValidityHours * SecondsPerHour)]
        && emailService.outbox == old(emailService.outbox) + [Email(email, ResetSubject, ResetLinkPrefix + freshToken)]
    {
      var user := usuarioRepository.FindByEmail(email);
      if user.Some? {
        var resetToken := ResetToken(freshToken, user.value.username, now + ResetTokenValidityHours * SecondsPerHour);
        passwordResetTokenRepository.Save(resetToken);
        emailService.SendPasswordResetEmail(user.value.email, ResetSubject, ResetLinkPrefix + freshToken);
      }
    }

    /** Resets a password with a reset token. An unknown token, or one whose
        expiry lies strictly before `now`, fails and changes nothing (an
        expired token is kept). Otherwise the bound user's password becomes
        the encoding of the new one and the token is deleted. */
    method ResetPassword(token: string, newPassword: string, now: nat) returns (r: Outcome<ServiceError>)
      requires Valid()
      modifies usuarioRepository, passwordResetTokenRepository
      ensures Valid()
      ensures token !in old(passwordResetTokenRepository.tokens) ==>
        && r == Fail(InvalidToken)
        && usuarioRepository.users == old(usuarioRepository.users)
        && passwordResetTokenRepository.tokens == old(passwordResetTokenRepository.tokens)
      ensures token in old(passwordResetTokenRepository.tokens) && old(passwordResetTokenRepository.tokens)[token].expiry < now ==>
        && r == Fail(TokenExpired)
        && usuarioRepository.users == old(usuarioRepository.users)
        && passwordResetTokenRepository.tokens == old(passwordResetTokenRepository.tokens)
      ensures token in old(passwordResetTokenRepository.tokens) && now <= old(passwordResetTokenRepository.tokens)[token].expiry ==>
        var name := old(passwordResetTokenRepository.tokens)[token].username;
        && r == Pass
        && usuarioRepository.users == old(usuarioRepository.users)[name :=
             WithPassword(old(usuarioRepository.users)[name], passwordEncoder, newPassword)]
        && passwordEncoder.matches(newPassword, usuarioRepository.users[name].password)
        && passwordResetTokenRepository.tokens == old(passwordResetTokenRepository.tokens) - {token}
    {
      if token !in passwordResetTokenRepository.tokens {
        return Fail(InvalidToken);
      }
      var resetToken := passwordResetTokenRepository.tokens[token];
      if resetToken.expiry < now {
        return Fail(TokenExpired);
      }
      var user := usuarioRepository.users[resetToken.username];
      user := user.(password := passwordEncoder.encode(newPassword));
      usuarioRepository.Update(user);
      passwordResetTokenRepository.Delete(resetToken);
      r := Pass;
    }
  }

  /** A reset token is single-use: once a reset with it succeeds, every
      later reset with it fails as an invalid token, however much later. */
  method ResetTokenIsSingleUse(service: ManagePasswordService, token: string,
                               firstPassword: string, secondPassword: string, now: nat, later: nat)
    returns (first: Outcome<ServiceError>, second: Outcome<ServiceError>)
    requires service.Valid()
    modifies service.usuarioRepository, service.passwordResetTokenRepository
    ensures service.Valid()
    ensures first.Pass? ==> second == Fail(InvalidToken)
    ensures first == Fail(InvalidToken) ==> second == Fail(InvalidToken)
  {
    first := service.ResetPassword(token, firstPassword, now);
    second := service.ResetPassword(token, secondPassword, later);
  }

  /** Recovery does not revoke earlier reset tokens: after two recoveries
      for the same email both tokens are stored and both mails are sent. */
  method RecoveryKeepsEarlierTokens(service: ManagePasswordService, email: string, now: nat,
                                    firstToken: string, secondToken: string)
    requires service.Valid()
    requires firstToken != secondToken
    requires firstToken !in service.passwordResetTokenRepository.tokens
    requires secondToken !in service.passwordResetTokenRepository.tokens
    requires service.usuarioRepository.FindByEmail(email).Some?
    modifies service.passwordResetTokenRepository, service.emailService
    ensures service.Valid()
    ensures firstToken in service.passwordResetTokenRepository.tokens
    ensures secondToken in service.passwordResetTokenRepository.tokens
    ensures service.passwordResetTokenRepository.tokens[firstToken].username
         == service.passwordResetTokenRepository.tokens[secondToken].username
    ensures |service.emailService.outbox| == |old(service.emailService.outbox)| + 2
  {
    service.InitiatePasswordRecovery(email, now, firstToken);
    service.InitiatePasswordRecovery(email, now, secondToken);
  }
}
