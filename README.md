# JWT authentication service: password management, authentication and error responses

A Dafny model of the core of a Spring Boot service that registers users,
logs them in with JSON Web Tokens and manages their passwords, together with
the layer that turns exceptions into JSON error responses.

- **Password management** (`PasswordManagement`, from `ManagePasswordService`):
  a class over the user repository, the reset-token repository and the mail
  service. Changing a password checks the current one against the stored hash;
  starting a recovery for a known email stores a reset token that expires 1000
  hours later and mails the reset link, and does nothing for an unknown email;
  resetting a password consumes the token, so each token works once.
- **Authentication** (`Authentication`, from `AuthenticationService`): register
  saves exactly one user and issues an access and a refresh token for it;
  authenticate and refresh only read the store; validateToken passes the token
  service's verdict through.
- **Stores and collaborators** (`Accounts`): the user repository (keyed by
  username, with unique usernames and emails as the database's unique
  constraints), the reset-token repository (keyed by token), the mail service
  as an outbox, the JWT service, the password encoder and the authentication
  manager as abstract function values, and the failures the services throw.
- **Error responses** (`GlobalExceptionHandler`, `ApiResponseBuilder`,
  `ApiResponses`): the fixed status, type and title of each exception handler,
  the per-field merge of validation errors, the last-wins fill of constraint
  violations, the classification of unique-constraint conflicts, and the
  mutable `ApiError` whose details map is created by the first `withDetail`.

Environment inputs are parameters: the clock is a `now: nat` (seconds), the
random reset-token key is a `freshToken` argument that must not already be a
key, and the encoder is any pair `encode`/`matches` with
`matches(raw, encode(raw))` (the ghost predicate `Accounts.Sound`).

Behaviour of the code worth noting, which the model keeps:

- A reset token counts as expired only when its expiry is strictly before now
  (`isBefore`); a token expiring exactly now is accepted.
- The token window is the hard-coded 1000 hours.
- `refreshToken`'s missing user fails with the message "Invalid refresh token",
  not a distinct user-not-found kind.
- `authenticate` fails differently for a rejected pair (the authentication
  manager's bad-credentials failure, 401) and for a pair accepted by the manager
  whose username is not stored ("Invalid username or password", which reaches
  the generic 500 handler).
- `resetPassword` looks the token up and then deletes it; there is no atomic
  consume.
- Issuing a new reset token leaves earlier ones live
  (`PasswordManagement.RecoveryKeepsEarlierTokens`).

## Model

| member | source | states |
|---|---|---|
| `PasswordManagement.ManagePasswordService.constructor` | src/main/java/com/demo/autenticacion/autenticacionJWT/services/ManagePasswordService.java:26-32 | the service holds exactly the given repositories, mail service, encoder and token service, and starts in a valid state |
| `PasswordManagement.ManagePasswordService.ChangePassword` | src/main/java/com/demo/autenticacion/autenticacionJWT/services/ManagePasswordService.java:35-46 | an unparseable token fails and changes nothing; a username with no user fails "User not found" and changes nothing; a current password that does not match the stored hash fails "Current password is incorrect" and changes nothing; otherwise only that user's password becomes encode(newPassword), which then matches newPassword; reset tokens and mail are untouched; the store invariants are kept |
| `PasswordManagement.ManagePasswordService.InitiatePasswordRecovery` | src/main/java/com/demo/autenticacion/autenticacionJWT/services/ManagePasswordService.java:48-69 | an email no user has adds no reset token and sends no mail; a known email adds exactly one token (the fresh key, bound to that user, expiring now + 1000 hours) and appends exactly one mail to that address whose text is the reset URL followed by the key; users are untouched; invariants kept |
| `PasswordManagement.ManagePasswordService.ResetPassword` | src/main/java/com/demo/autenticacion/autenticacionJWT/services/ManagePasswordService.java:71-85 | an unknown token fails "Invalid token" and changes nothing; a token whose expiry is strictly before now fails "Token expired", keeps the token and changes no password; otherwise the bound user's password becomes encode(newPassword) (which then matches it), no other user changes, and the token is deleted |
| `PasswordManagement.ResetTokenIsSingleUse` | src/main/java/com/demo/autenticacion/autenticacionJWT/services/ManagePasswordService.java:79-84 | after a successful reset, a second reset with the same token fails "Invalid token", at any later time |
| `PasswordManagement.RecoveryKeepsEarlierTokens` | src/main/java/com/demo/autenticacion/autenticacionJWT/services/ManagePasswordService.java:52-67 | two recoveries for one email leave two live tokens bound to the same user and send two mails |
| `Authentication.AuthenticationService.constructor` | src/main/java/com/demo/autenticacion/autenticacionJWT/services/AuthenticationService.java:27-32 | the service holds exactly the given repository, encoder, token service and authentication manager |
| `Authentication.AuthenticationService.Register` | src/main/java/com/demo/autenticacion/autenticacionJWT/services/AuthenticationService.java:35-53 | a role name that is no Role fails before anything is saved; a taken username or email fails as a duplicate and saves nothing; otherwise exactly one user is added, its fields copied from the request, its password encode(request.password), its role the one named; all other users unchanged; the result is the access token and the empty-claims refresh token generated for the saved user |
| `Authentication.AuthenticationService.Authenticate` | src/main/java/com/demo/autenticacion/autenticacionJWT/services/AuthenticationService.java:55-66 | a pair the authentication manager rejects issues no tokens (bad credentials); an accepted pair whose username has no user fails "Invalid username or password"; it succeeds exactly when the manager accepts and the user is stored, with the token pair generated for that user; it modifies nothing |
| `Authentication.AuthenticationService.RefreshToken` | src/main/java/com/demo/autenticacion/autenticacionJWT/services/AuthenticationService.java:68-77 | the user is looked up by the username read from the refresh token; an unreadable token fails, an absent user fails "Invalid refresh token"; otherwise a new pair for that user; it modifies nothing |
| `Authentication.AuthenticationService.ValidateToken` | src/main/java/com/demo/autenticacion/autenticacionJWT/services/AuthenticationService.java:79-81 | the result is exactly the token service's verdict |
| `Accounts.RoleValueOf` | src/main/java/com/demo/autenticacion/autenticacionJWT/services/AuthenticationService.java:44 | yields the role whose name is exactly the given string, and nothing when no role has that name |
| `GlobalExceptionHandler.HandlerOf` | src/main/java/com/demo/autenticacion/autenticacionJWT/exceptions/GlobalExceptionHandler.java:46-210 | the handler a service failure thrown out of a controller reaches: 401 exactly for the two bad-credentials failures, 409 exactly for the unique-constraint conflict, 500 for every other failure (the refresh endpoint catches its own failures and answers a bodiless 500) |
| `Accounts.UserRepository.FindByEmail` | src/main/java/com/demo/autenticacion/autenticacionJWT/services/ManagePasswordService.java:49-50 | yields a stored user with that email (unique by the store invariant), or nothing when no stored user has it |
| `Accounts.UserRepository.Insert` | src/main/java/com/demo/autenticacion/autenticacionJWT/services/AuthenticationService.java:46 | saves the user exactly when neither its username nor its email is already stored; otherwise the store is unchanged; invariants kept |
| `Accounts.UserRepository.Update` | src/main/java/com/demo/autenticacion/autenticacionJWT/services/ManagePasswordService.java:44-45 | replaces the stored record of that username and nothing else; invariants kept |
| `Accounts.ResetTokenRepository.Save` | src/main/java/com/demo/autenticacion/autenticacionJWT/services/ManagePasswordService.java:60 | adds the token under its key and keeps every other token |
| `Accounts.ResetTokenRepository.Delete` | src/main/java/com/demo/autenticacion/autenticacionJWT/services/ManagePasswordService.java:84 | removes exactly that token's key |
| `Accounts.EmailService.SendPasswordResetEmail` | src/main/java/com/demo/autenticacion/autenticacionJWT/services/ManagePasswordService.java:63-67 | appends exactly one mail with the given address, subject and text |
| `ApiResponses.ApiError.constructor` | src/main/java/com/demo/autenticacion/autenticacionJWT/apiResponse/ApiError.java:18-22 | a new error holds the given status and description, and has no details map |
| `ApiResponses.ApiError.WithDetail` | src/main/java/com/demo/autenticacion/autenticacionJWT/apiResponse/ApiError.java:24-30 | on an error without details it creates a map holding exactly key -> value; otherwise it inserts or overwrites key and leaves every other entry; it returns the same object and never changes status or description |
| `ApiResponseBuilder.Success` | src/main/java/com/demo/autenticacion/autenticacionJWT/helpers/ApiResponseBuilder.java:12-14 | success = true, title "Operation successful", the given data and status, no error |
| `ApiResponseBuilder.SuccessNoContent` | src/main/java/com/demo/autenticacion/autenticacionJWT/helpers/ApiResponseBuilder.java:16-18 | success = true, title "Operation successful", no data, the given status |
| `ApiResponseBuilder.Error` | src/main/java/com/demo/autenticacion/autenticacionJWT/helpers/ApiResponseBuilder.java:20-29 | success = false with the given type, title, status and instance, and a new ApiError with the same status, errorMessage as description and no details |
| `ApiResponseBuilder.ValidationError` | src/main/java/com/demo/autenticacion/autenticacionJWT/helpers/ApiResponseBuilder.java:31-40 | as Error, but the details equal the field-error map entry for entry; an empty map leaves the details absent |
| `GlobalExceptionHandler.Handler.Status` | src/main/java/com/demo/autenticacion/autenticacionJWT/exceptions/GlobalExceptionHandler.java:33-210 | every handler answers with a 4xx or 5xx status; only the fallback answers 5xx; exactly the validation, constraint, missing-parameter, type-mismatch and malformed-JSON handlers answer 400 |
| `GlobalExceptionHandler.MergeFieldErrors` | src/main/java/com/demo/autenticacion/autenticacionJWT/exceptions/GlobalExceptionHandler.java:60-67 | the keys are exactly the rejected fields; each field's value is all its messages, a null one read as "Invalid value", joined by "; " in encounter order |
| `GlobalExceptionHandler.MergeIntoStep` | src/main/java/com/demo/autenticacion/autenticacionJWT/exceptions/GlobalExceptionHandler.java:63-66 | merging one more field error into a map built from a prefix gives the map built from the longer sequence |
| `GlobalExceptionHandler.CollectViolations` | src/main/java/com/demo/autenticacion/autenticacionJWT/exceptions/GlobalExceptionHandler.java:82-85 | the keys are exactly the violated property paths; each path holds the message of the last violation on that path |
| `GlobalExceptionHandler.IntegrityDetails` | src/main/java/com/demo/autenticacion/autenticacionJWT/exceptions/GlobalExceptionHandler.java:101-111 | exactly one entry; email -> "Email is already in use" exactly when the message contains "users.email"; username -> "Username is already taken" exactly when it contains "users.username" but not "users.email"; constraint -> "Unique constraint violation" exactly when it contains neither |
| `GlobalExceptionHandler.EmailConstraintWins` | src/main/java/com/demo/autenticacion/autenticacionJWT/exceptions/GlobalExceptionHandler.java:105-106 | any message containing "users.email", whatever else it contains, yields exactly {email -> "Email is already in use"} |
| `GlobalExceptionHandler.UsernameConstraintReported` | src/main/java/com/demo/autenticacion/autenticacionJWT/exceptions/GlobalExceptionHandler.java:107-108 | any message containing "users.username" and not "users.email" yields exactly {username -> "Username is already taken"} |
| `GlobalExceptionHandler.HandleResourceNotFound` | src/main/java/com/demo/autenticacion/autenticacionJWT/exceptions/GlobalExceptionHandler.java:34-43 | 404 in the response and its body, type RESOURCE_NOT_FOUND, the exception message as description, no details |
| `GlobalExceptionHandler.HandleBadCredentials` | src/main/java/com/demo/autenticacion/autenticacionJWT/exceptions/GlobalExceptionHandler.java:46-55 | 401, type BAD_CREDENTIALS, no details |
| `GlobalExceptionHandler.HandleValidationExceptions` | src/main/java/com/demo/autenticacion/autenticacionJWT/exceptions/GlobalExceptionHandler.java:58-77 | 400, type VALIDATION_ERROR, details the merged field errors (absent when there are none) |
| `GlobalExceptionHandler.HandleConstraintViolation` | src/main/java/com/demo/autenticacion/autenticacionJWT/exceptions/GlobalExceptionHandler.java:80-95 | 400, type CONSTRAINT_ERROR; details absent exactly when there are no violations, otherwise keyed by the violated paths with the last message on each |
| `GlobalExceptionHandler.HandleDataIntegrityViolation` | src/main/java/com/demo/autenticacion/autenticacionJWT/exceptions/GlobalExceptionHandler.java:97-119 | 409, type "CONSTRAINT CONFLICT", details classified from the root cause's message when there is one and the exception's own otherwise, description the exception's own message |
| `GlobalExceptionHandler.HandleMissingParams` | src/main/java/com/demo/autenticacion/autenticacionJWT/exceptions/GlobalExceptionHandler.java:121-133 | 400, type MISSING_PARAM, details exactly {parameter name -> "is required"} |
| `GlobalExceptionHandler.HandleTypeMismatch` | src/main/java/com/demo/autenticacion/autenticacionJWT/exceptions/GlobalExceptionHandler.java:136-148 | 400, type TYPE_MISMATCH, details exactly {argument name -> "Debe ser de tipo " + type name} |
| `GlobalExceptionHandler.HandleMalformedJson` | src/main/java/com/demo/autenticacion/autenticacionJWT/exceptions/GlobalExceptionHandler.java:151-163 | 400, type MALFORMED_JSON, details exactly {json -> most specific cause's message} |
| `GlobalExceptionHandler.HandleMethodNotSupported` | src/main/java/com/demo/autenticacion/autenticacionJWT/exceptions/GlobalExceptionHandler.java:166-178 | 405, type METHOD_NOT_ALLOWED, details exactly {method -> message} |
| `GlobalExceptionHandler.HandleMediaTypeNotSupported` | src/main/java/com/demo/autenticacion/autenticacionJWT/exceptions/GlobalExceptionHandler.java:181-193 | 415, type UNSUPPORTED_MEDIA_TYPE, details exactly {mediaType -> message} |
| `GlobalExceptionHandler.HandleGenericException` | src/main/java/com/demo/autenticacion/autenticacionJWT/exceptions/GlobalExceptionHandler.java:196-210 | 500, type INTERNAL_SERVER_ERROR, details exactly {error -> message} |

## Left out

- JWT signing, parsing, expiry and base64url: `JwtService` is not part of this model. Its username extraction, token generation and validation are arbitrary function values (`Accounts.JwtService`); a failed extraction stands for the library's exception.
- The password encoder's hashing is a foreign library; only `encode`, `matches` and `matches(raw, encode(raw))` are modelled.
- Spring's `AuthenticationManager` is an arbitrary predicate on (username, password); its agreement with the stored hash is not modelled.
- Mail delivery is I/O: sending appends to an outbox, and a `MessagingException` from delivery is not modelled.
- `UUID.randomUUID` and `LocalDateTime.now` are parameters (`freshToken`, `now` in seconds). The fresh key is required not to be a stored key, which a random UUID is assumed to guarantee.
- The JPA repositories are maps (users by username, reset tokens by key); their declared JPQL queries, generated ids and transactions are not modelled. The database's own conflict message is not modelled: a taken username or email is one `DuplicateUser` failure.
- The `Role` enum's own file is not part of this model; its constants are taken to be USER and ADMIN.
- A null role name (NullPointerException in `Role.valueOf`) and null request fields are not modelled: strings are never null.
- Controllers are HTTP routing and are not modelled, including the removal of the "Bearer " prefix before `changePassword`, the acknowledgment strings, and the catch-all 500 of the refresh and validate endpoints.
- In the exception handlers: `ResponseEntity`, `getRequestURI` (a parameter) and logging are not modelled; exception messages are never null, so the NullPointerException paths (a null message at line 105 or inside `Map.of`, a null required type) are not modelled. Spring's choice of handler by exception class is not modelled beyond `GlobalExceptionHandler.HandlerOf`.
- `GlobalExceptionHandler.CollectViolations`: the violations come from a `Set` whose iteration order Java does not fix; the model takes them as a sequence in iteration order, so "the last one wins" is relative to that order.
- `ApiResponses.ApiResponse`: the timestamp and the logging-context `traceId` of `ApiError` are clock and thread-local values and are dropped; the `PasswordChangeResponse` DTO is a plain carrier and is not modelled.
- Concurrent `resetPassword` calls racing on one token are not modelled; every method runs alone.
