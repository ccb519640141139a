/** The REST layer's exception handlers: for each exception kind, a fixed
    HTTP status, type and title, and the details map that goes into the
    ApiError of the response. */
module GlobalExceptionHandler {
  import opened Common
  import opened ApiResponses
  import ApiResponseBuilder
  import Accounts

  /** One constructor per exception handler, in the order they are declared. */
  datatype Handler =
    | ResourceNotFound
    | BadCredentials
    | Validation
    | ConstraintViolation
    | DataIntegrityViolation
    | MissingParameter
    | TypeMismatch
    | MalformedJson
    | MethodNotSupported
    | MediaTypeNotSupported
    | Fallback
  {
    /** The status of the response; every handler answers with an error
        status, a server error only for the fallback handler, and 400 for
        exactly the five request-validation handlers. */
    function Status(): (s: HttpStatus)
      ensures 400 <= s.Code() < 600
      ensures s.Code() >= 500 <==> this == Fallback
      ensures s == BAD_REQUEST <==>
        this in {Validation, ConstraintViolation, MissingParameter, TypeMismatch, MalformedJson}
    {
      match this
      case ResourceNotFound => NOT_FOUND
      case BadCredentials => UNAUTHORIZED
      case Validation => BAD_REQUEST
      case ConstraintViolation => BAD_REQUEST
      case DataIntegrityViolation => CONFLICT
      case MissingParameter => BAD_REQUEST
      case TypeMismatch => BAD_REQUEST
      case MalformedJson => BAD_REQUEST
      case MethodNotSupported => METHOD_NOT_ALLOWED
      case MediaTypeNotSupported => UNSUPPORTED_MEDIA_TYPE
      case Fallback => INTERNAL_SERVER_ERROR
    }

    /** The machine-readable type written into the response. */
    function Kind(): string {
      match this
      case ResourceNotFound => "RESOURCE_NOT_FOUND"
      case BadCredentials => "BAD_CREDENTIALS"
      case Validation => "VALIDATION_ERROR"
      case ConstraintViolation => "CONSTRAINT_ERROR"
      case DataIntegrityViolation => "CONSTRAINT CONFLICT"
      case MissingParameter => "MISSING_PARAM"
      case TypeMismatch => "TYPE_MISMATCH"
      case MalformedJson => "MALFORMED_JSON"
      case MethodNotSupported => "METHOD_NOT_ALLOWED"
      case MediaTypeNotSupported => "UNSUPPORTED_MEDIA_TYPE"
      case Fallback => "INTERNAL_SERVER_ERROR"
    }

    /** The human-readable title written into the response. */
    function Title(): string {
      match this
      case ResourceNotFound => "Recurso no encontrado"
      case BadCredentials => "Usuario o contraseña incorrecta"
      case Validation => "Error de validación"
      case ConstraintViolation => "Error de restricción"
      case DataIntegrityViolation => "Conflicto por restricción"
      case MissingParameter => "Parámetro faltante"
      case TypeMismatch => "Error de tipo de argumento"
      case MalformedJson => "JSON malformado"
      case MethodNotSupported => "Método no soportado"
      case MediaTypeNotSupported => "Media type no soportado"
      case Fallback => "Error interno del servidor"
    }
  }

  /** What every handler promises about the response it returns: the
      response status and the status inside the body and its ApiError all
      equal the handler's status, and the body carries the handler's type
      and title, the request URI and the exception's message. */
  ghost predicate Answers(h: Handler, status: HttpStatus, body: ApiResponse<()>,
                          message: string, requestUri: string)
    reads body.error
  {
    && status == h.Status()
    && !body.success
    && body.status == status
    && body.kind == Some(h.Kind())
    && body.title == h.Title()
    && body.instance == Some(requestUri)
    && body.data == None
    && body.error != null
    && body.error.status == status
    && body.error.description == message
  }

  /** The handler a service failure thrown out of a controller reaches,
      chosen by its exception class: only bad credentials get 401 and only
      the unique-constraint conflict gets 409; every other failure, "User not
      found" included, falls through to the generic 500. The refresh
      endpoint's controller catches its own failures (InvalidRefreshToken,
      and TokenRejected there) and answers a bodiless 500 instead, which has
      the same status. */
  function HandlerOf(e: Accounts.ServiceError): (h: Handler)
    ensures h.Status().Code() == 401 <==> e == Accounts.BadCredentials || e == Accounts.CurrentPasswordIncorrect
    ensures h.Status().Code() == 409 <==> e == Accounts.DuplicateUser
    ensures h.Status().Code() == 500 <==>
      !(e == Accounts.BadCredentials || e == Accounts.CurrentPasswordIncorrect || e == Accounts.DuplicateUser)
  {
    match e
    case BadCredentials => BadCredentials
    case CurrentPasswordIncorrect => BadCredentials
    case DuplicateUser => DataIntegrityViolation
    case _ => Fallback
  }

  // ---------------------------------------------------------------------
  // Field errors of a rejected request body: merged per field

  /** A binding error: the rejected field and its (possibly null) message. */
  datatype FieldError = FieldError(field: string, defaultMessage: Option<string>)

  const InvalidValue := "Invalid value"
  const MessageSeparator := "; "

  /** The message a field error contributes; a null message reads as "Invalid value". */
  function MessageOf(e: FieldError): string {
    e.defaultMessage.GetOr(InvalidValue)
  }

  /** The messages of the errors on `field`, in encounter order. */
  function MessagesFor(errors: seq<FieldError>, field: string): seq<string> {
    if errors == [] then []
    else (if errors[0].field == field then [MessageOf(errors[0])] else []) + MessagesFor(errors[1..], field)
  }

  /** The messages joined by "; ". */
  function Joined(messages: seq<string>): string {
    if messages == [] then ""
    else if |messages| == 1 then messages[0]
    else messages[0] + MessageSeparator + Joined(messages[1..])
  }

  lemma {:induction false} MessagesForAppend(errors: seq<FieldError>, e: FieldError, field: string)
    ensures MessagesFor(errors + [e], field)
         == MessagesFor(errors, field) + (if e.field == field then [MessageOf(e)] else [])
  {
    if errors != [] {
      assert (errors + [e])[1..] == errors[1..] + [e];
      MessagesForAppend(errors[1..], e, field);
    } else {
      assert [e][1..] == [];
    }
  }

  lemma {:induction false} JoinedAppend(messages: seq<string>, m: string)
    requires messages != []
    ensures Joined(messages + [m]) == Joined(messages) + MessageSeparator + m
  {
    if |messages| == 1 {
      assert (messages + [m])[1..] == [m];
    } else {
      assert (messages + [m])[1..] == messages[1..] + [m];
      JoinedAppend(messages[1..], m);
    }
  }

  lemma {:induction false} MessagesForEmpty(errors: seq<FieldError>, field: string)
    ensures MessagesFor(errors, field) == [] <==>
      forall i :: 0 <= i < |errors| ==> errors[i].field != field
  {
    if errors != [] {
      MessagesForEmpty(errors[1..], field);
      assert forall i :: 1 <= i < |errors| ==> errors[i] == errors[1..][i - 1];
    }
  }

  /** The collector's merge step: a field seen for the first time gets its
      message, a repeated field appends it after the stored one. */
  function MergeInto(merged: map<string, string>, e: FieldError): map<string, string> {
    merged[e.field :=
      if e.field in merged then merged[e.field] + MessageSeparator + MessageOf(e)
      else MessageOf(e)]
  }

  /** The fields of `errors` are the keys of `merged`, and each key holds
      that field's messages joined in encounter order. */
  ghost predicate MergedFrom(merged: map<string, string>, errors: seq<FieldError>) {
    && (forall f :: f in merged <==> exists i :: 0 <= i < |errors| && errors[i].field == f)
    && (forall f :: f in merged ==> merged[f] == Joined(MessagesFor(errors, f)))
  }

  lemma MergeIntoStep(prefix: seq<FieldError>, last: FieldError, merged: map<string, string>)
    requires MergedFrom(merged, prefix)
    ensures MergedFrom(MergeInto(merged, last), prefix + [last])
  {
    var errors, r := prefix + [last], MergeInto(merged, last);
    forall f ensures f in r <==> exists i :: 0 <= i < |errors| && errors[i].field == f {
      if f in merged {
        var i :| 0 <= i < |prefix| && prefix[i].field == f;
        assert errors[i].field == f;
      } else if f == last.field {
        assert errors[|prefix|].field == f;
      }
    }
    forall f | f in r ensures r[f] == Joined(MessagesFor(errors, f)) {
      MessagesForAppend(prefix, last, f);
      if f == last.field {
        MessagesForEmpty(prefix, f);
        if f in merged {
          JoinedAppend(MessagesFor(prefix, f), MessageOf(last));
        } else {
          assert forall i :: 0 <= i < |prefix| ==> prefix[i].field != f;
          assert MessagesFor(errors, f) == [MessageOf(last)];
        }
      } else {
        assert MessagesFor(errors, f) == MessagesFor(prefix, f);
      }
    }
  }

  /** The details of a rejected request body, built as the stream collector
      does: fields in encounter order, each merged into the map built so far.
      Every rejected field is a key, and its value is all of that field's
      messages joined by "; " in encounter order. */
  function MergeFieldErrors(errors: seq<FieldError>): (r: map<string, string>)
    ensures forall f :: f in r <==> exists i :: 0 <= i < |errors| && errors[i].field == f
    ensures forall f :: f in r ==> r[f] == Joined(MessagesFor(errors, f))
  {
    if errors == [] then map[]
    else
      var prefix, last := errors[..|errors| - 1], errors[|errors| - 1];
      assert errors == prefix + [last];
      var merged := MergeFieldErrors(prefix);
      MergeIntoStep(prefix, last, merged);
      MergeInto(merged, last)
  }

  // ---------------------------------------------------------------------
  // Constraint violations of validated parameters: the last one wins

  datatype Violation = Violation(propertyPath: string, message: string)

  /** No violation after position i and before k has the same property path. */
  ghost predicate LastBefore(violations: seq<Violation>, i: int, k: int)
    requires 0 <= i < |violations|
  {
    forall j :: i < j < k && j < |violations| ==> violations[j].propertyPath != violations[i].propertyPath
  }

  /** Fills the details map by putting each violation's message under its
      property path, in iteration order; every path is a key, and its value
      is the message of the last violation on that path. */
  method CollectViolations(violations: seq<Violation>) returns (errors: map<string, string>)
    ensures forall p :: p in errors <==> exists i :: 0 <= i < |violations| && violations[i].propertyPath == p
    ensures forall i :: 0 <= i < |violations| && LastBefore(violations, i, |violations|) ==>
      violations[i].propertyPath in errors && errors[violations[i].propertyPath] == violations[i].message
  {
    errors := map[];
    for k := 0 to |violations|
      invariant forall p :: p in errors <==> exists i :: 0 <= i < k && violations[i].propertyPath == p
      invariant forall i :: 0 <= i < k && LastBefore(violations, i, k) ==>
        violations[i].propertyPath in errors && errors[violations[i].propertyPath] == violations[i].message
    {
      errors := errors[violations[k].propertyPath := violations[k].message];
    }
  }

  // ---------------------------------------------------------------------
  // Data-integrity violations: classified by the constraint they name

  /** `sub` occurs in `s` starting at position i. */
  predicate OccursAt(s: string, sub: string, i: int) {
    0 <= i && i + |sub| <= |s| && s[i..i + |sub|] == sub
  }

  /** Java's String.contains. */
  predicate Contains(s: string, sub: string) {
    exists i | 0 <= i <= |s| - |sub| :: OccursAt(s, sub, i)
  }

  const EmailConstraint := "users.email"
  const UsernameConstraint := "users.username"

  /** The message the classification reads: the root cause's when there is one. */
  function ConstraintMessage(rootCauseMessage: Option<string>, message: string): string {
    rootCauseMessage.GetOr(message)
  }

  /** The details of a data-integrity conflict: exactly one entry; the
      email constraint takes priority over the username constraint, and a
      message naming neither yields a generic entry. */
  function IntegrityDetails(message: string): (r: map<string, string>)
    ensures |r| == 1
    ensures "email" in r <==> Contains(message, EmailConstraint)
    ensures "username" in r <==> !Contains(message, EmailConstraint) && Contains(message, UsernameConstraint)
    ensures "constraint" in r <==> !Contains(message, EmailConstraint) && !Contains(message, UsernameConstraint)
    ensures "email" in r ==> r["email"] == "Email is already in use"
    ensures "username" in r ==> r["username"] == "Username is already taken"
    ensures "constraint" in r ==> r["constraint"] == "Unique constraint violation"
  {
    if Contains(message, EmailConstraint) then map["email" := "Email is already in use"]
    else if Contains(message, UsernameConstraint) then map["username" := "Username is already taken"]
    else map["constraint" := "Unique constraint violation"]
  }

  /** Any message that names the email constraint, whatever surrounds it
      (another constraint's name included), is reported as an email conflict. */
  lemma EmailConstraintWins(before: string, after: string)
    ensures IntegrityDetails(before + EmailConstraint + after) == map["email" := "Email is already in use"]
  {
    var message := before + EmailConstraint + after;
    assert message[|before|..|before| + |EmailConstraint|] == EmailConstraint;
    assert OccursAt(message, EmailConstraint, |before|);
  }

  /** A message naming the username constraint and not the email one is
      reported as a username conflict. */
  lemma UsernameConstraintReported(before: string, after: string)
    requires !Contains(before + UsernameConstraint + after, EmailConstraint)
    ensures IntegrityDetails(before + UsernameConstraint + after) == map["username" := "Username is already taken"]
  {
    var message := before + UsernameConstraint + after;
    assert message[|before|..|before| + |UsernameConstraint|] == UsernameConstraint;
    assert OccursAt(message, UsernameConstraint, |before|);
  }

  // ---------------------------------------------------------------------
  // The handlers

  method HandleResourceNotFound(message: string, requestUri: string)
    returns (status: HttpStatus, body: ApiResponse<()>)
    ensures Answers(ResourceNotFound, status, body, message, requestUri)
    ensures fresh(body.error) && body.error.details == None
  {
    status := NOT_FOUND;
    body := ApiResponseBuilder.Error("RESOURCE_NOT_FOUND", "Recurso no encontrado", NOT_FOUND, message, requestUri);
  }

  method HandleBadCredentials(message: string, requestUri: string)
    returns (status: HttpStatus, body: ApiResponse<()>)
    ensures Answers(BadCredentials, status, body, message, requestUri)
    ensures fresh(body.error) && body.error.details == None
  {
    status := UNAUTHORIZED;
    body := ApiResponseBuilder.Error("BAD_CREDENTIALS", "Usuario o contraseña incorrecta", UNAUTHORIZED, message, requestUri);
  }

  method HandleValidationExceptions(message: string, fieldErrors: seq<FieldError>, requestUri: string)
    returns (status: HttpStatus, body: ApiResponse<()>)
    ensures Answers(Validation, status, body, message, requestUri)
    ensures fresh(body.error)
    ensures body.error.details == if fieldErrors == [] then None else Some(MergeFieldErrors(fieldErrors))
  {
    var errors := MergeFieldErrors(fieldErrors);
    assert fieldErrors != [] ==> fieldErrors[0].field in errors;
    status := BAD_REQUEST;
    body := ApiResponseBuilder.ValidationError("VALIDATION_ERROR", "Error de validación", BAD_REQUEST,
                                               message, requestUri, errors);
  }

  method HandleConstraintViolation(message: string, violations: seq<Violation>, requestUri: string)
    returns (status: HttpStatus, body: ApiResponse<()>)
    ensures Answers(ConstraintViolation, status, body, message, requestUri)
    ensures fresh(body.error)
    ensures violations == [] <==> body.error.details == None
    ensures body.error.details.Some? ==>
      (forall p :: p in body.error.details.value <==>
         exists i :: 0 <= i < |violations| && violations[i].propertyPath == p)
    ensures body.error.details.Some? ==>
      forall i :: 0 <= i < |violations| && LastBefore(violations, i, |violations|) ==>
        body.error.details.value[violations[i].propertyPath] == violations[i].message
  {
    var errors := CollectViolations(violations);
    assert violations != [] ==> violations[0].propertyPath in errors;
    status := BAD_REQUEST;
    body := ApiResponseBuilder.ValidationError("CONSTRAINT_ERROR", "Error de restricción", BAD_REQUEST,
                                               message, requestUri, errors);
  }

  method HandleDataIntegrityViolation(message: string, rootCauseMessage: Option<string>, requestUri: string)
    returns (status: HttpStatus, body: ApiResponse<()>)
    ensures Answers(DataIntegrityViolation, status, body, message, requestUri)
    ensures fresh(body.error)
    ensures body.error.details == Some(IntegrityDetails(ConstraintMessage(rootCauseMessage, message)))
  {
    var errors := IntegrityDetails(ConstraintMessage(rootCauseMessage, message));
    status := CONFLICT;
    body := ApiResponseBuilder.ValidationError("CONSTRAINT CONFLICT", "Conflicto por restricción", CONFLICT,
                                               message, requestUri, errors);
  }

  method HandleMissingParams(message: string, parameterName: string, requestUri: string)
    returns (status: HttpStatus, body: ApiResponse<()>)
    ensures Answers(MissingParameter, status, body, message, requestUri)
    ensures fresh(body.error)
    ensures body.error.details == Some(map[parameterName := "is required"])
  {
    var errors := map[parameterName := "is required"];
    assert parameterName in errors;
    status := BAD_REQUEST;
    body := ApiResponseBuilder.ValidationError("MISSING_PARAM", "Parámetro faltante", BAD_REQUEST,
                                               message, requestUri, errors);
  }

  method HandleTypeMismatch(message: string, name: string, requiredTypeName: string, requestUri: string)
    returns (status: HttpStatus, body: ApiResponse<()>)
    ensures Answers(TypeMismatch, status, body, message, requestUri)
    ensures fresh(body.error)
    ensures body.error.details == Some(map[name := "Debe ser de tipo " + requiredTypeName])
  {
    var errors := map[name := "Debe ser de tipo " + requiredTypeName];
    assert name in errors;
    status := BAD_REQUEST;
    body := ApiResponseBuilder.ValidationError("TYPE_MISMATCH", "Error de tipo de argumento", BAD_REQUEST,
                                               message, requestUri, errors);
  }

  method HandleMalformedJson(message: string, mostSpecificCauseMessage: string, requestUri: string)
    returns (status: HttpStatus, body: ApiResponse<()>)
    ensures Answers(MalformedJson, status, body, message, requestUri)
    ensures fresh(body.error)
    ensures body.error.details == Some(map["json" := mostSpecificCauseMessage])
  {
    var errors := map["json" := mostSpecificCauseMessage];
    assert "json" in errors;
    status := BAD_REQUEST;
    body := ApiResponseBuilder.ValidationError("MALFORMED_JSON", "JSON malformado", BAD_REQUEST,
                                               message, requestUri, errors);
  }

  method HandleMethodNotSupported(message: string, requestUri: string)
    returns (status: HttpStatus, body: ApiResponse<()>)
    ensures Answers(MethodNotSupported, status, body, message, requestUri)
    ensures fresh(body.error)
    ensures body.error.details == Some(map["method" := message])
  {
    var errors := map["method" := message];
    assert "method" in errors;
    status := METHOD_NOT_ALLOWED;
    body := ApiResponseBuilder.ValidationError("METHOD_NOT_ALLOWED", "Método no soportado", METHOD_NOT_ALLOWED,
                                               message, requestUri, errors);
  }

  method HandleMediaTypeNotSupported(message: string, requestUri: string)
    returns (status: HttpStatus, body: ApiResponse<()>)
    ensures Answers(MediaTypeNotSupported, status, body, message, requestUri)
    ensures fresh(body.error)
    ensures body.error.details == Some(map["mediaType" := message])
  {
    var errors := map["mediaType" := message];
    assert "mediaType" in errors;
    status := UNSUPPORTED_MEDIA_TYPE;
    body := ApiResponseBuilder.ValidationError("UNSUPPORTED_MEDIA_TYPE", "Media type no soportado",
                                               UNSUPPORTED_MEDIA_TYPE, message, requestUri, errors);
  }

  method HandleGenericException(message: string, requestUri: string)
    returns (status: HttpStatus, body: ApiResponse<()>)
    ensures Answers(Fallback, status, body, message, requestUri)
    ensures fresh(body.error)
    ensures body.error.details == Some(map["error" := message])
  {
    var errors := map["error" := message];
    assert "error" in errors;
    status := INTERNAL_SERVER_ERROR;
    body := ApiResponseBuilder.ValidationError("INTERNAL_SERVER_ERROR", "Error interno del servidor",
                                               INTERNAL_SERVER_ERROR, message, requestUri, errors);
  }
}
