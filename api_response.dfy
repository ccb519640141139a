/** The response envelope of the REST layer: the HTTP statuses the handlers
    use, the mutable error body ApiError, and the ApiResponse value that
    carries either data or an error. */
module ApiResponses {
  import opened Common

  /** The Spring HttpStatus constants used by the builder and the handlers. */
  datatype HttpStatus =
    | OK
    | CREATED
    | BAD_REQUEST
    | UNAUTHORIZED
    | NOT_FOUND
    | METHOD_NOT_ALLOWED
    | CONFLICT
    | UNSUPPORTED_MEDIA_TYPE
    | INTERNAL_SERVER_ERROR
  {
    /** The numeric status code of the constant. */
    function Code(): nat {
      match this
      case OK => 200
      case CREATED => 201
      case BAD_REQUEST => 400
      case UNAUTHORIZED => 401
      case NOT_FOUND => 404
      case METHOD_NOT_ALLOWED => 405
      case CONFLICT => 409
      case UNSUPPORTED_MEDIA_TYPE => 415
      case INTERNAL_SERVER_ERROR => 500
    }
  }

  /** The error part of a response. The details map starts out absent (null)
      and is created by the first WithDetail. The trace identifier taken from
      the logging context is not modelled. */
  class ApiError {
    var status: HttpStatus
    var description: string
    var details: Option<map<string, string>>

    /** The details as a map, the absent map reading as empty. */
    function Details(): map<string, string>
      reads this
    {
      if details.Some? then details.value else map[]
    }

    constructor (status: HttpStatus, description: string)
      ensures this.status == status && this.description == description
      ensures details == None
    {
      this.status := status;
      this.description := description;
      details := None;
    }

    /** Creates the details map when it is absent, then puts key -> value
        into it, and returns this same object for chaining. */
    method WithDetail(key: string, value: string) returns (self: ApiError)
      modifies this
      ensures self == this
      ensures status == old(status) && description == old(description)
      ensures old(details).None? ==> details == Some(map[key := value])
      ensures details.Some? && Details() == old(Details())[key := value]
    {
      if details.None? {
        details := Some(map[]);
      }
      details := Some(details.value[key := value]);
      self := this;
    }
  }

  /** A response envelope. Fields the Java constructor leaves unset (type,
      instance, data) are None; a response without an error has error == null.
      The timestamp is not modelled. */
  datatype ApiResponse<T> = ApiResponse(
    success: bool,
    kind: Option<string>,
    title: string,
    status: HttpStatus,
    data: Option<T>,
    instance: Option<string>,
    error: ApiError?)
}
