/** Static factory helpers that build response envelopes. */
module ApiResponseBuilder {
  import opened Common
  import opened ApiResponses

  const SuccessTitle := "Operation successful"

  /** A successful response that carries data. */
  function Success<T>(data: T, status: HttpStatus): (r: ApiResponse<T>)
    ensures r.success && r.title == SuccessTitle
    ensures r.data == Some(data) && r.status == status
    ensures r.error == null && r.kind == None && r.instance == None
  {
    ApiResponse(true, None, SuccessTitle, status, Some(data), None, null)
  }

  /** A successful response without data (the Void overload). */
  function SuccessNoContent(status: HttpStatus): (r: ApiResponse<()>)
    ensures r.success && r.title == SuccessTitle
    ensures r.data == None && r.status == status
    ensures r.error == null && r.kind == None && r.instance == None
  {
    ApiResponse(true, None, SuccessTitle, status, None, None, null)
  }

  /** An error response; its ApiError repeats the status and has no details. */
  method Error(kind: string, title: string, status: HttpStatus, errorMessage: string, instance: string)
    returns (r: ApiResponse<()>)
    ensures !r.success && r.kind == Some(kind) && r.title == title
    ensures r.status == status && r.instance == Some(instance) && r.data == None
    ensures r.error != null && fresh(r.error)
    ensures r.error.status == status && r.error.description == errorMessage
    ensures r.error.details == None
  {
    var error := new ApiError(status, errorMessage);
    r := ApiResponse(false, Some(kind), title, status, None, Some(instance), error);
  }

  /** An error response whose details hold every field error, entry for
      entry; an empty map of field errors leaves the details absent, since
      only WithDetail creates the map. */
  method ValidationError(kind: string, title: string, status: HttpStatus, errorMessage: string,
                         instance: string, fieldErrors: map<string, string>)
    returns (r: ApiResponse<()>)
    ensures !r.success && r.kind == Some(kind) && r.title == title
    ensures r.status == status && r.instance == Some(instance) && r.data == None
    ensures r.error != null && fresh(r.error)
    ensures r.error.status == status && r.error.description == errorMessage
    ensures r.error.details == if fieldErrors == map[] then None else Some(fieldErrors)
  {
    var error := new ApiError(status, errorMessage);
    var pending := fieldErrors.Keys;
    while pending != {}
      invariant pending <= fieldErrors.Keys
      invariant error.status == status && error.description == errorMessage
      invariant pending == fieldErrors.Keys ==> error.details == None
      invariant pending != fieldErrors.Keys ==>
        error.details == Some(map k | k in fieldErrors && k !in pending :: fieldErrors[k])
      decreases pending
    {
      var key :| key in pending;
      ghost var copied := map k | k in fieldErrors && k !in pending :: fieldErrors[k];
      assert pending == fieldErrors.Keys ==> copied == map[];
      var _ := error.WithDetail(key, fieldErrors[key]);
      pending := pending - {key};
      assert (map k | k in fieldErrors && k !in pending :: fieldErrors[k]) == copied[key := fieldErrors[key]];
    }
    assert fieldErrors != map[] ==> (map k | k in fieldErrors && k !in pending :: fieldErrors[k]) == fieldErrors;
    assert fieldErrors == map[] <==> fieldErrors.Keys == {};
    r := ApiResponse(false, Some(kind), title, status, None, Some(instance), error);
  }
}
