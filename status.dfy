/** The exception hierarchy of microfiber/__init__.py and the mapping from an
    HTTP response status to the exception `CouchBase.request` raises. */
module Status {
  import opened Wrappers

  /** The HTTPError subclasses. `ClientError` is the generic 4xx class; every
      other kind except `ServerError` is one of its subclasses. */
  datatype ErrorKind =
    | BadRequest | Unauthorized | Forbidden | NotFound | MethodNotAllowed
    | NotAcceptable | Conflict | Gone | LengthRequired | PreconditionFailed
    | BadContentType | BadRangeRequest | ExpectationFailed | EnhanceYourCalm
    | ClientError
    | ServerError
  {
    /** A subclass that stands for one status code. */
    predicate Specific() {
      !ClientError? && !ServerError?
    }

    /** Is this `ClientError` or one of its subclasses? */
    predicate IsClientError() {
      !ServerError?
    }

    /** The status each subclass's docstring names. */
    function Code(): int
      requires Specific()
    {
      match this
      case BadRequest => 400
      case Unauthorized => 401
      case Forbidden => 403
      case NotFound => 404
      case MethodNotAllowed => 405
      case NotAcceptable => 406
      case Conflict => 409
      case Gone => 410
      case LengthRequired => 411
      case PreconditionFailed => 412
      case BadContentType => 415
      case BadRangeRequest => 416
      case ExpectationFailed => 417
      case EnhanceYourCalm => 420
    }
  }

  /** The module-level `errors` table. */
  const Errors: map<int, ErrorKind> := map[
    400 := BadRequest, 401 := Unauthorized, 403 := Forbidden,
    404 := NotFound, 405 := MethodNotAllowed, 406 := NotAcceptable,
    409 := Conflict, 410 := Gone, 411 := LengthRequired,
    412 := PreconditionFailed, 415 := BadContentType,
    416 := BadRangeRequest, 417 := ExpectationFailed,
    420 := EnhanceYourCalm
  ]

  /** The diagnostics every HTTPError carries. */
  datatype HttpError = HttpError(kind: ErrorKind, status: int, verb: string, url: string)

  /** The exception class `request` raises for `status`, or None when it
      returns the response. */
  function Classify(status: int): (r: Option<ErrorKind>)
    ensures r.None? <==> status < 400
    ensures r == Some(ServerError) <==> status >= 500
    ensures 400 <= status < 500 ==> r.Some? && r.value.IsClientError()
    ensures r.Some? && r.value.Specific() ==> r.value.Code() == status
    ensures 400 <= status < 500 && status !in Errors ==> r == Some(ClientError)
  {
    if status >= 500 then Some(ServerError)
    else if status >= 400 then Some(if status in Errors then Errors[status] else ClientError)
    else None
  }

  /** The codes the table maps. */
  lemma ErrorsKeys()
    ensures Errors.Keys == {400, 401, 403, 404, 405, 406, 409, 410, 411, 412, 415, 416, 417, 420}
  {
  }

  /** The table holds exactly the fourteen subclasses, each under its code. */
  lemma ErrorsTableIsCodes()
    ensures forall status | status in Errors :: Errors[status].Specific() && Errors[status].Code() == status
    ensures forall k: ErrorKind | k.Specific() :: k.Code() in Errors && Errors[k.Code()] == k
  {
    ErrorsKeys();
    forall status | status in Errors
      ensures Errors[status].Specific() && Errors[status].Code() == status
    {
      assert status in Errors.Keys;
    }
  }

  /** Every subclass is raised for its own status code and only for it. */
  lemma ClassifySpecific(k: ErrorKind, status: int)
    requires k.Specific()
    ensures Classify(status) == Some(k) <==> status == k.Code()
  {
    ErrorsTableIsCodes();
  }

  /** `outcome` of a request: the error `request` raises, if any. */
  function Check(verb: string, url: string, status: int): (r: Option<HttpError>)
    ensures r.None? <==> status < 400
    ensures r.Some? ==> Some(r.value.kind) == Classify(status) && r.value.status == status
    ensures r.Some? ==> r.value.verb == verb && r.value.url == url
  {
    match Classify(status)
    case None => None
    case Some(k) => Some(HttpError(k, status, verb, url))
  }
}
