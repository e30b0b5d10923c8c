/**
 * The keyword-argument exception hierarchy of backend/maelstro/common: the
 * details are validated from the keyword arguments (with the field defaults
 * of `ExceptionDetail`), then a subclass overwrites the status code of its
 * own, freshly built details.
 */
module CommonExceptions {
  import opened Wrappers
  import opened Json

  /**
   * The keyword arguments a caller passes; `None` means "not passed".
   * For the optional string fields, `Some(None)` is an explicit `None`.
   */
  datatype Kwargs = Kwargs(
    err: Option<string>,
    statusCode: Option<int>,
    context: Option<string>,
    server: Option<Option<string>>,
    key: Option<Option<string>>,
    user: Option<Option<string>>,
    operations: Option<seq<Json>>)

  /** `ExceptionDetail`. */
  datatype ExceptionDetail = ExceptionDetail(
    err: string,
    statusCode: int,
    context: string,
    server: Option<string>,
    key: Option<string>,
    user: Option<string>,
    operations: seq<Json>)

  datatype Kind = Base | Auth | Url | Param

  datatype MaelstroException = MaelstroException(kind: Kind, details: ExceptionDetail)

  /** The validation error raised when the required `err` argument is missing. */
  datatype ValidationError = MissingErr

  /** Only `err` given: the call shape `MaelstroException(err=...)`. */
  function ErrOnly(err: string): Kwargs {
    Kwargs(Some(err), None, None, None, None, None, None)
  }

  /** `ExceptionDetail(**kwargs)`: `err` is required, every other field has a default. */
  function MakeDetail(kw: Kwargs): (r: Result<ExceptionDetail, ValidationError>)
    ensures r.Failure? <==> kw.err.None?
    ensures r.Success? ==>
      && r.value.err == kw.err.value
      && r.value.statusCode == kw.statusCode.GetOr(500)
      && r.value.context == kw.context.GetOr("src")
      && r.value.server == kw.server.GetOr(None)
      && r.value.key == kw.key.GetOr(None)
      && r.value.user == kw.user.GetOr(None)
      && r.value.operations == kw.operations.GetOr([])
  {
    match kw.err
    case None => Failure(MissingErr)
    case Some(e) =>
      Success(ExceptionDetail(e, kw.statusCode.GetOr(500), kw.context.GetOr("src"),
        kw.server.GetOr(None), kw.key.GetOr(None), kw.user.GetOr(None), kw.operations.GetOr([])))
  }

  /**
   * `MaelstroException(**kwargs)` and its subclasses: `AuthError` sets 401,
   * `UrlError` 404 and `ParamError` 400 after the details are built, whatever
   * `status_code` was passed.
   */
  function Raise(kind: Kind, kw: Kwargs): (r: Result<MaelstroException, ValidationError>)
    ensures r.Failure? <==> kw.err.None?
    ensures r.Success? ==> r.value.kind == kind
    ensures r.Success? ==> r.value.details.statusCode == match kind
      case Base => kw.statusCode.GetOr(500)
      case Auth => 401
      case Url => 404
      case Param => 400
    ensures r.Success? ==>
      && r.value.details.err == kw.err.value
      && r.value.details.context == kw.context.GetOr("src")
      && r.value.details.server == kw.server.GetOr(None)
      && r.value.details.key == kw.key.GetOr(None)
      && r.value.details.user == kw.user.GetOr(None)
      && r.value.details.operations == kw.operations.GetOr([])
  {
    var d :- MakeDetail(kw);
    var status := match kind
      case Base => d.statusCode
      case Auth => 401
      case Url => 404
      case Param => 400;
    Success(MaelstroException(kind, d.(statusCode := status)))
  }
}
