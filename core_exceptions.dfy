/**
 * The exception hierarchy of the copy engine's core (backend/maelstro/core):
 * a mutable `MaelstroDetail` dataclass and HTTP exceptions built from it.
 * The subclasses overwrite the status code of the detail object they are
 * given, so the caller's object is changed too.
 */
module CoreExceptions {
  import opened Wrappers

  /** `asdict(detail)`: the six fields in declaration order. */
  datatype DetailDict = DetailDict(
    err: string,
    statusCode: int,
    context: string,
    server: Option<string>,
    key: Option<string>,
    user: Option<string>)

  datatype Kind = Base | Auth | Url | Param

  /** An `HTTPException` raised with `status_code` and `detail`. */
  datatype MaelstroException = MaelstroException(kind: Kind, statusCode: int, detail: DetailDict)

  /** The status a subclass forces onto the detail; the base class keeps the detail's own. */
  function ForcedStatus(kind: Kind, given: int): (s: int)
    ensures kind == Auth ==> s == 401
    ensures kind == Url ==> s == 404
    ensures kind == Param ==> s == 406
    ensures kind == Base ==> s == given
  {
    match kind
    case Base => given
    case Auth => 401
    case Url => 404
    case Param => 406
  }

  class MaelstroDetail {
    var err: string
    var statusCode: int
    var context: string
    var server: Option<string>
    var key: Option<string>
    var user: Option<string>

    /** The dataclass constructor with its defaults. */
    constructor (err: string, statusCode: int := 500, context: string := "src",
                 server: Option<string> := None, key: Option<string> := None,
                 user: Option<string> := None)
      ensures this.err == err && this.statusCode == statusCode && this.context == context
      ensures this.server == server && this.key == key && this.user == user
    {
      this.err := err;
      this.statusCode := statusCode;
      this.context := context;
      this.server := server;
      this.key := key;
      this.user := user;
    }

    function AsDict(): (d: DetailDict)
      reads this
      ensures d.err == err && d.statusCode == statusCode && d.context == context
      ensures d.server == server && d.key == key && d.user == user
    {
      DetailDict(err, statusCode, context, server, key, user)
    }
  }

  /**
   * `MaelstroException(detail)` and its subclasses: the subclass first writes
   * its status into the caller's detail object, then the exception carries
   * that status and `asdict` of all six fields.
   */
  method Raise(kind: Kind, detail: MaelstroDetail) returns (e: MaelstroException)
    modifies detail
    ensures detail.statusCode == ForcedStatus(kind, old(detail.statusCode))
    ensures detail.err == old(detail.err) && detail.context == old(detail.context)
    ensures detail.server == old(detail.server) && detail.key == old(detail.key)
    ensures detail.user == old(detail.user)
    ensures e.kind == kind && e.statusCode == detail.statusCode && e.detail == detail.AsDict()
  {
    if kind != Base {
      detail.statusCode := ForcedStatus(kind, detail.statusCode);
    }
    e := MaelstroException(kind, detail.statusCode, detail.AsDict());
  }

  /** A freshly built detail has the dataclass defaults, and `Raise` on it gives the forced status. */
  method RaiseNew(kind: Kind, err: string, context: string, key: Option<string>) returns (e: MaelstroException)
    ensures e.kind == kind
    ensures e.statusCode == ForcedStatus(kind, 500)
    ensures e.detail == DetailDict(err, ForcedStatus(kind, 500), context, None, key, None)
  {
    var d := new MaelstroDetail(err, context := context, key := key);
    e := Raise(kind, d);
  }
}
