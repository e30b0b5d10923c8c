/**
 * The operation log of one request (backend/maelstro/core/operations.py):
 * the HTTP status gate `raise_for_status`, the record types, and the
 * `LogCollectionHandler` that appends records, keeps request properties and
 * tags records with the current context label.
 */
module Operations {
  import opened Wrappers
  import opened Json
  import opened CommonExceptions

  /** What the code reads of an HTTP response. */
  datatype Response = Response(requestMethod: string, url: string, statusCode: int, text: string)

  /** The statuses `raise_for_status` rejects. */
  predicate IsHttpError(status: int) {
    400 <= status < 600
  }

  /**
   * `raise_for_status(response)`: raises exactly for 4xx and 5xx, with the
   * response's status as the exception's status and its text as the context.
   */
  function RaiseForStatus(resp: Response): (r: Outcome<CommonExceptions.MaelstroException>)
    ensures r.Fail? <==> 400 <= resp.statusCode < 600
    ensures r.Fail? ==>
      && r.error.kind == Base
      && r.error.details.err == "HTTP error in [" + resp.requestMethod + "] " + resp.url
      && r.error.details.statusCode == resp.statusCode
      && r.error.details.context == resp.text
  {
    var e := CommonExceptions.Raise(Base, Kwargs(
      Some("HTTP error in [" + resp.requestMethod + "] " + resp.url), Some(resp.statusCode),
      Some(resp.text), None, None, None, None));
    if 400 <= resp.statusCode < 600 then Fail(e.value) else Pass
  }

  /** The context labels a record can be tagged with. */
  datatype Context = General | Style | Layer | Meta {
    function Name(): string {
      match this
      case General => "General"
      case Style => "Style"
      case Layer => "Layer"
      case Meta => "Meta"
    }
  }

  datatype ApiKind = PlainApi | GnApi | GsApi

  /** The operation records, and plain dicts that callers append directly. */
  datatype Record =
    | ApiRecord(kind: ApiKind, requestMethod: string, statusCode: int, url: string, dataType: Option<Context>)
    | InfoRecord(message: string, detail: seq<(string, Json)>, dataType: Option<Context>)
    | SuccessRecord(message: string, detail: seq<(string, Json)>, dataType: Option<Context>)
    | RawEntry(value: Json)

  /** What `emit` reads of a `logging.LogRecord`: the logger name, the message and the `response` extra. */
  datatype LogRecord = LogRecord(loggerName: string, message: string, response: Option<Response>)

  /** The record `emit` builds from a log record while `context` is current. */
  function RecordFor(rec: LogRecord, context: Context): (r: Record)
    ensures rec.response.Some? ==>
      && r.ApiRecord?
      && (r.kind == GnApi <==> rec.loggerName == "GN Session")
      && (r.kind == GsApi <==> rec.loggerName == "GS Session")
      && r.requestMethod == rec.response.value.requestMethod
      && r.statusCode == rec.response.value.statusCode
      && r.url == rec.response.value.url
      && r.dataType == Some(context)
    ensures rec.response.None? ==>
      r == InfoRecord(rec.message, [("src", JStr("generic logger"))], None)
  {
    match rec.response
    case Some(resp) =>
      var kind := if rec.loggerName == "GN Session" then GnApi
                  else if rec.loggerName == "GS Session" then GsApi
                  else PlainApi;
      ApiRecord(kind, resp.requestMethod, resp.statusCode, resp.url, Some(context))
    case None =>
      InfoRecord(rec.message, [("src", JStr("generic logger"))], None)
  }

  function ContextJson(c: Option<Context>): Json {
    match c
    case Some(ctx) => JStr(ctx.Name())
    case None => JNull
  }

  /** `model_dump()` of a record; a plain dict is returned as it is. */
  function Dump(r: Record): Json {
    match r
    case ApiRecord(kind, verb, status, url, ctx) =>
      var t := match kind
        case PlainApi => JNull
        case GnApi => JStr("gn_api")
        case GsApi => JStr("gs_api");
      JObj([("type", t), ("method", JStr(verb)), ("status_code", JInt(status)),
            ("url", JStr(url)), ("data_type", ContextJson(ctx))])
    case InfoRecord(message, detail, ctx) =>
      JObj([("message", JStr(message)), ("detail", JObj(detail)), ("data_type", ContextJson(ctx))])
    case SuccessRecord(message, detail, ctx) =>
      JObj([("message", JStr(message)), ("detail", JObj(detail)), ("data_type", ContextJson(ctx))])
    case RawEntry(value) => value
  }

  /** `info.data_type = context`. */
  function Tagged(info: Record, context: Context): Record {
    match info
    case InfoRecord(m, d, _) => InfoRecord(m, d, Some(context))
    case SuccessRecord(m, d, _) => SuccessRecord(m, d, Some(context))
    case ApiRecord(k, m, s, u, _) => ApiRecord(k, m, s, u, Some(context))
    case RawEntry(v) => RawEntry(v)
  }

  class LogCollectionHandler {
    var responses: seq<Record>
    var properties: map<string, Json>
    var context: Context
    const id: nat
    /** Set and cleared by `get_georchestra_handler`. */
    var valid: bool

    /** The request properties always hold a start time. */
    ghost predicate Valid()
      reads this
    {
      "start_time" in properties
    }

    /** `LogCollectionHandler()`: no records, the start time, the "General" context. */
    constructor (id: nat, now: string)
      ensures Valid()
      ensures responses == [] && properties == map["start_time" := JStr(now)]
      ensures context == General && this.id == id && !valid
    {
      responses := [];
      properties := map["start_time" := JStr(now)];
      context := General;
      this.id := id;
      valid := false;
    }

    /** Entering `logger_context(new_context)`: the old label is saved for the exit. */
    method EnterContext(newContext: Context) returns (saved: Context)
      modifies this`context
      ensures context == newContext && saved == old(context)
    {
      saved := context;
      context := newContext;
    }

    /** Leaving `logger_context` normally puts the saved label back (there is no `finally`). */
    method ExitContext(saved: Context)
      modifies this`context
      ensures context == saved
    {
      context := saved;
    }

    /**
     * `emit(record)`: a record logged from another request (another current
     * logger id) is dropped; otherwise exactly one record is appended.
     */
    method Emit(rec: LogRecord, currentId: nat)
      modifies this`responses
      ensures currentId != id ==> responses == old(responses)
      ensures currentId == id ==> responses == old(responses) + [RecordFor(rec, context)]
    {
      if currentId != id {
        return;
      }
      responses := responses + [RecordFor(rec, context)];
    }

    /** `log_info(info)`: the record is tagged with the current context and appended. */
    method LogInfo(info: Record)
      modifies this`responses
      ensures responses == old(responses) + [Tagged(info, context)]
    {
      responses := responses + [Tagged(info, context)];
    }

    /** `set_property(key, value)`: that key now maps to the value, the others are unchanged. */
    method SetProperty(key: string, value: Json)
      requires Valid()
      modifies this`properties
      ensures Valid()
      ensures properties == old(properties)[key := value]
    {
      properties := properties[key := value];
    }

    /** `get_json_responses()`: one dumped entry per record, in the same order. */
    function GetJsonResponses(): (r: seq<Json>)
      reads this`responses
      ensures |r| == |responses|
      ensures forall i :: 0 <= i < |responses| ==> r[i] == Dump(responses[i])
    {
      var rs := responses;
      seq(|rs|, i requires 0 <= i < |rs| => Dump(rs[i]))
    }
  }
}
