/**
 * The HTTP middleware `exception_wrapper` (backend/maelstro/middleware.py):
 * every request runs inside an open geOrchestra handler; the three error
 * families the wrapper catches become a JSON error answer with a status
 * code chosen by family and the operations logged so far, and a failed copy
 * request is written to the audit log. Other errors, and successful
 * responses, go through untouched.
 */
module Middleware {
  import opened Wrappers
  import opened Json
  import opened Dicts
  import opened Strings
  import CommonExceptions
  import Georchestra

  /** What the route raised, by the classes the wrapper tells apart. */
  datatype Raised =
    /** A `MaelstroException` of backend/maelstro/common. */
    | Maelstro(e: CommonExceptions.MaelstroException)
    /** A `GnException` of the GeoNetwork client: its code, message, request url and information. */
    | Gn(code: int, message: string, url: string, info: Json)
    /** A `RequestException` of the HTTP client: its class name and text. */
    | Request(className: string, text: string)
    /** Any other exception, the core `MaelstroException` hierarchy included. */
    | Other(name: string)

  /** The three families the wrapper catches. */
  predicate Caught(err: Raised) {
    !err.Other?
  }

  /** What the wrapper hands back. */
  datatype Reply =
    /** The route's own response, unchanged. */
    | Passed(response: Json)
    /** A JSON error answer, and whether the request was written to the audit log. */
    | Answered(body: Dict<string, Json>, statusCode: int, audited: bool)
    /** The exception goes on to the framework. */
    | Propagated(err: Raised)

  /** The status code of the error answer: 400 unless the family chooses otherwise. */
  function ErrorStatus(err: Raised): (s: int)
    requires Caught(err)
    ensures err.Maelstro? ==> s == 400
    ensures err.Gn? ==> (s == 400 <==> err.code == 404 || err.code == 400)
    ensures err.Gn? && err.code != 404 ==> s == err.code
    ensures err.Request? ==> s == 504
  {
    match err
    case Maelstro(_) => 400
    case Gn(code, _, _, _) => if code != 404 then code else 400
    case Request(_, _) => 504
  }

  /** The body of the error answer: a summary and information for the two client families, then the operations. */
  function ErrorBody(err: Raised, requestUrl: string, operations: seq<Json>): (body: Dict<string, Json>)
    requires Caught(err)
    ensures "operations" in body.entries && body.entries["operations"] == JArr(operations)
    ensures "summary" in body.entries <==> !err.Maelstro?
    ensures "info" in body.entries <==> !err.Maelstro?
    ensures err.Gn? ==> body.entries["summary"] == JStr("HTTPException")
    ensures err.Request? ==> body.entries["summary"] == JStr("RequestException")
    ensures body.keys[|body.keys| - 1] == "operations"
  {
    var described :=
      match err
      case Maelstro(_) => Empty()
      case Gn(_, message, url, info) =>
        Put(Put(Empty(), "summary", JStr("HTTPException")),
            "info", JObj([("msg", JStr(message)), ("url", JStr(url)), ("content", info)]))
      case Request(className, text) =>
        Put(Put(Empty(), "summary", JStr("RequestException")),
            "info", JObj([("message", JStr("HTTP error " + className + " at " + requestUrl)), ("info", JStr(text))]));
    Put(described, "operations", JArr(operations))
  }

  /**
   * The answer of the wrapper, given what the route did, the request's url
   * and the records logged during the request.
   */
  function Answer(routed: Result<Json, Raised>, requestUrl: string, operations: seq<Json>): (r: Reply)
    ensures routed.Success? ==> r == Passed(routed.value)
    ensures routed.Failure? && !Caught(routed.error) ==> r == Propagated(routed.error)
    ensures routed.Failure? && Caught(routed.error) ==>
      && r.Answered?
      && r.statusCode == ErrorStatus(routed.error)
      && r.body == ErrorBody(routed.error, requestUrl, operations)
      && (r.audited <==> Contains(requestUrl, "/copy"))
  {
    match routed
    case Success(response) => Passed(response)
    case Failure(err) =>
      if !Caught(err) then Propagated(err)
      else Answered(ErrorBody(err, requestUrl, operations), ErrorStatus(err), Contains(requestUrl, "/copy"))
  }

  /** A caught `MaelstroException` is answered 400 whatever status code it carries. */
  lemma MaelstroStatusIgnored(e: CommonExceptions.MaelstroException, requestUrl: string, operations: seq<Json>)
    ensures Answer(Failure(Maelstro(e)), requestUrl, operations).statusCode == 400
  {
  }

  /**
   * Two requests that fail the same way, other than by a client error
   * (whose text quotes the url), get the same answer; only a copy request
   * is audited.
   */
  lemma AuditOnlyForCopies(err: Raised, operations: seq<Json>, copyUrl: string, otherUrl: string)
    requires Caught(err) && !err.Request?
    requires Contains(copyUrl, "/copy") && !Contains(otherUrl, "/copy")
    ensures var a, b := Answer(Failure(err), copyUrl, operations), Answer(Failure(err), otherUrl, operations);
      && a.audited && !b.audited
      && a.statusCode == b.statusCode && a.body == b.body
  {
  }

  /**
   * `exception_wrapper(request, call_next)`, once `get_georchestra_handler()`
   * has opened `g`: the route's outcome is a parameter. The answer is built
   * step by step as the source does; leaving the `with` block normally closes
   * the handler, an exception passed on leaves it open.
   */
  method ExceptionWrapper(g: Georchestra.GeorchestraHandler, requestUrl: string, routed: Result<Json, Raised>)
    returns (reply: Reply)
    modifies g.logHandler`valid
    ensures reply == Answer(routed, requestUrl, g.logHandler.GetJsonResponses())
    ensures g.logHandler.valid == (old(g.logHandler.valid) && reply.Propagated?)
  {
    if routed.Success? {
      Georchestra.CloseHandler(g.logHandler);
      return Passed(routed.value);
    }
    var err := routed.error;
    if !Caught(err) {
      return Propagated(err);
    }
    var response: Dict<string, Json> := Empty();
    var statusCode := 400;
    if err.Gn? {
      response := Put(response, "summary", JStr("HTTPException"));
      response := Put(response, "info", JObj([("msg", JStr(err.message)), ("url", JStr(err.url)), ("content", err.info)]));
      if err.code != 404 {
        statusCode := err.code;
      }
    } else if err.Request? {
      response := Put(response, "summary", JStr("RequestException"));
      response := Put(response, "info", JObj([
        ("message", JStr("HTTP error " + err.className + " at " + requestUrl)), ("info", JStr(err.text))]));
      statusCode := 504;
    }
    response := Put(response, "operations", JArr(g.logHandler.GetJsonResponses()));
    var audited := Contains(requestUrl, "/copy");
    Georchestra.CloseHandler(g.logHandler);
    return Answered(response, statusCode, audited);
  }
}
