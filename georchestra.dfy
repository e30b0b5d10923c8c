/**
 * The per-request service factory (backend/maelstro/core/georchestra.py):
 * it hands out GeoNetwork and GeoServer clients for configured instances
 * while the request's operation log is open, translating configuration
 * misses and rejected credentials into HTTP errors.
 *
 * The clients are reduced to their URL and credentials; the GeoServer
 * version probe is a parameter that reports how the probe request ended.
 */
module Georchestra {
  import opened Wrappers
  import opened Types
  import opened Json
  import opened Errors
  import CoreExceptions
  import Configuration
  import Operations

  /** A GeoNetwork API client for an instance. */
  datatype GnApi = GnApi(url: string, auth: Option<Credentials>)

  /** A GeoServer REST client for an instance. */
  datatype RestService = RestService(url: string, auth: Option<Credentials>)

  /** How `GET /rest/about/version.json` ended: a response, or an `HTTPError` with its status. */
  datatype Probe = ProbeOk | ProbeHttpError(status: int)

  const ClosedMessage := "GeorchestraHandler context invalid, handler already close"

  /**
   * The error `get_service_info` raises for a failed lookup: a configuration
   * miss becomes a `ParamError` (406) naming the instance, with context
   * "src" or "dst"; a `KeyError` passes through.
   */
  function LookupError(failure: Configuration.ConfigFailure, url: string, isSource: bool, isGeonetwork: bool): (e: Error)
    ensures failure.ConfigError? ==> e.Core? && e.core.kind == CoreExceptions.Param && e.core.statusCode == 406
    ensures failure.ConfigError? ==>
      && e.core.detail.key == Some(url)
      && (e.core.detail.context == "src" <==> isSource)
      && e.core.detail.err == Configuration.ServerKind(isGeonetwork) + " not found in config"
    ensures failure.KeyError? ==> e == Config(failure)
  {
    if failure.ConfigError? then
      Core(CoreExceptions.MaelstroException(CoreExceptions.Param, 406, CoreExceptions.DetailDict(
        Configuration.ServerKind(isGeonetwork) + " not found in config", 406,
        if isSource then "src" else "dst", None, Some(url), None)))
    else Config(failure)
  }

  /** `gs_info["auth"] and gs_info["auth"].login`. */
  function UserOf(auth: Option<Credentials>): Option<string> {
    if auth.None? then None else auth.value.login
  }

  class GeorchestraHandler {
    const logHandler: Operations.LogCollectionHandler
    const config: Configuration.Config

    constructor (logHandler: Operations.LogCollectionHandler, config: Configuration.Config)
      ensures this.logHandler == logHandler && this.config == config
    {
      this.logHandler := logHandler;
      this.config := config;
    }

    /** `get_service_info(url, is_source, is_geonetwork)`: the access info, or the translated lookup error. */
    method GetServiceInfo(url: string, isSource: bool, isGeonetwork: bool)
      returns (r: Result<Configuration.AccessInfo, Error>)
      ensures var info := config.GetAccessInfo(isSource, isGeonetwork, url);
        && (info.Success? ==> r == Success(info.value))
        && (info.Failure? ==> r == Failure(LookupError(info.error, url, isSource, isGeonetwork)))
    {
      var info := config.GetAccessInfo(isSource, isGeonetwork, url);
      if info.Success? {
        return Success(info.value);
      }
      if info.error.ConfigError? {
        var e := CoreExceptions.RaiseNew(CoreExceptions.Param,
          Configuration.ServerKind(isGeonetwork) + " not found in config",
          if isSource then "src" else "dst", Some(url));
        return Failure(Core(e));
      }
      return Failure(Config(info.error));
    }

    /**
     * `get_gn_service(instance_name, is_source)`: refused once the handler is
     * closed; otherwise a client for the configured URL and credentials.
     */
    method GetGnService(instanceName: string, isSource: bool) returns (r: Result<GnApi, Error>)
      ensures !logHandler.valid ==> r == Failure(Runtime(ClosedMessage))
      ensures logHandler.valid ==>
        var info := config.GetAccessInfo(isSource, true, instanceName);
        && (info.Success? ==> r == Success(GnApi(info.value.url, info.value.auth)))
        && (info.Failure? ==> r == Failure(LookupError(info.error, instanceName, isSource, true)))
    {
      if !logHandler.valid {
        return Failure(Runtime(ClosedMessage));
      }
      var info :- GetServiceInfo(instanceName, isSource, true);
      return Success(GnApi(info.url, info.auth));
    }

    /**
     * `get_gs_service(instance_name, is_source)`: like `get_gn_service`, then
     * the version probe: a 401 becomes `AuthError` "Invalid credentials"
     * naming the server and the login; any other HTTP error is swallowed and
     * the following read of the unbound response fails.
     */
    method GetGsService(instanceName: string, isSource: bool, probe: (string, Option<Credentials>) -> Probe)
      returns (r: Result<RestService, Error>)
      ensures !logHandler.valid ==> r == Failure(Runtime(ClosedMessage))
      ensures logHandler.valid ==>
        var info := config.GetAccessInfo(isSource, false, instanceName);
        && (info.Failure? ==> r == Failure(LookupError(info.error, instanceName, isSource, false)))
        && (info.Success? && probe(info.value.url, info.value.auth) == ProbeOk ==>
              r == Success(RestService(info.value.url, info.value.auth)))
        && (info.Success? && probe(info.value.url, info.value.auth) == ProbeHttpError(401) ==>
              r == Failure(Core(CoreExceptions.MaelstroException(CoreExceptions.Auth, 401, CoreExceptions.DetailDict(
                "Invalid credentials", 401, "src", Some(info.value.url), None, UserOf(info.value.auth))))))
        && (info.Success? && probe(info.value.url, info.value.auth).ProbeHttpError?
              && probe(info.value.url, info.value.auth).status != 401 ==>
              r == Failure(Builtin("UnboundLocalError")))
    {
      if !logHandler.valid {
        return Failure(Runtime(ClosedMessage));
      }
      var info :- GetServiceInfo(instanceName, isSource, false);
      match probe(info.url, info.auth)
      case ProbeOk =>
        return Success(RestService(info.url, info.auth));
      case ProbeHttpError(status) =>
        if status == 401 {
          var detail := new CoreExceptions.MaelstroDetail("Invalid credentials",
            server := Some(info.url), user := UserOf(info.auth));
          var e := CoreExceptions.Raise(CoreExceptions.Auth, detail);
          return Failure(Core(e));
        }
        return Failure(Builtin("UnboundLocalError"));
    }
  }

  /**
   * Entering `get_georchestra_handler()`: the shared log is emptied, the
   * start time reset, and the handler marked valid.
   */
  method OpenHandler(log: Operations.LogCollectionHandler, config: Configuration.Config, now: string)
    returns (g: GeorchestraHandler)
    requires log.Valid()
    modifies log
    ensures log.Valid() && log.valid
    ensures log.responses == []
    ensures log.properties == old(log.properties)["start_time" := JStr(now)]
    ensures log.context == old(log.context)
    ensures fresh(g) && g.logHandler == log && g.config == config
  {
    log.responses := [];
    log.SetProperty("start_time", JStr(now));
    log.valid := true;
    g := new GeorchestraHandler(log, config);
  }

  /**
   * Leaving `get_georchestra_handler()` normally marks the handler closed.
   * There is no `finally`: when the body raises, the handler stays valid.
   */
  method CloseHandler(log: Operations.LogCollectionHandler)
    modifies log`valid
    ensures !log.valid
  {
    log.valid := false;
  }
}
