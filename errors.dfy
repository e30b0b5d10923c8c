/**
 * Every exception the modelled code raises or lets through, as one value
 * type, so that callers can propagate it with `:-` and the HTTP middleware
 * can dispatch on it.
 */
module Errors {
  import CoreExceptions
  import CommonExceptions
  import Configuration

  datatype Error =
    /** `maelstro.core.exceptions.MaelstroException` and its subclasses. */
    | Core(core: CoreExceptions.MaelstroException)
    /** `maelstro.common.exceptions.MaelstroException` and its subclasses. */
    | Common(common: CommonExceptions.MaelstroException)
    /** `geonetwork.exceptions.GnException`: its code, message, request URL and info. */
    | Gn(code: int, message: string, url: string, info: string)
    /** A `requests.exceptions.RequestException` of the named class. */
    | Request(className: string, text: string)
    /** A `KeyError` or `ConfigError` from the configuration lookups. */
    | Config(failure: Configuration.ConfigFailure)
    /** `RuntimeError(message)`. */
    | Runtime(message: string)
    /** Any other built-in Python error, by class name (`TypeError`, `AttributeError`, ...). */
    | Builtin(name: string)
}
