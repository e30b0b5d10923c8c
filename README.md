# maelstro — a Dafny model of the copy core

maelstro copies a metadata record from one geOrchestra platform to another.
A record is copied from a source GeoNetwork to a destination GeoNetwork.
The GeoServer layers, styles, workspaces and datastores the record points to
are copied between GeoServers. This project models the backend's copy
planning and bookkeeping, and the small pieces of logic around it:

- **Clone** (`clone.dfy`): the layer and style replicator `CloneDataset`.
  - Both GeoServers are reached through one `Network` object. It answers
    every request from a fixed response function and records the request
    in an append-only trace. Each recorded request is tagged with a phase
    (Discover, Check, CopyStyle or CopyLayer).
  - The order of requests, and "no write before every check passed",
    become properties of that trace.
- **CopyManagement** (`copy_manager.dfy`): the orchestrator `CopyManager`.
  - It builds the preview and sequences styles, then layers, then
    metadata.
  - The GeoServer sync library is an oracle that answers each copy request
    with a status. What the GeoNetwork API returns (the record archive, the
    upload answer) is passed in as parameters.
- **Operations** (`operations.dfy`): `raise_for_status` and the request log
  `LogCollectionHandler`, a class holding records, properties and the
  current context label.
- **Configuration** (`config.dfy`): the structural keys a loaded document
  must have, credential inheritance, environment overrides, source and
  destination listings, and `get_access_info`. The environment and the
  YAML loader are parameters.
- **Metadata** (`meta.dfy`): the schema and prefix chosen from the index
  row, and the OGC link filter over an abstract XML node type.
- **Georchestra** (`georchestra.dfy`): the handler's validity window, the
  lookup-error translation and the 401 branch of the GeoServer probe.
- **CoreExceptions** and **CommonExceptions**: the two exception
  hierarchies and the status each subclass forces.
- **AuditLog** (`audit_log.dfy`): the audit row, its text form, the
  listing order and pagination, and the record written for a request.
- **Middleware** (`middleware.dfy`): the mapping from exception to status
  code, body and audit decision.
- **Health** (`health.dfy`): the health-check countdown of both FastAPI
  applications.
- **I18n** (`i18n.dfy`): browser-language detection and the locale options
  of the frontend.
- **Formatters** (`formatters.dfy`): the line pairing of search-engine
  error messages.
- **Types** (`types.dfy`): the `GsLayer` key and its string form.
- **Helper modules** that give Python's built-ins a meaning:
  - Wrappers: Option, Result, Outcome;
  - Strings: split, join, find, replace, strip;
  - Dicts: an insertion-ordered dict;
  - Sequences;
  - Json: an abstract JSON value.

Remote calls, the clock, the environment, JSON and XML parsing and HTML
unescaping are parameters: oracles, functions or values passed in.

## Model

| member | source | states |
|---|---|---|
| Types.LayerToStringShapes | backend/maelstro/common/types.py:7 | `str(GsLayer(w, l))` is `w:l` when both are present, the present field alone when the other is `None`, and "" when both are `None`. An empty field is kept. |
| Types.LayerToStringExamples | backend/maelstro/common/types.py:7 | "ws:velo", "velo", ":velo" and "" for the four field shapes. |
| Types.LayerToStringSplits | backend/maelstro/common/types.py:7 | Splitting the string form of a fully qualified key at ":" gives back its two fields, provided neither field contains ":". |
| Types.LayerToStringInjective | backend/maelstro/common/types.py:6-7 | Two fully qualified keys whose fields contain no ":" are equal when their string forms are equal. |
| Types.Present | backend/maelstro/common/types.py:7 | The filter `el for el in l if el is not None` keeps a string exactly when some field holds it. It keeps every field when none is `None`, and never more fields than it is given. |
| Types.PresentAppend | backend/maelstro/common/types.py:7 | Filtering a concatenation gives the filtered parts, in order. With `Types.PresentSingle` this pins the result down: the `Some` values, in field order. |
| Types.PresentSingle | backend/maelstro/common/types.py:7 | One present field is kept as its value, and one `None` field is dropped. |
| I18n.DetectBrowserLanguage | frontend/src/plugins/i18n.ts:4-9 | The locale is always "en" or "fr". It is "fr" exactly when the primary subtag is "fr". frontend/src/main.ts:11-16 repeats the same detection. |
| I18n.DetectIgnoresRegion | frontend/src/plugins/i18n.ts:7 | Only the part before the first "-" counts. `p-anything` is detected as `p`. |
| I18n.DetectIsCaseSensitive | frontend/src/plugins/i18n.ts:8 | "FR" falls back to "en", while "fr-FR" gives "fr". |
| I18n.PluginOptions | frontend/src/plugins/i18n.ts:11-19 | The detected locale with fallback "en". The English table has exactly the French keys, each mapped to itself. The French table is the catalogue. |
| I18n.MainOptions | frontend/src/main.ts:18-25 | The detected locale with fallback "en", no English messages, and the French catalogue. |
| Health.Step | backend/maelstro/main.py:35-39 | A call is healthy exactly when the countdown is not positive. A positive countdown is decremented; otherwise it is unchanged. |
| Health.AfterClamps | backend/maelstro/main.py:36-37 | From a non-negative start `c`, the countdown after `n` calls is `c - n`, stopping at 0. |
| Health.HealthyFromSixthCall | backend/maelstro/main.py:18-39 | Call `n` (from 1) is healthy exactly when `n >= 6`, although the docstring says the fifth. |
| Health.HealthyStaysHealthy | backend/maelstro/main.py:35-40 | The countdown never goes negative, and once a call is healthy every later call is. |
| Health.App.constructor | backend/maelstro/main.py:18 | The countdown starts at 5. |
| Health.App.HealthCheck | backend/maelstro/main.py:29-40 | The new countdown and the healthy flag are one step of the countdown. Status 404 with "unhealthy", or 200 with "healthy". `user` is always `None`. backend/main.py:12-19 has the same code. |
| Health.RootPage | backend/maelstro/main.py:21-26 | The body is the one-field object `{"Hello": "World"}`. backend/main.py:7-9 has the same code. |
| CoreExceptions.ForcedStatus | backend/maelstro/core/exceptions.py:23-38 | `AuthError` forces 401, `UrlError` 404 and `ParamError` 406. The base class keeps the detail's status. |
| CoreExceptions.MaelstroDetail.constructor | backend/maelstro/core/exceptions.py:5-12 | The dataclass fields, with status 500, context "src" and `None` for server, key and user by default. |
| CoreExceptions.MaelstroDetail.AsDict | backend/maelstro/core/exceptions.py:14-15 | `asdict` holds all six fields with their current values. |
| CoreExceptions.Raise | backend/maelstro/core/exceptions.py:18-38 | The subclass overwrites the caller's detail status in place and leaves the other fields alone. The exception carries that status and the dict of the updated detail. |
| CoreExceptions.RaiseNew | backend/maelstro/core/exceptions.py:5-38 | A new detail raised through a subclass carries the forced status, or 500 for the base class, and the given err, context and key. |
| CommonExceptions.MakeDetail | backend/maelstro/common/models.py:136-143 | Building `ExceptionDetail(**kwargs)` fails exactly when `err` is missing. Otherwise each field is the given value or its default: 500, "src", `None`, and `[]` operations. |
| CommonExceptions.Raise | backend/maelstro/common/exceptions.py:4-24 | Construction fails exactly when `err` is missing. Otherwise `AuthError` gives 401, `UrlError` 404, `ParamError` 400 (not 406), and the base class the given or default status. `err`, `context`, `server`, `key`, `user` and `operations` come from the kwargs, or take their defaults. |
| Operations.RaiseForStatus | backend/maelstro/core/operations.py:20-26 | Raises exactly when `400 <= status < 600`, with the method-and-url message, the status and the response text as context. |
| Operations.RecordFor | backend/maelstro/core/operations.py:56-77 | A record with a response gives a GN, GS or plain API record, chosen by logger name, tagged with the current context. A record without one gives an info record with detail `{"src": "generic logger"}`. |
| Operations.LogCollectionHandler.constructor | backend/maelstro/core/operations.py:33-39 | No records, properties holding only `start_time`, and the "General" context. |
| Operations.LogCollectionHandler.EnterContext | backend/maelstro/core/operations.py:41-45 | Sets the new context and returns the previous one. |
| Operations.LogCollectionHandler.ExitContext | backend/maelstro/core/operations.py:46 | Restores the saved context. |
| Operations.LogCollectionHandler.Emit | backend/maelstro/core/operations.py:48-77 | Nothing is appended when the current logger id differs from the handler's. Otherwise exactly the record `RecordFor` describes is appended. |
| Operations.LogCollectionHandler.LogInfo | backend/maelstro/core/operations.py:79-81 | The record, tagged with the current context, is appended at the end. |
| Operations.LogCollectionHandler.SetProperty | backend/maelstro/core/operations.py:83-87 | The key now maps to the value and the other keys are unchanged. `start_time` stays present. |
| Operations.LogCollectionHandler.GetJsonResponses | backend/maelstro/core/operations.py:89-93 | One dumped entry per record, in the same order. |
| Georchestra.LookupError | backend/maelstro/core/georchestra.py:62-78 | A configuration miss becomes a `ParamError` (406) keyed by the instance, with context "src" exactly for a source and the err "<geonetwork\|geoserver> not found in config". A `KeyError` passes through. |
| Georchestra.GeorchestraHandler.constructor | backend/maelstro/core/georchestra.py:16-18 | The handler shares the request log. |
| Georchestra.GeorchestraHandler.GetServiceInfo | backend/maelstro/core/georchestra.py:59-79 | The access info when the lookup succeeds, otherwise the translated lookup error. |
| Georchestra.GeorchestraHandler.GetGnService | backend/maelstro/core/georchestra.py:20-26 | Refused with a `RuntimeError` once the handler is closed. Otherwise a client for the configured URL and credentials, or the lookup error. |
| Georchestra.GeorchestraHandler.GetGsService | backend/maelstro/core/georchestra.py:28-57 | Refused once the handler is closed. A 401 on the version probe gives `AuthError` "Invalid credentials" naming the server and the login (or `None`). Any other HTTP error leaves `resp` unbound. |
| Georchestra.OpenHandler | backend/maelstro/core/georchestra.py:82-87 | Entering the context clears the records, resets `start_time` and marks the log valid. |
| Georchestra.CloseHandler | backend/maelstro/core/georchestra.py:88 | A normal exit marks the log invalid. |
| Middleware.ErrorStatus | backend/maelstro/middleware.py:20-43 | 400 for a `MaelstroException`, whatever its own status. A `GnException` keeps its code unless it is 404, which gives 400. 504 for a `RequestException`. |
| Middleware.ErrorBody | backend/maelstro/middleware.py:19-44 | "operations" is always present and comes last. "summary" and "info" are present exactly for the two client exceptions, with summaries "HTTPException" and "RequestException". |
| Middleware.Answer | backend/maelstro/middleware.py:13-52 | A successful response passes through and an uncaught exception propagates. A caught one gets the error status and body, and is audited exactly when the URL contains "/copy". |
| Middleware.MaelstroStatusIgnored | backend/maelstro/middleware.py:18-20 | A caught `MaelstroException` is answered 400 whatever status it carries. |
| Middleware.AuditOnlyForCopies | backend/maelstro/middleware.py:45-51 | Two requests that fail the same way get the same status and body. Only the one whose URL contains "/copy" is audited. |
| Middleware.ExceptionWrapper | backend/maelstro/middleware.py:13-52 | The answer built step by step equals `Answer`. The handler is closed unless the exception propagates. |
| Formatters.RStripDotsRemovesTrailingDots | backend/maelstro/common/formatters.py:12 | `rstrip(".")` leaves a prefix that does not end in a dot and removes only dots. |
| Formatters.FormatESError | backend/maelstro/common/formatters.py:6-18 | The `while` loop over `i` builds exactly the dict the recursive reading of the loop, `Pairing`, describes. |
| Formatters.MissingMessage | backend/maelstro/common/formatters.py:7-16 | A missing message gives `{"info_0": ""}`. |
| Formatters.KeysComeFromLines | backend/maelstro/common/formatters.py:10-17 | Every key is either a line that has a next line, so the last line is never a key, or `info_j` for a line index `j`. |
| Formatters.InfoKeysFromBelow | backend/maelstro/common/formatters.py:16 | The `info_` keys added from line `i` on name line indices at or after `i`. |
| Formatters.InfoKeyInjective | backend/maelstro/common/formatters.py:16 | Distinct line indices give distinct `info_` keys. |
| Formatters.InfoLineAdded | backend/maelstro/common/formatters.py:14-17 | Adding a free line keeps the keys in line order and leaves later `info_` keys unused. |
| Formatters.NoJsonKeepsEveryLine | backend/maelstro/common/formatters.py:14-17 | With no JSON line, the keys are `info_i` for every line that is not ".", in line order. |
| Formatters.PairingJsonStep | backend/maelstro/common/formatters.py:12-13 | A line followed by a JSON line becomes that value's key, and the loop skips both lines. |
| Formatters.PairingInfoStep | backend/maelstro/common/formatters.py:14-17 | A line that is not "." and is not followed by a JSON line is kept under `info_i`, and the loop moves on by one. |
| Formatters.FreeLineThenTwoPairs | backend/maelstro/common/formatters.py:10-17 | A free line followed by two line-and-JSON pairs gives `info_0`, then the two keys with their values, in that order. |
| Formatters.SearchErrorShape | backend/tests/test_API.py:30 | The search engine's error shape gives the keys `['info_0', 'Request:', 'Error:']` in that order. |
| Metadata.SchemaPrefix | backend/maelstro/metadata/meta.py:7-34 | "iso19139" gives "gmd" and "iso19115-3.2018" gives "cit". Any other schema gives no prefix. |
| Metadata.MakeMeta | backend/maelstro/metadata/meta.py:23-34 | An empty index stops the row iterator. It fails with `KeyError` exactly when the first row has no `uuid` or `{uuid}/metadata/metadata.xml` is missing. Otherwise the properties are the first row, the XML is that document, and the prefix is that of the schema, "iso19139" by default. |
| Metadata.MetaPrefixes | backend/maelstro/metadata/meta.py:32-34 | With no schema the prefix is "gmd". With "iso19115-3.2018" it is "cit". |
| Metadata.WithTag | backend/maelstro/metadata/meta.py:41-43 | `findall` keeps exactly the elements with the tag, each of them one of the given elements. |
| Metadata.FindChild | backend/maelstro/metadata/meta.py:76 | `find` gives a child with the tag, or nothing when no child has it. |
| Metadata.FirstWithTag | backend/maelstro/metadata/meta.py:76 | The element found is one of the elements and has the tag. Nothing is found only when no element has the tag. |
| Metadata.FirstWithTagIsFirst | backend/maelstro/metadata/meta.py:76 | An element with the tag that no earlier element matches is the one found. |
| Metadata.PropertyFromLink | backend/maelstro/metadata/meta.py:75-81 | `None` when the tag or its first child is missing. Otherwise the text of that child, which a missing text prints as "None". |
| Metadata.LayerProperties | backend/maelstro/metadata/meta.py:53-73 | The four fields `server_url`, `name`, `description` and `protocol`, each read from its own prefixed tag. |
| Metadata.OgcLayers | backend/maelstro/metadata/meta.py:39-45 | The comprehension gives at most one entry per link. Its order is stated by `Metadata.OgcLayersInDocumentOrder`. |
| Metadata.OgcLayersStep | backend/maelstro/metadata/meta.py:39-45 | The first link gives the first entry exactly when it is an OGC link. The remaining entries are those of the remaining links. |
| Metadata.OgcLayersCount | backend/maelstro/metadata/meta.py:39-45 | There are as many entries as OGC links. |
| Metadata.OgcLayersInDocumentOrder | backend/maelstro/metadata/meta.py:39-45 | Entry `k` is the properties of the `k`-th OGC link of the document. |
| Metadata.OgcLayersOrdered | backend/maelstro/metadata/meta.py:39-45 | Of two entries, the later one comes from a later link. |
| Metadata.OgcLayersAppend | backend/maelstro/metadata/meta.py:39-45 | The entries of two runs of links are those of the first run, then those of the second. |
| Metadata.OgcLayersComplete | backend/maelstro/metadata/meta.py:39-45 | Every OGC link gives an entry. |
| Metadata.OgcLayersAreOgc | backend/maelstro/metadata/meta.py:44-51 | Every entry carries an OGC protocol. |
| Metadata.OgcLayersFromLinks | backend/maelstro/metadata/meta.py:39-45 | Every entry is the properties of some OGC link of the list, so nothing is invented. |
| Metadata.GetOgcGeoserverLayers | backend/maelstro/metadata/meta.py:36-45 | The OGC links among all `CI_OnlineResource` elements, in document order. An unknown schema (no prefix) makes the XPath fail. |
| Metadata.IsOgcProtocolIff | backend/maelstro/metadata/meta.py:47-51 | A protocol is OGC exactly when it has at least seven characters whose lower-case form is "ogc:wms", "ogc:wfs" or "ogc:wcs". |
| Metadata.IsOgcProtocolIgnoresCase | backend/maelstro/metadata/meta.py:51 | Letter case does not change the verdict. |
| Metadata.OgcProtocolExamples | backend/maelstro/metadata/meta.py:51 | "OGC:WMS", "OGC:WFS", "ogc:wcs" and "OGC:WFS-G" qualify. "OGC:WMTS", "WWW:LINK" and "OGC:WM" do not. |
| Configuration.ReadValueFromEnv | backend/maelstro/config/config.py:146-154 | The `<type>_env_var` key is always removed, and no key other than the value and that key changes. |
| Configuration.ReadValueFromEnvValue | backend/maelstro/config/config.py:149-153 | The value is the environment's when the named variable is set, and the entry's own otherwise. |
| Configuration.Inherit | backend/maelstro/config/config.py:133-138 | An inherited value fills the key only when the entry lacks it. No other key changes. |
| Configuration.SubstituteSingle | backend/maelstro/config/config.py:127-143 | The returned `Credentials` are the entry's resulting login and password. |
| Configuration.SubstitutePrecedence | backend/maelstro/config/config.py:127-154 | Each credential resolves to the named environment variable if set, else the entry's own value, else the inherited one. Both `_env_var` keys are gone, and every other key is unchanged. |
| Configuration.SubstituteReturnsResolved | backend/maelstro/config/config.py:143 | The returned pair is the resolved login and password. |
| Configuration.SubstituteAll | backend/maelstro/config/config.py:36-40 | Every entry of an instance list is substituted, and the list keeps its length. |
| Configuration.SubstituteEach | backend/maelstro/config/config.py:36-40 | The in-place loop over an instance list gives the substituted list. |
| Configuration.SubstituteDestinations | backend/maelstro/config/config.py:42-50 | Every destination is substituted under its key, and the key order is kept. |
| Configuration.SubstituteEachDestination | backend/maelstro/config/config.py:42-50 | The in-place loop over the destinations gives the substituted dict. |
| Configuration.SubstituteOneMore | backend/maelstro/config/config.py:42-50 | Substituting the next destination extends the loop's prefix of rewritten entries by one. |
| Configuration.SourceCredentialsReachInstances | backend/maelstro/config/config.py:33-40 | Each source GeoServer's credential is its own, or its environment variable's, falling back to the value resolved at the sources level. |
| Configuration.SourceCredentialsReachGnInstances | backend/maelstro/config/config.py:33-37 | The same for each source GeoNetwork. |
| Configuration.DestinationCredentialsReachServers | backend/maelstro/config/config.py:42-50 | A destination's resolved credentials reach its GeoNetwork and GeoServer entries. Values set on an entry itself win. |
| Configuration.FirstIncomplete | backend/maelstro/config/config.py:42-50 | The first destination, in key order, lacking its `geonetwork` or `geoserver` entry. Every earlier one has both. |
| Configuration.Destinations | backend/maelstro/config/config.py:42-50 | A complete destination dict keeps its keys, order and entries. |
| Configuration.Shape | backend/maelstro/config/config.py:32-50 | `read_all_credentials` raises `KeyError` for the first missing structural key, in reading order: `sources`, `geonetwork_instances`, `geoserver_instances`, `destinations`, then per destination `geonetwork` before `geoserver`. A document with all of them becomes the configuration with the same entries. |
| Configuration.EmptyDocumentShaped | backend/maelstro/config/config.py:11-17 | `EMPTY_CONFIG` has every structural key and nothing under any of them. |
| Configuration.NewConfig | backend/maelstro/config/config.py:21-30 | The file named by the environment variable is loaded, or `EMPTY_CONFIG`. A missing structural key is the `KeyError` of `Configuration.Shape`, and no configuration is made. Otherwise the configuration is the credential-resolved document. |
| Configuration.Config.constructor | backend/maelstro/config/config.py:21-30 | For a document with every structural key, the configuration is its credential-resolved form. |
| Configuration.Config.ReadAllCredentials | backend/maelstro/config/config.py:32-50 | The configuration becomes the credential-resolved document. |
| Configuration.MissingKey | backend/maelstro/config/config.py:54-66 | No key is reported exactly when the entry has every key. A reported key is one of the keys and is missing from the entry. |
| Configuration.FirstMissing | backend/maelstro/config/config.py:52-69 | A comprehension raises no `KeyError` exactly when every entry has every key it reads. |
| Configuration.Config.GetGnSources | backend/maelstro/config/config.py:52-56 | Succeeds exactly when every source GeoNetwork has `name` and `api_url`. Then it gives one pair per instance, in configured order. |
| Configuration.Config.GetGsSources | backend/maelstro/config/config.py:58-59 | Succeeds exactly when every source GeoServer has `url`. Then it gives one URL per instance, in configured order. |
| Configuration.Config.GetDestinations | backend/maelstro/config/config.py:61-69 | Succeeds exactly when every destination has both URLs. Then it gives one row per destination, in key order. |
| Configuration.DestinationRows | backend/maelstro/config/config.py:62-69 | The rows for the keys in order. The first missing URL key fails the comprehension. |
| Configuration.FirstMatch | backend/maelstro/config/config.py:77-95 | The first entry whose field equals the id, with every earlier entry differing. No match exactly when every entry has the field and differs. A missing field before the match is a `KeyError`. |
| Configuration.AccessOf | backend/maelstro/config/config.py:117-124 | Fails exactly when the URL key is missing. `auth` is `None` exactly when login or password is missing, and is the pair otherwise. |
| Configuration.Config.GetAccessInfo | backend/maelstro/config/config.py:71-124 | Source GeoNetworks are matched by `name`, source GeoServers by `url` and destinations by key, and the first match wins. A source entry missing the field before the match passes its `KeyError` through. An unknown id is a `ConfigError` with the message naming the server kind and role. A returned `auth` always has both parts. |
| AuditLog.ToDict | backend/maelstro/logging/psql_logger.py:53-58 | The dictionary has every column except `details`, which it has exactly when details are asked for. Each entry is that column's value. |
| AuditLog.ToDictWithoutDetails | backend/maelstro/logging/psql_logger.py:53-58 | Without details, the dictionary is the full one minus the `details` entry and nothing else. |
| AuditLog.RowFromColumns | backend/maelstro/logging/psql_logger.py:31-58 | A dictionary holding every column of a row reads back as that row. |
| AuditLog.ToDictRoundTrip | backend/maelstro/logging/psql_logger.py:53-58 | The dictionary with details loses nothing: the row reads back from it. |
| AuditLog.OperationNames | backend/maelstro/logging/psql_logger.py:95-100 | "metadata", "couches" and "styles" are each listed exactly when their flag is set. They appear in that fixed order, and none is empty. |
| AuditLog.JoinNonEmpty | backend/maelstro/logging/psql_logger.py:96 | Joining a non-empty list whose first piece is non-empty gives a non-empty string. |
| AuditLog.CopyOperationsEmpty | backend/maelstro/logging/psql_logger.py:95-100 | The operations text is empty exactly when no copy flag is set. |
| AuditLog.StampVerdict | backend/maelstro/logging/psql_logger.py:103-104 | The stamp starts with `[start]: <succes>` exactly when the status is 200. |
| AuditLog.PrefixOfPrefix | backend/maelstro/logging/psql_logger.py:102-109 | When the shorter of two prefixes of a line is itself a prefix of the longer, it is a prefix of the line, and conversely. |
| AuditLog.FormatRowVerdict | backend/maelstro/logging/psql_logger.py:102-109 | A log line reads "succes" after its time stamp exactly when the status is 200. |
| AuditLog.FormatRowOperations | backend/maelstro/logging/psql_logger.py:102-109 | A log line ends with the requested copy operations between parentheses. |
| AuditLog.LineStartsWithStamp | backend/maelstro/logging/psql_logger.py:102-109 | A line begins with its stamp. |
| AuditLog.LineEndsWithOperations | backend/maelstro/logging/psql_logger.py:102-109 | A line ends with the parenthesized operations. |
| AuditLog.NewestFirst | backend/maelstro/logging/psql_logger.py:89 | Ordering by id descending, on a table stored in insertion order, lists the table from its last row to its first. |
| AuditLog.NewestFirstSorted | backend/maelstro/logging/psql_logger.py:89 | When ids increase with insertion, the listing has strictly decreasing ids. |
| AuditLog.NewestFirstPermutation | backend/maelstro/logging/psql_logger.py:89 | The listing holds every row of the table exactly as often as the table does. |
| AuditLog.Window | backend/maelstro/logging/psql_logger.py:89 | `offset` then `limit`: the page is empty past the end, otherwise at most `size` rows, starting at row `offset`. |
| AuditLog.PagesTile | backend/maelstro/logging/psql_logger.py:89 | Two consecutive pages together are the page of their combined size. No row is skipped or repeated. |
| AuditLog.Page | backend/maelstro/logging/psql_logger.py:85-90 | Row `i` of a page is the table row at `offset + i` counted from the newest, and the page has the size `limit` and `offset` allow. |
| AuditLog.GetLogs | backend/maelstro/logging/psql_logger.py:85-90 | `get_logs` gives exactly that page's rows as dictionaries, with details when asked. |
| AuditLog.FormatLogs | backend/maelstro/logging/psql_logger.py:93-111 | `format_logs` gives exactly that page's rows, one formatted line each. |
| AuditLog.ToBool | backend/maelstro/logging/psql_logger.py:61-62 | The pydantic boolean spellings, in any case, parse to their value: "1", "on", "t", "true", "y", "yes" give true and "0", "off", "f", "false", "n", "no" give false. Every other text, and a missing parameter, is a validation error. |
| AuditLog.LogRequestRecord | backend/maelstro/logging/psql_logger.py:65-81 | The record is built exactly when all three copy flags parse. Otherwise the first flag that does not parse raises. The start time and titles are the handler's properties. The end time is now. The first and last names are the `sec-firstname`/`sec-lastname` headers. The dataset and the instance names are the query parameters. The flags are the parsed values, the status is the given one, and the details are the handler's JSON responses. |
| AuditLog.RecordHasStartTime | backend/maelstro/logging/psql_logger.py:65-67 | A record from a valid handler always has a start time. |
| AuditLog.OrDefault | backend/maelstro/logging/psql_logger.py:36-50 | A column receives the given value, or its default when the value is `None`. |
| AuditLog.RowOf | backend/maelstro/logging/psql_logger.py:31-51 | `Log(**record)` as inserted. Every column holds the record's value, or its declared default where the record holds `None`: "" for the text columns, and the module's load time for `start_time`. The id is the given one. Only a start time or title that is neither text nor `None` gives no row. |
| AuditLog.LogToDb | backend/maelstro/logging/psql_logger.py:114-117 | The insertion succeeds unless a start time or title is neither text nor `None`. Missing values never stop it. The table then gains exactly that row, at the end, with the next id. |
| AuditLog.MissingValuesGetDefaults | backend/maelstro/logging/psql_logger.py:36-45 | A record without user, dataset, instance names, titles or start time is still inserted, with "" in each of those columns and the load time as its start. |
| AuditLog.RequestRecordInserted | backend/maelstro/logging/psql_logger.py:65-117 | Every record `log_request_to_db` builds is inserted when the handler's start time and titles are text or unset. |
| AuditLog.InsertKeepsIdsIncreasing | backend/maelstro/logging/psql_logger.py:114-117 | An insertion keeps ids increasing in insertion order. |
| AuditLog.InsertedRowListedFirst | backend/maelstro/logging/psql_logger.py:85-117 | After an insertion, the first page of size one is the inserted row. |
| Clone.Gets | backend/maelstro/core/clone.py:143-146 | One GET per route, on the given host, in the order of the routes. |
| Clone.GetsAppend | backend/maelstro/core/clone.py:143-146 | The GETs of one more route are the earlier GETs followed by that one. |
| Clone.Network.constructor | backend/maelstro/core/clone.py:141 | A new connection holds its reply function and has sent nothing yet. |
| Clone.Network.Send | backend/maelstro/core/clone.py:144 | A request is appended to the trace, and its reply is the server's reply to it. |
| Clone.StatusCheck | backend/maelstro/core/operations.py:20-26 | `raise_for_status` fails exactly on an HTTP error status, and the error carries that status. |
| Clone.Named | backend/maelstro/core/clone.py:191-193 | Each style is paired with its own name, in order. |
| Clone.StylesFromLayerByName | backend/maelstro/core/clone.py:184-194 | A style that no later style shares a name with is in the style map under its name. |
| Clone.StylesFromLayerKeys | backend/maelstro/core/clone.py:184-194 | A name is a key of the style map exactly when the default style or an additional style has it. |
| Clone.SingleStyleAsList | backend/maelstro/core/clone.py:186-190 | A single style object gives the same style map as a one-element list. |
| Clone.KeysOfItems | backend/maelstro/core/clone.py:155 | The keys of a dict's items are the dict's keys. |
| Clone.CollectStylesKeys | backend/maelstro/core/clone.py:153-155 | After the updates, a name is a key exactly when some style of some layer has it. |
| Clone.StyleWorkspacesEntries | backend/maelstro/core/clone.py:157-162 | Only styles with a workspace add an entry, and it is `None`. Styles without one add nothing. |
| Clone.XmlRouteOf | backend/maelstro/core/clone.py:278 | A route whose only dot starts `.json` gets `.xml` in its place. |
| Clone.PostRoute | backend/maelstro/core/clone.py:279-283 | The POST route is a prefix of the route. When it differs, the route ended in `/<segment>.xml` and exactly that segment was removed. |
| Clone.PostRouteOf | backend/maelstro/core/clone.py:279-283 | `<prefix>/<segment>.xml` posts to `<prefix>` when the segment has no slash. |
| Clone.XmlRouteSplits | backend/maelstro/core/clone.py:279-283 | `<prefix>/<segment>.xml` has its last slash right after the prefix and ends in `.xml`. |
| Clone.PostRouteKeepsOthers | backend/maelstro/core/clone.py:279-283 | A route that does not end in `.xml` is its own POST route. |
| Clone.ResourceRoutesOf | backend/maelstro/core/clone.py:278-283 | A feature-type route `<collection>/<name>.json` reads as `.xml` and posts to `<collection>`. |
| Clone.StylePostRoute | backend/maelstro/core/clone.py:341-345 | The route is unchanged, or everything from a "/styles/" up to a later ".json" collapses to "/styles". |
| Clone.StylePostRouteOf | backend/maelstro/core/clone.py:341-345 | `<prefix>/styles/<name>.json` posts to `<prefix>/styles` when the prefix holds no "/styles/". |
| Clone.StyleRouteSplits | backend/maelstro/core/clone.py:341-345 | `<prefix>/styles/<name>.json` has "/styles/" right after the prefix and ends in ".json". |
| Clone.ResourceActionFor | backend/maelstro/core/clone.py:286-306 | Resource 200 without layer 200 means delete and recreate. Both 200 means update. Any other resource status means create. |
| Clone.RewriteLink | backend/maelstro/core/clone.py:272-273 | A link into the source server becomes the same path on the destination. |
| Clone.BindingBodyUnchanged | backend/maelstro/core/clone.py:272-273 | A document without the source URL, or a copy onto the same URL, is sent unchanged. |
| Clone.MissingOnDestinationAsWritten | backend/maelstro/core/clone.py:238-246 | As written, the 404 branch raises `TypeError`, because `MaelstroDetail` has no `operations` field. |
| Clone.MissingOnDestination | backend/maelstro/core/clone.py:238-246 | The intended `ParamError`: status 406, context "dst", keyed by the probed route, naming the missing workspace or datastore and the destination. |
| Clone.MissingOnDestinationDiffers | backend/maelstro/core/clone.py:238-246 | For every input, the as-written error is not the intended `ParamError`, nor any core exception. |
| Clone.RouteNotFound | backend/maelstro/core/clone.py:307-314 | A 404 on the POST of a new resource is a `ParamError` (406) in context "dst", keyed by the POST route. |
| Clone.ResourceWrites | backend/maelstro/core/clone.py:286-306 | The writes each decision sends to the destination: DELETE then POST, a PUT on the `.xml` route, or a POST to the collection. |
| Clone.GrowsTrans | backend/maelstro/core/clone.py:137-182 | Two extensions by the same step make one. |
| Clone.GrowsByOne | backend/maelstro/core/clone.py:137-182 | Appending requests of one step (only reads, for a read-only step) extends the trace by that step. |
| Clone.GetsGrow | backend/maelstro/core/clone.py:143-146 | Appending GETs extends the trace by their step. |
| Clone.StagesSound | backend/maelstro/core/clone.py:137-182 | Discovery, checks, style copies and layer copies in that order make a sound step, provided the checks passed whenever anything was written. |
| Clone.SoundCutsExtend | backend/maelstro/core/clone.py:139-182 | Adding a sound server step to sound steps keeps every step sound. |
| Clone.BoundCutsExtend | backend/maelstro/core/clone.py:139-182 | Adding a step that binds all of the next server's layers keeps every server's layers bound. |
| Clone.StyleCopiedOf | backend/maelstro/core/clone.py:327-356 | Successful reads, a destination lookup, a write that did not fail where it is checked, and a successful definition PUT make up a copied style. |
| Clone.LayerCopiedOf | backend/maelstro/core/clone.py:270-320 | The probes, then successful resource writes, then a successful binding PUT make up a copied layer. |
| Clone.BindingAfterResourceWrite | backend/maelstro/core/clone.py:286-320 | In every branch, the binding PUT to `/rest/layers/{name}` is the last request. A successful PUT or POST of the resource comes right before it. No earlier write in the step touches the binding route unless it coincides with a resource route. |
| Clone.ResourceRoutes | backend/maelstro/core/clone.py:210-213 | One stripped resource link per resource, in order. |
| Clone.StoreRoutes | backend/maelstro/core/clone.py:251 | One stripped store link per store, in dict order. |
| Clone.WorkspaceRoutes | backend/maelstro/core/clone.py:232-236 | `/rest/workspaces/{name}` for a `None` entry, otherwise the stripped link, in dict order. |
| Clone.LayerDocRoutes | backend/maelstro/core/clone.py:144 | `/rest/layers/{name}.json` for each name, in order. |
| Clone.AsLayers | backend/maelstro/core/clone.py:146 | The fetched bodies read as layer documents, under the same keys. |
| Clone.PassedTrans | backend/maelstro/core/clone.py:171-172 | Passed checks on two consecutive stretches are passed checks on both. |
| Clone.BoundGrows | backend/maelstro/core/clone.py:180-182 | A layer bound in part of a trace is bound in the whole. |
| Clone.StyleWrittenGrows | backend/maelstro/core/clone.py:175-177 | A style written in part of a trace is written in the whole. |
| Clone.StyleCopiedWritten | backend/maelstro/core/clone.py:336-348 | A copied style was PUT to its route or POSTed to its collection on the destination. |
| Clone.LayerCopiedBound | backend/maelstro/core/clone.py:317-320 | A copied layer has its binding PUT. |
| Clone.DiscoveryThenSound | backend/maelstro/core/clone.py:141-170 | Discovery reads in front of a sound step keep it sound. |
| Clone.CloneDataset.constructor | backend/maelstro/core/clone.py:21-31 | The names, the flags and the handler are those given, and no destination client is cached yet. |
| Clone.CloneDataset.GsDst | backend/maelstro/core/clone.py:45-48 | A cached client is returned unchanged. Otherwise the lookup's client is cached and returned. A failed lookup caches nothing. |
| Clone.CloneDataset.FetchLayers | backend/maelstro/core/clone.py:142-146 | Only discovery reads. On success: one GET of `/rest/layers/{name}.json` per name, in order; the dict has exactly the names, each mapped to its reply's body. |
| Clone.CloneDataset.GetStoresFromLayers | backend/maelstro/core/clone.py:202-218 | Only discovery reads. On success: one GET per distinct resource, in order. Every reply names the store for its resource's class. The result is those stores put in turn under their names. |
| Clone.CloneDataset.AddStoreWorkspaces | backend/maelstro/core/clone.py:220-229 | Only discovery reads. On success: one GET per store, in dict order. Every reply names the workspace for its store's class. The result is the given dict with those workspaces put in turn under their names. |
| Clone.NamedStoresStep | backend/maelstro/core/clone.py:210-217 | One more resource whose reply names a store adds exactly that store under its name. |
| Clone.CollectedStoreNames | backend/maelstro/core/clone.py:202-218 | A name is collected exactly when some resource's store has it. |
| Clone.CollectedStoreLastWins | backend/maelstro/core/clone.py:210-217 | Under a name is the store of the last resource whose store has that name. |
| Clone.NamedWorkspacesStep | backend/maelstro/core/clone.py:168-169 | One more store whose reply names a workspace adds exactly that workspace under its name. |
| Clone.AddedWorkspaceNames | backend/maelstro/core/clone.py:168-169 | A workspace is listed afterwards exactly when it was listed before or some store lies in it. An entry no store names keeps its value, so a style's `None` entry survives. |
| Clone.AddedWorkspaceLastWins | backend/maelstro/core/clone.py:220-229 | Every store's workspace is listed under its name, as found for the last store in it. |
| Clone.CloneDataset.ProbeDst | backend/maelstro/core/clone.py:237-247 | At most one check GET, of the route on the destination. The probe passes exactly when the reply is no HTTP error. A 404 gives the corrected missing-resource error of the Finding below, not the `TypeError` the code as written raises. A cached client is kept. |
| Clone.CloneDataset.CheckAll | backend/maelstro/core/clone.py:231-262 | Only check GETs, one per route in order, up to the first failure. On success all of them, none with an HTTP error. A 404 on the last one gives the corrected missing-resource error of the Finding below, not the as-written `TypeError`. |
| Clone.CloneDataset.CheckWorkspaces | backend/maelstro/core/clone.py:231-247 | Probes each workspace entry's route in dict order, as `CheckAll` states. A 404 gives the corrected error of the Finding below, not the as-written `TypeError`. |
| Clone.CloneDataset.CheckDatastores | backend/maelstro/core/clone.py:249-262 | Probes each store's stripped link in dict order, as `CheckAll` states. A 404 gives the corrected error of the Finding below, not the as-written `TypeError`. |
| Clone.CloneDataset.WriteStyle | backend/maelstro/core/clone.py:336-356 | Looks the style up on the destination, then PUTs it when it exists (checked) or POSTs it (unchecked), then PUTs the definition. It passes exactly when the definition PUT succeeded. |
| Clone.CloneDataset.CloneStyle | backend/maelstro/core/clone.py:322-356 | Does nothing when the link is not into the source server. On success it sent exactly the requests of a copied style. |
| Clone.CloneDataset.WriteResource | backend/maelstro/core/clone.py:286-315 | On success the writes of the decision were sent, none failing. A 404 on creating the resource is the missing-route error. |
| Clone.CloneDataset.CloneLayer | backend/maelstro/core/clone.py:264-320 | On success it sent exactly the requests of a copied layer. |
| Clone.CloneDataset.WriteAndBind | backend/maelstro/core/clone.py:286-320 | On success: the resource writes, then the binding PUT, with no HTTP error on any of them. |
| Clone.CloneDataset.CloneStyles | backend/maelstro/core/clone.py:175-177 | On success every style whose link is into the source server was written to the destination. |
| Clone.CloneDataset.CloneLayersOf | backend/maelstro/core/clone.py:180-182 | On success every layer of the dict has its binding PUT. |
| Clone.CloneDataset.CloneServer | backend/maelstro/core/clone.py:139-182 | One server's requests form a sound step. With no layer names nothing is sent. On success, when copying layers, every named layer is bound. |
| Clone.CloneDataset.FetchServer | backend/maelstro/core/clone.py:141-146 | Only discovery reads. On success the fetched dict has exactly the named layers. |
| Clone.CloneDataset.CollectResources | backend/maelstro/core/clone.py:148-169 | Only discovery reads. On success the styles are those of the layers when copying styles, and none otherwise. The workspaces are the styles' workspaces. When copying layers, the stores are those `get_stores_from_layers` collects, and the workspaces gain each store's workspace. |
| Clone.CloneDataset.CheckAndCopy | backend/maelstro/core/clone.py:171-182 | Checks, then style copies, then layer copies form a sound step. On success, when copying layers, every layer is bound. |
| Clone.CloneDataset.CloneLayers | backend/maelstro/core/clone.py:137-182 | Servers are visited in dict order, and each server's requests form a sound step. The first error stops the loop. On success every server was visited and, when copying layers, each server's layers are bound within its own step. |
| CopyManagement.Schema | backend/maelstro/metadata/meta.py:32 | Reconstructed: `self.meta.schema` (backend/maelstro/core/copy_manager.py:78) is not an attribute of `Meta` in this snapshot. The model takes the value `Meta.__init__` computes at line 32 into a local: the index's `schema` property, else "iso19139". |
| CopyManagement.SchemaMatchesPrefix | backend/maelstro/metadata/meta.py:32-34 | The reconstructed schema is the one whose namespace prefix the record was read with. |
| CopyManagement.FoundLayersMembers | backend/maelstro/core/copy_manager.py:98-102 | A layer string is in the preview's layer set exactly when some listed layer answered 200 and has that string form. |
| CopyManagement.FoundStylesMembers | backend/maelstro/core/copy_manager.py:98-103 | A style is in the preview's style set exactly when some listed layer answered 200 and names it. |
| CopyManagement.AddNewKeepsSet | backend/maelstro/core/copy_manager.py:186-192 | A set `update` adds no repetition, and its elements are the old ones plus the new ones. |
| CopyManagement.StyleOrderIsFoundStyles | backend/maelstro/core/copy_manager.py:186-192 | The styles `copy_styles` goes through are the found styles, each exactly once. |
| CopyManagement.ServerPreviewsListed | backend/maelstro/core/copy_manager.py:94-114 | An entry is listed exactly when it is the entry of a server of the dict where something was identified. |
| CopyManagement.ServerAppearsIff | backend/maelstro/core/copy_manager.py:105-114 | A server appears exactly when one of its layers answered 200 or a style was found. Every entry's destination is the destination GeoServer, and its lists are empty unless their flag is set. |
| CopyManagement.GetLayerCalls | backend/maelstro/core/copy_manager.py:98-99 | One lookup per layer name, in order. |
| CopyManagement.CopyStyleCalls | backend/maelstro/core/copy_manager.py:194-196 | One style copy per style, in order. |
| CopyManagement.CopyLayerCalls | backend/maelstro/core/copy_manager.py:218-220 | One layer copy per layer name, in order. |
| CopyManagement.ServerCallsAt | backend/maelstro/core/copy_manager.py:143-147 | A server's calls are its lookups, then one copy per found style, then one copy per layer, each block present only when its flag is set. |
| CopyManagement.ServerCallsOrder | backend/maelstro/core/copy_manager.py:143-147 | Every lookup comes before every style copy, and every style copy before every layer copy. Every call concerns that server. |
| CopyManagement.ServerCallsCopyEachStyleOnce | backend/maelstro/core/copy_manager.py:186-196 | No style is copied twice, and a style is copied exactly when styles are included and it was found. |
| CopyManagement.ServerCallsStyleAt | backend/maelstro/core/copy_manager.py:186-196 | A style copy sits in the style block, at the position of its style. |
| CopyManagement.ServerCallsStylesDistinct | backend/maelstro/core/copy_manager.py:186-196 | No two style copies of a server name the same style. |
| CopyManagement.BlockStylesDistinct | backend/maelstro/core/copy_manager.py:186-196 | Between calls that copy no style, one copy per style of a repetition-free list copies no style twice. |
| CopyManagement.InStyleBlock | backend/maelstro/core/copy_manager.py:143-147 | A style copy in `pre + m + post`, where `pre` and `post` copy no style, is a call of `m`. |
| CopyManagement.StyleCopiesDistinct | backend/maelstro/core/copy_manager.py:194-196 | Copies at two positions of a repetition-free style list name different styles. |
| CopyManagement.StyleOrderDistinct | backend/maelstro/core/copy_manager.py:186-192 | The style order has no repetition. |
| CopyManagement.ServerCallsStylesFound | backend/maelstro/core/copy_manager.py:186-196 | A style is copied exactly when styles are included and it was found. |
| CopyManagement.StyleCopiedIsFound | backend/maelstro/core/copy_manager.py:186-196 | A copied style was found among the layers that answered 200, and styles are included. |
| CopyManagement.FoundStyleIsCopied | backend/maelstro/core/copy_manager.py:186-196 | With styles included, every found style is copied. |
| CopyManagement.ServerCallsCopyEachLayer | backend/maelstro/core/copy_manager.py:218-220 | With layers included, every listed layer is copied. |
| CopyManagement.DatasetCallsSkipEmpty | backend/maelstro/core/copy_manager.py:138-140 | No call concerns a server that is not listed, or one whose layer list is empty. |
| CopyManagement.DatasetCallsGrow | backend/maelstro/core/copy_manager.py:138-147 | The calls for fewer servers are a prefix of the calls for more. |
| CopyManagement.DatasetCallsAdvance | backend/maelstro/core/copy_manager.py:138-147 | One more server adds nothing when its list is empty, and otherwise adds its own calls. |
| CopyManagement.DatasetLogAdvance | backend/maelstro/core/copy_manager.py:138-147 | One more server adds nothing when its list is empty, and otherwise adds its own records. |
| CopyManagement.PreviewCallsAdvance | backend/maelstro/core/copy_manager.py:94-99 | One more server in the preview adds exactly its lookups. |
| CopyManagement.PreviewEntriesAdvance | backend/maelstro/core/copy_manager.py:94-114 | One more server in the preview adds exactly its entry, if it has one. |
| CopyManagement.PreviewOnlyLooksUp | backend/maelstro/core/copy_manager.py:92-114 | The preview only looks layers up, on listed servers, and copies nothing. |
| CopyManagement.MissingOnDst | backend/maelstro/core/copy_manager.py:199-205 | A missing datastore or workspace is a `ParamError` with status 400 and context "dst", keyed "Style <name>" or "Layer <name>". Its message ends "on destination Geoserver <dst>" and it carries the operations so far. |
| CopyManagement.BareParamError | backend/maelstro/core/copy_manager.py:197-198 | A bare `ParamError` fails to build, because `err` is required. |
| CopyManagement.SyncError | backend/maelstro/core/copy_manager.py:195-205 | No error exactly on a 200. Any other status gives the bare-`ParamError` failure, and a missing datastore or workspace gives the named `ParamError`. Any other exception of the library, such as the `HTTPError` of a failed request, passes through unchanged. |
| CopyManagement.LayersJson | backend/maelstro/core/copy_manager.py:233 | The layers' list serializes one element per layer, in order. |
| CopyManagement.XslPaths | backend/maelstro/core/copy_manager.py:154-156 | One path per transformation, in order. |
| CopyManagement.ServerCallsJoin | backend/maelstro/core/copy_manager.py:143-147 | A server's style calls followed by its layer calls are its calls. |
| CopyManagement.ServerLogJoin | backend/maelstro/core/copy_manager.py:143-147 | A server's styles record followed by its layers record are its records. |
| CopyManagement.OneRecordPerServer | backend/maelstro/core/copy_manager.py:138-147 | One styles record per server with layers when styles are included, one layers record per such server when layers are included, and no other record. |
| CopyManagement.DatasetLogGrow | backend/maelstro/core/copy_manager.py:138-147 | The records for fewer servers are a prefix of the records for more. |
| CopyManagement.XslOnlyWhenConfigured | backend/maelstro/core/copy_manager.py:149-178 | The XSL record is logged exactly when metadata is copied and transformations are configured. It reports what the chain answered for the configured paths, in configured order. The upload answer is the last record. |
| CopyManagement.GeoServerSync.constructor | backend/maelstro/core/copy_manager.py:141 | A new sync service holds its answers and has received no call. |
| CopyManagement.GeoServerSync.ErrorOf | backend/maelstro/core/copy_manager.py:195-205 | A call raises nothing exactly when it went through. A lookup that raised gives its own exception. |
| CopyManagement.GeoServerSync.GetLayer | backend/maelstro/core/copy_manager.py:99 | The lookup is recorded, and its outcome, an answer or an exception, is the server's. |
| CopyManagement.GeoServerSync.CopyStyle | backend/maelstro/core/copy_manager.py:196 | The style copy is recorded, and its answer is the server's. |
| CopyManagement.GeoServerSync.CopyLayer | backend/maelstro/core/copy_manager.py:220 | The layer copy is recorded, and its answer is the server's. |
| CopyManagement.CopyManager.constructor | backend/maelstro/core/copy_manager.py:21-33 | Names, handler and sync service as given. No flag is set and no record has been read. |
| CopyManagement.CopyManager.LookUpLayers | backend/maelstro/core/copy_manager.py:95-103 | Succeeds exactly when no lookup raised, with one lookup per layer, and the sets are exactly the found layers and the found styles. Otherwise the exception of the first lookup that raised propagates, right after that lookup. |
| CopyManagement.CopyManager.PreviewServer | backend/maelstro/core/copy_manager.py:95-114 | The lookups made are a prefix of the server's layers. On success they are all of them, none raised, and the result is its preview entry. A failure after a lookup is the exception of the first lookup that raised, and that lookup was the last made. |
| CopyManagement.CopyManager.PreviewServers | backend/maelstro/core/copy_manager.py:94-114 | Servers are looked up in dict order until the first failure, which comes after the lookups of the servers before it and some of its own. On success the result is the preview entries of all servers. A lookup that raised stops the preview with its exception. |
| CopyManagement.CopyManager.ReadRecord | backend/maelstro/core/copy_manager.py:62-63 | A closed handler fails. On success `self.meta` is the record built from the archive. A failure leaves it unchanged. |
| CopyManagement.CopyManager.Preview | backend/maelstro/core/copy_manager.py:52-116 | Sets the flags. The metadata entry has title and schema only when metadata is included. Servers are looked up only when layers or styles are included, and then the GeoServer entries are exactly those of the identified servers, with the destination GeoServer's URL. A lookup that raised stops the preview with its exception, right after that lookup. Nothing is copied. |
| CopyManagement.CopyManager.PreviewHead | backend/maelstro/core/copy_manager.py:62-90 | The record is read, the metadata entry is built, and the destination GeoServer URL is the configured one. |
| CopyManagement.FirstStop | backend/maelstro/core/copy_manager.py:186-192 | The position of the first lookup that raised or whose answer is not a layer object. Every earlier lookup answered a layer object. Gives the number of layers when every one did. |
| CopyManagement.FirstRaised | backend/maelstro/core/copy_manager.py:97-99 | The position of the first lookup that raised. Every earlier lookup answered. Gives the number of layers when none raised. |
| CopyManagement.FirstStopNoLater | backend/maelstro/core/copy_manager.py:97-103 | The copy of styles stops no later than the preview does on the same layers, since a lookup that raises stops both. |
| CopyManagement.CopyManager.CollectStyleNames | backend/maelstro/core/copy_manager.py:186-192 | The comprehension reads `all_style_names` on every answer before testing the status. It succeeds exactly when no lookup raised and every answer is a layer object, with one lookup per layer and the found styles in copy order. Otherwise it stops right after the first lookup that raised or answered something else, with that lookup's exception or with `AttributeError`. |
| CopyManagement.CopyManager.CopyEachStyle | backend/maelstro/core/copy_manager.py:193-211 | Styles are copied in order, each successful except possibly the last. On success all are copied, the styles record is logged and the context restored. On failure nothing is logged, the context stays "Style", and the error is the last call's. An exception the copy raised other than the two missing-resource ones propagates unchanged. |
| CopyManagement.CopyManager.CopyStyles | backend/maelstro/core/copy_manager.py:182-211 | A lookup that raised, or whose answer is not a layer object, stops the copy with its exception or `AttributeError` before any style is copied, with nothing logged and the context unchanged. Otherwise: the lookups, then the style copies. On success the styles record of the found styles is logged. A failed copy's error is the last call's, and the context stays "Style". |
| CopyManagement.CopyManager.CopyLayers | backend/maelstro/core/copy_manager.py:213-235 | Layers are copied in order, each successful except possibly the last. On success the layers record is logged and the context restored. On failure nothing is logged, the context stays "Layer", and the error is the last call's. An exception the copy raised other than the two missing-resource ones propagates unchanged. |
| CopyManagement.CopyManager.CopyServer | backend/maelstro/core/copy_manager.py:143-147 | On success, a server's calls (styles before layers) and records are appended and the context restored. A failure stops at the last call, with its error. |
| CopyManagement.CopyManager.VisitServer | backend/maelstro/core/copy_manager.py:138-147 | One turn of the server loop extends the calls and records to those of one more server. |
| CopyManagement.CopyManager.CopyServers | backend/maelstro/core/copy_manager.py:138-147 | Servers in dict order, skipping empty lists. On success the calls and records are those of all servers. A failure stops at the last call, with its error. |
| CopyManagement.CopyManager.UploadMetadata | backend/maelstro/core/copy_manager.py:149-179 | Records the destination title. The XSL record is logged when transformations are configured. The upload, in the "Meta" context, succeeds exactly when the handler is open and the destination GeoNetwork is configured; then its answer is logged and returned and the context restored. |
| CopyManagement.CopyManager.LoadRecord | backend/maelstro/core/copy_manager.py:128-134 | With a UUID, the record is read and the source title recorded. Without one, an earlier record is reused, and its absence is an `AttributeError`. |
| CopyManagement.CopyManager.CopyResources | backend/maelstro/core/copy_manager.py:136-180 | Server calls and records only when layers or styles are included, then the metadata records. The result is the upload message with metadata, "copy_successful" without. |
| CopyManagement.CopyManager.CopyServerResources | backend/maelstro/core/copy_manager.py:136-147 | The server loop runs exactly when layers or styles are included. |
| CopyManagement.CopyManager.CopyDataset | backend/maelstro/core/copy_manager.py:118-180 | Sets the flags. A missing record fails before any call. On success: the servers' calls and records when layers or styles are included, then the metadata records, with the titles recorded. The result is the upload message or "copy_successful". |

## Left out

- Network I/O: the GeoNetwork API, the GeoServer REST client, the GeoServer sync library and `requests` are not modelled. A remote server is a fixed reply function together with the trace of requests it received.
- `get_gs_sync_service` (backend/maelstro/core/copy_manager.py:141): the sync service is one fixed `GeoServerSync` object, so a failed lookup of a source server is not modelled.
- Parsing and serialization: ZIP, CSV, XML, XSLT, `json.dumps`/`json.loads` and HTML unescaping are library code. They are given as inputs: parsed documents, a serialized-text field, and functions passed as parameters. `get_gs_layers`, `get_title`, `update_geoverver_urls`, `apply_xslt_chain` and `get_zip` are called, and their results are parameters. See the version-skew line below: they are not defined in this snapshot.
- `clone_dataset` and `_clone_dataset` (backend/maelstro/core/clone.py:82-135) are not part of this model. They read the record through the unmodelled helpers above, and the model starts at `clone_layers`.
- `involved_resources` (backend/maelstro/core/clone.py:50-80) is modelled only through its result. A server's style set is the key set of `Clone.CollectStyles`, as `Clone.CollectStylesKeys` states. Its repeated inner fetch loop is not modelled.
- Python set iteration order: `copy_styles` iterates a set. The model fixes one order (first appearance) and proves only what does not depend on it: each found style is copied exactly once. The preview's lists are modelled as sets.
- `@cache` properties: only `gs_dst` of `CloneDataset` is modelled, as a cached field. The other cached clients are not modelled; each GeoNetwork step takes its answer as a parameter.
- Request scoping: the `ContextVar` that ties a log handler to its request is a plain id comparison.
- Database plumbing: SQLAlchemy engines, sessions and table creation are not modelled. The `logs` table is a sequence of rows in insertion order. Times are text. `datetime.now()` is a parameter, and so is the time the module was loaded, which is the default `start_time`.
- Middleware plumbing: backend/maelstro/middleware.py:46-51 calls `log_request_to_db` with four arguments and calls `pop_json_responses`/`pop_properties`. None of these match backend/maelstro/logging/psql_logger.py:65 or backend/maelstro/core/operations.py. Only the status mapping and the decision to write an audit row are modelled.
- Version skew: backend/maelstro/common/models.py in this snapshot declares neither `SuccessRecord` nor the `data_type` field that backend/maelstro/core/operations.py and backend/maelstro/core/copy_manager.py use. The model follows the callers: a `SuccessRecord` has a message and a detail, and every record carries its context.
- Version skew, missing callees: backend/maelstro/core/copy_manager.py calls functions and attributes that this snapshot does not define:
  - `Meta.get_title` (lines 77, 131 and 169) and `Meta.get_gs_layers` (lines 93 and 137);
  - `Meta.apply_xslt_chain` (line 158) and `Meta.get_zip` (line 172);
  - the `self.meta.schema` attribute (line 78), which is only a local of `Meta.__init__` (backend/maelstro/metadata/meta.py:32);
  - `config.get_transformation_pair` (line 150), which backend/maelstro/config/config.py lacks;
  - `get_gs_sync_service` (line 141), which backend/maelstro/core/georchestra.py lacks;
  - `log_handler` and `gs_logger`, which backend/maelstro/core/georchestra.py:9-12 imports from backend/maelstro/core/operations.py, which defines neither.

  As written, importing backend/maelstro/core/georchestra.py raises `ImportError`, and the model follows the handler as if both names existed: one log handler shared by the request, and a session logger. Further, `copy_dataset` with a UUID raises `AttributeError` at line 131. `copy_preview` raises it at line 77 when metadata is included, and at line 93 when layers or styles are. The model follows the calls `copy_manager.py` makes, as if these members existed: their results are parameters, and `CopyManagement.Schema` reconstructs `schema`.
- Lookup answers of the sync library: a lookup either raises or answers; an answer with status 200 is assumed to be a layer object, whose `all_style_names` exists. The sync library is not part of this model. An answer with another status may be either a layer object or not.
- Georchestra.GeorchestraHandler.GetGsService: the "Session opened on …" record that backend/maelstro/core/georchestra.py:49-56 logs through `gs_logger` is not modelled, and neither is the version document it reads (`resp.json()["about"]["resource"][0]`), so its `KeyError` or `IndexError` on a document without that shape is missing. The probe ends either with an answer or with an `HTTPError`; a `requests` exception that is not an `HTTPError`, such as the timeout of line 37 or a refused connection, would propagate out of `get_gs_service` and is not modelled.
- Log records of the client libraries: the GeoNetwork and GeoServer clients log their requests through the "GN Session" and "GS Session" loggers (backend/maelstro/core/operations.py:58-62), and those records reach the handler too. The client libraries are not part of this model, so the exact-log contracts (`CopyManagement.CopyManager.CopyServer`, `CopyManagement.CopyManager.CopyServers`, `CopyManagement.CopyManager.UploadMetadata`, `CopyManagement.CopyManager.CopyDataset`, `CopyManagement.OneRecordPerServer` and the copy loops) describe only the records maelstro logs itself.
- Operations.RecordFor: `ApiRecord` declares `type` without a default (backend/maelstro/common/models.py:107-111), so a record with a response from a logger other than the two session loggers makes pydantic raise `ValidationError`, which `emit` does not catch. The model appends a plain API record without a type instead.
- Operations.LogCollectionHandler.Emit: `record.message` (backend/maelstro/core/operations.py:75) exists only once a formatter has run on the record. On a record no formatter has seen, the `except AttributeError` branch raises `AttributeError` itself. The model assumes a formatted record and always appends the info record.
- Metadata.WithTag, Metadata.FindChild and Metadata.FirstWithTag: tags are compared as written, with their prefix, and namespace URIs are not resolved. A document that binds the ISO namespace of `gmd` or `cit` to another prefix, or makes it the default namespace, is matched by the source's `findall` and `find` (backend/maelstro/metadata/meta.py:41-43 and 76) but not by the model.
- Integers are unbounded: status codes, ids and counters have no machine width in the source either.
- A YAML `null` is modelled as an absent key, which is what `dict.get` reports for it.
- The frontend bootstrap and UI (Vue components, stores, router, fetch wrappers) are not part of this model. Only language detection and the locale options are modelled.
- One-shot admin scripts and the uvicorn entry points are not part of this model.
- CopyManagement.BareParamError: the bare `raise ParamError` fails while the exception is being built. It is modelled as a generic `ValidationError` failure, without the validation details pydantic would report.
- Clone.CloneDataset.ProbeDst: on a 404 from the destination the model gives the corrected `ParamError` of the Finding below. The source as written raises `TypeError` there (backend/maelstro/core/clone.py:238-246 and 253-261). `Clone.CloneDataset.CheckAll`, `Clone.CloneDataset.CheckWorkspaces` and `Clone.CloneDataset.CheckDatastores` inherit this.
- AuditLog.RowOf: a start time or title that is neither text nor `None` gives no row. The source only stores strings and datetimes there, and what the database driver would do with another type is not modelled.
- AuditLog.ToDict: the dictionary is a map keyed by column. The key order of `to_dict`, which is the declaration order listed in `AuditLog.Columns`, is not part of its result.
- AuditLog.NextId: ids are numbered one past the newest row. A database sequence also consumes a value on a failed insert, so real ids can have gaps. The ordering lemmas need only increasing ids.
- Clone.CloneDataset.CloneServer: states trace soundness and layer bindings. That each style was written is stated one level down, by `Clone.CloneDataset.CloneStyles`.
- Clone.CloneDataset.FetchServer: states the key set of the fetched layers. Their contents are stated by `Clone.CloneDataset.FetchLayers`.
- Clone.CloneDataset.CloneServer: with neither copy flag set, the server's layers are fetched and nothing else happens. This matches the source, whose empty dicts make the checks and copies vacuous.

## Findings

| source | as written | input that shows it | evidently intended | confidence | as-written member | corrected member |
|---|---|---|---|---|---|---|
| backend/maelstro/core/clone.py:238-246 | On a 404 from the destination, `check_workspaces` (and `check_datastores` at lines 253-261) build `MaelstroDetail(..., operations=...)`. The core `MaelstroDetail` dataclass (backend/maelstro/core/exceptions.py) has no `operations` field, so the call raises `TypeError` before any `ParamError` exists. | A workspace or datastore probe on the destination answers 404, for example `GET /rest/workspaces/ws` → 404. | A `ParamError` (406) in context "dst", keyed by the probed route, naming the missing workspace or datastore and the destination. | not executed | Clone.MissingOnDestinationAsWritten (with Clone.MissingOnDestinationDiffers) | Clone.MissingOnDestination |
