/**
 * The server configuration (backend/maelstro/config/config.py): source
 * GeoNetwork and GeoServer instances, destination platforms, and the
 * credentials each of them inherits or reads from the environment.
 *
 * A server entry is a string-keyed dict; a key whose YAML value is null is
 * treated as absent, which is what `dict.get` reports for it. The
 * environment is a parameter, and so is the YAML loader.
 */
module Configuration {
  import opened Wrappers
  import opened Dicts
  import opened Types

  /** One server entry of the YAML file. */
  type Instance = map<string, string>

  /** `os.environ`. */
  type Env = map<string, string>

  /** A destination platform: its own keys and its two server entries. */
  datatype Destination = Destination(own: Instance, geonetwork: Instance, geoserver: Instance)

  /** The loaded YAML document. */
  datatype ConfigData = ConfigData(
    sources: Instance,
    gnInstances: seq<Instance>,
    gsInstances: seq<Instance>,
    destinations: Dict<string, Destination>)

  /** A destination as loaded: its own keys, and each server entry when the key is there. */
  datatype DestinationDoc = DestinationDoc(own: Instance, geonetwork: Option<Instance>, geoserver: Option<Instance>)

  /** The `sources` mapping as loaded: its own keys, and each instance list when the key is there. */
  datatype SourcesDoc = SourcesDoc(own: Instance, gnInstances: Option<seq<Instance>>, gsInstances: Option<seq<Instance>>)

  /** The YAML document as loaded, before anything reads it: any structural key may be missing. */
  datatype Document = Document(sources: Option<SourcesDoc>, destinations: Option<Dict<string, DestinationDoc>>)

  /** `EMPTY_CONFIG`. */
  function EmptyDocument(): Document {
    Document(Some(SourcesDoc(map[], Some([]), Some([]))), Some(Empty()))
  }

  /** The two failures of a lookup: a missing key in an entry, or an unknown instance. */
  datatype ConfigFailure = KeyError(key: string) | ConfigError(message: string)

  /** `instance.get(key)`. */
  function Get(inst: Instance, key: string): Option<string> {
    if key in inst then Some(inst[key]) else None
  }

  /** The key naming the environment variable for a value: `f"{value_type}_env_var"`. */
  function EnvKey(valueType: string): string {
    valueType + "_env_var"
  }

  /**
   * `read_value_from_env(server_instance, value_type)`: when the entry names
   * an environment variable, that variable's value (if set) replaces the
   * value, and the naming key is removed either way.
   */
  function ReadValueFromEnv(inst: Instance, valueType: string, env: Env): (r: Instance)
    ensures EnvKey(valueType) !in r
    ensures forall k :: k != valueType && k != EnvKey(valueType) ==> Get(r, k) == Get(inst, k)
  {
    var envKey := EnvKey(valueType);
    if envKey in inst then
      var withValue := if inst[envKey] in env then inst[valueType := env[inst[envKey]]] else inst;
      withValue - {envKey}
    else inst
  }

  /**
   * The value a credential ends up with, by precedence: the environment
   * variable the entry names, when it is set; else the entry's own value;
   * else the inherited one.
   */
  function Resolved(inst: Instance, valueType: string, inherited: Option<string>, env: Env): Option<string> {
    var envKey := EnvKey(valueType);
    if envKey in inst && inst[envKey] in env then Some(env[inst[envKey]])
    else if valueType in inst then Some(inst[valueType])
    else inherited
  }

  const NoCredentials := Credentials(None, None)

  /** `if common is not None and instance.get(key) is None: instance[key] = common`. */
  function Inherit(inst: Instance, key: string, common: Option<string>): (r: Instance)
    ensures Get(r, key) == if key in inst then Some(inst[key]) else common
    ensures forall k :: k != key ==> Get(r, k) == Get(inst, k)
  {
    if common.Some? && Get(inst, key).None? then inst[key := common.value] else inst
  }

  /**
   * `substitute_single_credentials_from_env(server_instance, common_credentials)`:
   * inherited credentials fill only missing values, then the environment
   * overrides; the entry and the resulting pair are returned.
   */
  function SubstituteSingle(inst: Instance, common: Credentials, env: Env): (r: (Instance, Credentials))
    ensures r.1 == Credentials(Get(r.0, "login"), Get(r.0, "password"))
  {
    var filled := Inherit(Inherit(inst, "login", common.login), "password", common.password);
    var result := ReadValueFromEnv(ReadValueFromEnv(filled, "login", env), "password", env);
    (result, Credentials(Get(result, "login"), Get(result, "password")))
  }

  /** The value `read_value_from_env` leaves under `value_type`: the environment's, when the named variable is set. */
  lemma ReadValueFromEnvValue(inst: Instance, valueType: string, env: Env)
    ensures Get(ReadValueFromEnv(inst, valueType, env), valueType) ==
      if EnvKey(valueType) in inst && inst[EnvKey(valueType)] in env then Some(env[inst[EnvKey(valueType)]])
      else Get(inst, valueType)
  {
    assert valueType != EnvKey(valueType) by {
      assert |EnvKey(valueType)| > |valueType|;
    }
  }

  /**
   * Credential precedence: login and password are `Resolved` against the
   * inherited pair, both `*_env_var` keys are gone, and every other key is
   * untouched.
   */
  lemma SubstitutePrecedence(inst: Instance, common: Credentials, env: Env)
    ensures Get(SubstituteSingle(inst, common, env).0, "login") == Resolved(inst, "login", common.login, env)
    ensures Get(SubstituteSingle(inst, common, env).0, "password") == Resolved(inst, "password", common.password, env)
    ensures EnvKey("login") !in SubstituteSingle(inst, common, env).0
    ensures EnvKey("password") !in SubstituteSingle(inst, common, env).0
    ensures forall k :: k !in {"login", "password", EnvKey("login"), EnvKey("password")} ==>
      Get(SubstituteSingle(inst, common, env).0, k) == Get(inst, k)
  {
    var login, password := EnvKey("login"), EnvKey("password");
    assert login == "login_env_var" && password == "password_env_var";
    var filled := Inherit(Inherit(inst, "login", common.login), "password", common.password);
    assert Get(filled, login) == Get(inst, login) && Get(filled, password) == Get(inst, password);
    var afterLogin := ReadValueFromEnv(filled, "login", env);
    ReadValueFromEnvValue(filled, "login", env);
    ReadValueFromEnvValue(afterLogin, "password", env);
    assert Get(afterLogin, password) == Get(inst, password);
  }

  /** `common_credentials` after `substitute_single_credentials_from_env(...)`: the resolved pair. */
  lemma SubstituteReturnsResolved(inst: Instance, common: Credentials, env: Env)
    ensures SubstituteSingle(inst, common, env).1
      == Credentials(Resolved(inst, "login", common.login, env), Resolved(inst, "password", common.password, env))
  {
    SubstitutePrecedence(inst, common, env);
  }

  /** Each server entry of a list, substituted with the same inherited pair. */
  function SubstituteAll(instances: seq<Instance>, common: Credentials, env: Env): (r: seq<Instance>)
    ensures |r| == |instances|
  {
    seq(|instances|, i requires 0 <= i < |instances| => SubstituteSingle(instances[i], common, env).0)
  }

  /** A destination: its own keys first, then both servers inherit the resulting pair. */
  function SubstituteDestination(d: Destination, env: Env): Destination {
    var own := SubstituteSingle(d.own, NoCredentials, env);
    Destination(own.0, SubstituteSingle(d.geonetwork, own.1, env).0, SubstituteSingle(d.geoserver, own.1, env).0)
  }

  /** Every value of the destination dict substituted, in the same key order. */
  function SubstituteDestinations(ds: Dict<string, Destination>, env: Env): (r: Dict<string, Destination>)
    ensures r.keys == ds.keys && r.entries.Keys == ds.entries.Keys
    ensures forall k :: k in ds.entries ==> r.entries[k] == SubstituteDestination(ds.entries[k], env)
  {
    RawDict(ds.keys, map k | k in ds.entries :: SubstituteDestination(ds.entries[k], env))
  }

  /** The document after `read_all_credentials`. */
  function CredentialsApplied(c: ConfigData, env: Env): ConfigData {
    var top := SubstituteSingle(c.sources, NoCredentials, env);
    ConfigData(top.0, SubstituteAll(c.gnInstances, top.1, env), SubstituteAll(c.gsInstances, top.1, env),
      SubstituteDestinations(c.destinations, env))
  }

  /**
   * Credentials set on `sources` reach every source instance: each value is
   * the instance's own (or its environment variable's), falling back to the
   * value resolved at the sources level.
   */
  lemma SourceCredentialsReachInstances(c: ConfigData, env: Env, i: nat)
    requires i < |c.gsInstances|
    ensures Get(CredentialsApplied(c, env).gsInstances[i], "login")
      == Resolved(c.gsInstances[i], "login", Resolved(c.sources, "login", None, env), env)
    ensures Get(CredentialsApplied(c, env).gsInstances[i], "password")
      == Resolved(c.gsInstances[i], "password", Resolved(c.sources, "password", None, env), env)
  {
    SubstituteReturnsResolved(c.sources, NoCredentials, env);
    var common := SubstituteSingle(c.sources, NoCredentials, env).1;
    SubstitutePrecedence(c.gsInstances[i], common, env);
  }

  /** The same for the GeoNetwork source instances. */
  lemma SourceCredentialsReachGnInstances(c: ConfigData, env: Env, i: nat)
    requires i < |c.gnInstances|
    ensures Get(CredentialsApplied(c, env).gnInstances[i], "login")
      == Resolved(c.gnInstances[i], "login", Resolved(c.sources, "login", None, env), env)
    ensures Get(CredentialsApplied(c, env).gnInstances[i], "password")
      == Resolved(c.gnInstances[i], "password", Resolved(c.sources, "password", None, env), env)
  {
    SubstituteReturnsResolved(c.sources, NoCredentials, env);
    var common := SubstituteSingle(c.sources, NoCredentials, env).1;
    SubstitutePrecedence(c.gnInstances[i], common, env);
  }

  /**
   * A destination's credentials reach its GeoNetwork and GeoServer entries;
   * values set on an entry itself win.
   */
  lemma DestinationCredentialsReachServers(d: Destination, env: Env)
    ensures Get(SubstituteDestination(d, env).geoserver, "login")
      == Resolved(d.geoserver, "login", Resolved(d.own, "login", None, env), env)
    ensures Get(SubstituteDestination(d, env).geoserver, "password")
      == Resolved(d.geoserver, "password", Resolved(d.own, "password", None, env), env)
    ensures Get(SubstituteDestination(d, env).geonetwork, "login")
      == Resolved(d.geonetwork, "login", Resolved(d.own, "login", None, env), env)
    ensures Get(SubstituteDestination(d, env).geonetwork, "password")
      == Resolved(d.geonetwork, "password", Resolved(d.own, "password", None, env), env)
  {
    SubstituteReturnsResolved(d.own, NoCredentials, env);
    var common := SubstituteSingle(d.own, NoCredentials, env).1;
    SubstitutePrecedence(d.geoserver, common, env);
    SubstitutePrecedence(d.geonetwork, common, env);
  }

  /** The `for` loop over one instance list: each entry is substituted in place. */
  method SubstituteEach(instances: seq<Instance>, common: Credentials, env: Env) returns (r: seq<Instance>)
    ensures r == SubstituteAll(instances, common, env)
  {
    r := instances;
    for i := 0 to |r|
      invariant |r| == |instances|
      invariant forall j :: 0 <= j < i ==> r[j] == SubstituteSingle(instances[j], common, env).0
      invariant forall j :: i <= j < |r| ==> r[j] == instances[j]
    {
      r := r[i := SubstituteSingle(r[i], common, env).0];
    }
  }

  /** The `for` loop over the destinations' values: each is substituted in place, keys keep their order. */
  method SubstituteEachDestination(ds: Dict<string, Destination>, env: Env) returns (r: Dict<string, Destination>)
    ensures r == SubstituteDestinations(ds, env)
  {
    ghost var target := SubstituteDestinations(ds, env);
    r := ds;
    var keys := ds.keys;
    for i := 0 to |keys|
      invariant UpdatedUpTo(ds, r, target, i)
    {
      SubstituteOneMore(ds, r, env, i);
      r := Put(r, keys[i], SubstituteDestination(r.entries[keys[i]], env));
    }
    UpdatedAll(ds, r, target);
  }

  /** Substituting the `i`-th destination extends the loop's rewrite by one. */
  lemma SubstituteOneMore(ds: Dict<string, Destination>, r: Dict<string, Destination>, env: Env, i: nat)
    requires UpdatedUpTo(ds, r, SubstituteDestinations(ds, env), i) && i < |ds.keys|
    ensures UpdatedUpTo(ds, Put(r, ds.keys[i], SubstituteDestination(r.entries[ds.keys[i]], env)),
      SubstituteDestinations(ds, env), i + 1)
  {
    UpdateOneMore(ds, r, SubstituteDestinations(ds, env), i);
  }

  /** The first key of `keys` the entry lacks. */
  function MissingKey(inst: Instance, keys: seq<string>): (r: Option<string>)
    ensures r.None? <==> forall i :: 0 <= i < |keys| ==> keys[i] in inst
    ensures r.Some? ==> r.value in keys && r.value !in inst
  {
    if keys == [] then None
    else if keys[0] !in inst then Some(keys[0])
    else MissingKey(inst, keys[1..])
  }

  /** The `KeyError` a comprehension over the entries raises first, if any. */
  function FirstMissing(instances: seq<Instance>, keys: seq<string>): (r: Option<string>)
    ensures r.None? <==> forall i, j :: 0 <= i < |instances| && 0 <= j < |keys| ==> keys[j] in instances[i]
  {
    if instances == [] then None
    else if MissingKey(instances[0], keys).Some? then MissingKey(instances[0], keys)
    else
      var r := FirstMissing(instances[1..], keys);
      assert forall i :: 1 <= i < |instances| ==> instances[i] == instances[1..][i - 1];
      r
  }

  /**
   * The index of the first entry whose `field` equals `id`; the lookup fails
   * with `KeyError` on an entry before it that lacks `field`.
   */
  function FirstMatch(instances: seq<Instance>, field: string, id: string): (r: Result<Option<nat>, ConfigFailure>)
    ensures r.Success? && r.value.Some? ==>
      && r.value.value < |instances|
      && Get(instances[r.value.value], field) == Some(id)
      && forall i :: 0 <= i < r.value.value ==> field in instances[i] && instances[i][field] != id
    ensures r == Success(None) <==> forall i :: 0 <= i < |instances| ==> field in instances[i] && instances[i][field] != id
    ensures r.Failure? ==> r.error == KeyError(field)
    decreases |instances|
  {
    if instances == [] then Success(None)
    else if field !in instances[0] then Failure(KeyError(field))
    else if instances[0][field] == id then Success(Some(0))
    else
      var r := FirstMatch(instances[1..], field, id);
      assert forall i :: 1 <= i < |instances| ==> instances[i] == instances[1..][i - 1];
      match r
      case Success(Some(i)) => Success(Some(i + 1))
      case Success(None) => Success(None)
      case Failure(e) => Failure(e)
  }

  /** What `get_access_info` returns. */
  datatype AccessInfo = AccessInfo(auth: Option<Credentials>, url: string)

  /** The access info of a matched entry: no `auth` unless both login and password are set. */
  function AccessOf(inst: Instance, urlKey: string): (r: Result<AccessInfo, ConfigFailure>)
    ensures r.Failure? <==> urlKey !in inst
    ensures r.Success? ==>
      && r.value.url == inst[urlKey]
      && (r.value.auth.None? <==> "login" !in inst || "password" !in inst)
      && (r.value.auth.Some? ==> r.value.auth.value == Credentials(Get(inst, "login"), Get(inst, "password")))
  {
    if urlKey !in inst then Failure(KeyError(urlKey))
    else
      var auth := Credentials(Get(inst, "login"), Get(inst, "password"));
      Success(AccessInfo(if auth.login.None? || auth.password.None? then None else Some(auth), inst[urlKey]))
  }

  function ServerKind(isGeonetwork: bool): string {
    if isGeonetwork then "geonetwork" else "geoserver"
  }

  /** The `ConfigError` message for an unknown instance. */
  function NotFoundMessage(instanceId: string, isGeonetwork: bool, isSource: bool): string {
    "Key '" + instanceId + "' could not be found among configured " + ServerKind(isGeonetwork)
      + (if isSource then " source servers." else " destination servers.")
  }

  /** A destination has both server entries. */
  predicate Complete(d: DestinationDoc) {
    d.geonetwork.Some? && d.geoserver.Some?
  }

  /**
   * The position, in key order, of the first destination that lacks a
   * server entry; the number of keys when none does.
   */
  function FirstIncomplete(keys: seq<string>, entries: map<string, DestinationDoc>): (n: nat)
    requires forall k :: k in keys ==> k in entries
    ensures n <= |keys|
    ensures forall i :: 0 <= i < n ==> Complete(entries[keys[i]])
    ensures n < |keys| ==> !Complete(entries[keys[n]])
    decreases |keys|
  {
    if keys == [] || !Complete(entries[keys[0]]) then 0
    else
      var n := 1 + FirstIncomplete(keys[1..], entries);
      assert forall i :: 1 <= i < n ==> keys[i] == keys[1..][i - 1];
      n
  }

  /** The destinations with both server entries unwrapped, in the same key order. */
  function Destinations(ds: Dict<string, DestinationDoc>): (r: Dict<string, Destination>)
    requires forall k :: k in ds.entries ==> ds.entries[k].geonetwork.Some? && ds.entries[k].geoserver.Some?
    ensures r.keys == ds.keys && r.entries.Keys == ds.entries.Keys
    ensures forall k :: k in ds.entries ==>
      r.entries[k] == Destination(ds.entries[k].own, ds.entries[k].geonetwork.value, ds.entries[k].geoserver.value)
  {
    RawDict(ds.keys, map k | k in ds.entries :: Destination(ds.entries[k].own, ds.entries[k].geonetwork.value, ds.entries[k].geoserver.value))
  }

  /** The document has `sources` and both its instance lists. */
  predicate HasSourceLists(doc: Document) {
    doc.sources.Some? && doc.sources.value.gnInstances.Some? && doc.sources.value.gsInstances.Some?
  }

  /**
   * The structural keys `read_all_credentials` reads, in the order it reads
   * them: `sources`, its two instance lists, `destinations`, then each
   * destination's `geonetwork` and `geoserver` entries. The first one
   * missing is its `KeyError`; a document with all of them is the
   * configuration the rest of the module reads.
   */
  function Shape(doc: Document): (r: Result<ConfigData, ConfigFailure>)
    ensures doc.sources.None? ==> r == Failure(KeyError("sources"))
    ensures doc.sources.Some? && doc.sources.value.gnInstances.None? ==> r == Failure(KeyError("geonetwork_instances"))
    ensures doc.sources.Some? && doc.sources.value.gnInstances.Some? && doc.sources.value.gsInstances.None? ==>
      r == Failure(KeyError("geoserver_instances"))
    ensures HasSourceLists(doc) && doc.destinations.None? ==> r == Failure(KeyError("destinations"))
    ensures HasSourceLists(doc) && doc.destinations.Some? ==>
      var ds := doc.destinations.value;
      var n := FirstIncomplete(ds.keys, ds.entries);
      && (n < |ds.keys| ==> r == Failure(KeyError(if ds.entries[ds.keys[n]].geonetwork.None? then "geonetwork" else "geoserver")))
      && (n == |ds.keys| ==> r.Success?)
    ensures r.Success? ==>
      && HasSourceLists(doc) && doc.destinations.Some?
      && r.value.sources == doc.sources.value.own
      && r.value.gnInstances == doc.sources.value.gnInstances.value
      && r.value.gsInstances == doc.sources.value.gsInstances.value
      && r.value.destinations.keys == doc.destinations.value.keys
      && forall k :: k in doc.destinations.value.entries ==>
           && Complete(doc.destinations.value.entries[k])
           && r.value.destinations.entries[k] == Destination(doc.destinations.value.entries[k].own,
                doc.destinations.value.entries[k].geonetwork.value, doc.destinations.value.entries[k].geoserver.value)
  {
    match doc.sources
    case None => Failure(KeyError("sources"))
    case Some(sources) =>
      if sources.gnInstances.None? then Failure(KeyError("geonetwork_instances"))
      else if sources.gsInstances.None? then Failure(KeyError("geoserver_instances"))
      else if doc.destinations.None? then Failure(KeyError("destinations"))
      else
        var ds := doc.destinations.value;
        var n := FirstIncomplete(ds.keys, ds.entries);
        if n < |ds.keys| then
          Failure(KeyError(if ds.entries[ds.keys[n]].geonetwork.None? then "geonetwork" else "geoserver"))
        else
          assert forall k :: k in ds.entries ==> Complete(ds.entries[k]) by {
            forall k | k in ds.entries ensures Complete(ds.entries[k]) {
              var i :| 0 <= i < |ds.keys| && ds.keys[i] == k;
            }
          }
          Success(ConfigData(sources.own, sources.gnInstances.value, sources.gsInstances.value, Destinations(ds)))
  }

  /** `EMPTY_CONFIG` has every structural key, and nothing under any of them. */
  lemma EmptyDocumentShaped()
    ensures Shape(EmptyDocument()) == Success(ConfigData(map[], [], [], Empty()))
  {
  }

  /** The document `Config(env_var_name)` starts from: the named file, or `EMPTY_CONFIG`. */
  function Loaded(envVarName: Option<string>, env: Env, load: string -> Document): Document {
    if envVarName.Some? && envVarName.value in env then load(env[envVarName.value]) else EmptyDocument()
  }

  /**
   * `Config(env_var_name)`: the document is loaded and its credentials
   * resolved. A missing structural key makes `read_all_credentials` raise,
   * and no configuration is made.
   */
  method NewConfig(envVarName: Option<string>, env: Env, load: string -> Document) returns (r: Result<Config, ConfigFailure>)
    ensures var shaped := Shape(Loaded(envVarName, env, load));
      && (r.Success? <==> shaped.Success?)
      && (r.Failure? ==> r.error == shaped.error)
      && (r.Success? ==> fresh(r.value) && r.value.config == CredentialsApplied(shaped.value, env))
  {
    var shaped := Shape(Loaded(envVarName, env, load));
    if shaped.Failure? {
      return Failure(shaped.error);
    }
    var c := new Config(shaped.value, env);
    return Success(c);
  }

  class Config {
    var config: ConfigData

    /**
     * The part of `Config(env_var_name)` after loading, for a document with
     * every structural key: its credentials are resolved.
     */
    constructor (data: ConfigData, env: Env)
      ensures config == CredentialsApplied(data, env)
    {
      config := data;
      new;
      ReadAllCredentials(env);
    }

    /**
     * `read_all_credentials()`: the sources-level pair is resolved and handed
     * down to every source instance; each destination resolves its own pair
     * and hands it down to its two servers. Entries are rewritten in place,
     * so every list keeps its length and order.
     */
    method ReadAllCredentials(env: Env)
      modifies this
      ensures config == CredentialsApplied(old(config), env)
    {
      var top := SubstituteSingle(config.sources, NoCredentials, env);
      var gn := SubstituteEach(config.gnInstances, top.1, env);
      var gs := SubstituteEach(config.gsInstances, top.1, env);
      var destinations := SubstituteEachDestination(config.destinations, env);
      config := ConfigData(top.0, gn, gs, destinations);
    }

    /** `get_gn_sources()`: name and API URL of each source GeoNetwork, in configured order. */
    function GetGnSources(): (r: Result<seq<(string, string)>, ConfigFailure>)
      reads this
      ensures r.Success? <==> forall i :: 0 <= i < |config.gnInstances| ==>
        "name" in config.gnInstances[i] && "api_url" in config.gnInstances[i]
      ensures r.Success? ==> |r.value| == |config.gnInstances| && forall i :: 0 <= i < |r.value| ==>
        r.value[i] == (config.gnInstances[i]["name"], config.gnInstances[i]["api_url"])
    {
      var instances := config.gnInstances;
      match FirstMissing(instances, ["name", "api_url"])
      case Some(key) => Failure(KeyError(key))
      case None =>
        assert forall i :: 0 <= i < |instances| ==> "name" in instances[i] && "api_url" in instances[i] by {
          forall i | 0 <= i < |instances| ensures "name" in instances[i] && "api_url" in instances[i] {
            assert ["name", "api_url"][0] in instances[i] && ["name", "api_url"][1] in instances[i];
          }
        }
        Success(seq(|instances|, i requires 0 <= i < |instances| => (instances[i]["name"], instances[i]["api_url"])))
    }

    /** `get_gs_sources()`: the URL of each source GeoServer, in configured order. */
    function GetGsSources(): (r: Result<seq<string>, ConfigFailure>)
      reads this
      ensures r.Success? <==> forall i :: 0 <= i < |config.gsInstances| ==> "url" in config.gsInstances[i]
      ensures r.Success? ==> |r.value| == |config.gsInstances| && forall i :: 0 <= i < |r.value| ==>
        r.value[i] == config.gsInstances[i]["url"]
    {
      var instances := config.gsInstances;
      match FirstMissing(instances, ["url"])
      case Some(key) => Failure(KeyError(key))
      case None =>
        assert forall i :: 0 <= i < |instances| ==> "url" in instances[i] by {
          forall i | 0 <= i < |instances| ensures "url" in instances[i] {
            assert ["url"][0] in instances[i];
          }
        }
        Success(seq(|instances|, i requires 0 <= i < |instances| => instances[i]["url"]))
    }

    /** `get_destinations()`: name, GeoNetwork API URL and GeoServer URL of each destination, in key order. */
    function GetDestinations(): (r: Result<seq<(string, string, string)>, ConfigFailure>)
      reads this
      ensures r.Success? <==> forall i :: 0 <= i < |config.destinations.keys| ==>
        "api_url" in config.destinations.entries[config.destinations.keys[i]].geonetwork
        && "url" in config.destinations.entries[config.destinations.keys[i]].geoserver
      ensures r.Success? ==> |r.value| == |config.destinations.keys| && forall i :: 0 <= i < |r.value| ==>
        var d := config.destinations.entries[config.destinations.keys[i]];
        r.value[i] == (config.destinations.keys[i], d.geonetwork["api_url"], d.geoserver["url"])
    {
      DestinationRows(config.destinations.keys, config.destinations.entries)
    }

    /**
     * `get_access_info(is_src, is_geonetwork, instance_id)`: source
     * GeoNetworks are matched by `name`, source GeoServers by `url`,
     * destinations by their key; the first match wins, an unknown id is a
     * `ConfigError`, and `auth` is `None` unless both login and password are set.
     */
    function GetAccessInfo(isSource: bool, isGeonetwork: bool, instanceId: string): (r: Result<AccessInfo, ConfigFailure>)
      reads this
      ensures isSource ==>
        var instances := if isGeonetwork then config.gnInstances else config.gsInstances;
        var field := if isGeonetwork then "name" else "url";
        && (FirstMatch(instances, field, instanceId).Failure? ==> r == Failure(KeyError(field)))
        && (FirstMatch(instances, field, instanceId) == Success(None) ==>
              r == Failure(ConfigError(NotFoundMessage(instanceId, isGeonetwork, true))))
        && (forall i :: FirstMatch(instances, field, instanceId) == Success(Some(i)) ==>
              r == AccessOf(instances[i], if isGeonetwork then "api_url" else "url"))
      ensures !isSource ==>
        && (instanceId !in config.destinations.entries ==>
              r == Failure(ConfigError(NotFoundMessage(instanceId, isGeonetwork, false))))
        && (instanceId in config.destinations.entries ==>
              var d := config.destinations.entries[instanceId];
              r == AccessOf(if isGeonetwork then d.geonetwork else d.geoserver, if isGeonetwork then "api_url" else "url"))
      ensures r.Success? ==> (r.value.auth.Some? ==> r.value.auth.value.login.Some? && r.value.auth.value.password.Some?)
    {
      if isSource then
        var instances := if isGeonetwork then config.gnInstances else config.gsInstances;
        var field := if isGeonetwork then "name" else "url";
        match FirstMatch(instances, field, instanceId)
        case Failure(e) => Failure(e)
        case Success(None) => Failure(ConfigError(NotFoundMessage(instanceId, isGeonetwork, true)))
        case Success(Some(i)) => AccessOf(instances[i], if isGeonetwork then "api_url" else "url")
      else if instanceId !in config.destinations.entries then
        Failure(ConfigError(NotFoundMessage(instanceId, isGeonetwork, false)))
      else
        var d := config.destinations.entries[instanceId];
        AccessOf(if isGeonetwork then d.geonetwork else d.geoserver, if isGeonetwork then "api_url" else "url")
    }
  }

  /** The rows of `get_destinations` for the keys in order; the first missing URL key fails. */
  function DestinationRows(keys: seq<string>, entries: map<string, Destination>): (r: Result<seq<(string, string, string)>, ConfigFailure>)
    requires forall i :: 0 <= i < |keys| ==> keys[i] in entries
    ensures r.Success? <==> forall i :: 0 <= i < |keys| ==>
      "api_url" in entries[keys[i]].geonetwork && "url" in entries[keys[i]].geoserver
    ensures r.Success? ==> |r.value| == |keys| && forall i :: 0 <= i < |r.value| ==>
      r.value[i] == (keys[i], entries[keys[i]].geonetwork["api_url"], entries[keys[i]].geoserver["url"])
    decreases |keys|
  {
    if keys == [] then Success([])
    else
      var d := entries[keys[0]];
      if "api_url" !in d.geonetwork then Failure(KeyError("api_url"))
      else if "url" !in d.geoserver then Failure(KeyError("url"))
      else
        var rest := DestinationRows(keys[1..], entries);
        assert forall i :: 1 <= i < |keys| ==> keys[i] == keys[1..][i - 1];
        match rest
        case Failure(e) => Failure(e)
        case Success(rows) => Success([(keys[0], d.geonetwork["api_url"], d.geoserver["url"])] + rows)
  }
}
