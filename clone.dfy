/**
 * The layer and style replicator `CloneDataset` (backend/maelstro/core/clone.py):
 * for each source GeoServer it fetches the layers a metadata record links to,
 * collects their styles, datastores and workspaces into name-keyed dicts,
 * checks that every workspace and datastore exists on the destination, and
 * only then copies the styles and, after them, the layers.
 *
 * Both GeoServers are reached through one `Network` object: a fixed reply
 * for every request, and the trace of the requests sent so far. Every
 * request is tagged with the step of `clone_layers` that sent it, so that
 * "every check comes before any write" and "styles before layers" are
 * properties of the trace.
 */
module Clone {
  import opened Wrappers
  import opened Strings
  import opened Dicts
  import opened Types
  import opened Errors
  import CoreExceptions
  import Operations
  import Georchestra

  // ---------------------------------------------------------------------
  // The JSON documents read from GeoServer, reduced to the fields used
  // ---------------------------------------------------------------------

  /** A style reference: its name, its workspace when it has one, and its link. */
  datatype StyleRef = StyleRef(name: string, workspace: Option<string>, href: string)

  /**
   * `layer["styles"]["style"]`: absent, a single object (which the API sends
   * for a one-element list), or a list.
   */
  datatype AdditionalStyles = NoStyles | SingleStyle(style: StyleRef) | StyleList(styles: seq<StyleRef>)

  /** `layer["resource"]`: the feature type or coverage the layer publishes. */
  datatype ResourceRef = ResourceRef(name: string, resourceClass: string, href: string)

  /** A store reference found in a resource document. */
  datatype StoreRef = StoreRef(name: string, storeClass: string, href: string)

  /** A workspace reference found in a store document. */
  datatype WorkspaceRef = WorkspaceRef(name: string, href: string)

  /** `/rest/layers/{name}.json`, with `serialized` standing for `json.dumps` of the whole document. */
  datatype LayerData = LayerData(defaultStyle: StyleRef, additional: AdditionalStyles,
                                 resource: ResourceRef, serialized: string)

  /** What a reply's JSON body is, as far as the code reads it. */
  datatype Payload =
    | Opaque
    | LayerDoc(layer: LayerData)
    /** `resource_info[resource_class]["store"]`, by resource class. */
    | ResourceDoc(stores: map<string, StoreRef>)
    /** `store_info[store_class]["workspace"]`, by store class. */
    | StoreDoc(workspaces: map<string, WorkspaceRef>)
    /** `style_info["style"]["format"]`. */
    | StyleDoc(format: string)

  /** A reply: status, raw text (`.content`/`.text`), content type header and parsed body. */
  datatype Reply = Reply(status: int, text: string, contentType: string, payload: Payload)

  // ---------------------------------------------------------------------
  // Requests and the network
  // ---------------------------------------------------------------------

  datatype Verb = GET | PUT | POST | DELETE {
    function Name(): string {
      match this
      case GET => "GET"
      case PUT => "PUT"
      case POST => "POST"
      case DELETE => "DELETE"
    }
  }

  /** A request body: none, a JSON document (as text), or raw data with its content type. */
  datatype Body = NoBody | JsonBody(text: string) | RawBody(content: string, contentType: string)

  /** The step of `clone_layers` a request belongs to. */
  datatype Phase = Discover | Check | CopyStyle | CopyLayer

  function Rank(p: Phase): nat {
    match p
    case Discover => 0
    case Check => 1
    case CopyStyle => 2
    case CopyLayer => 3
  }

  /** Discovery and checks only read. */
  predicate ReadOnly(p: Phase) {
    p == Discover || p == Check
  }

  /** One request: the server's base URL, the verb, the route below it, the body, the step. */
  datatype Call = Call(host: string, verb: Verb, route: string, body: Body, phase: Phase)

  predicate IsWrite(c: Call) {
    c.verb != GET
  }

  /** The GETs of `routes` on `host`, in order. */
  function Gets(host: string, routes: seq<string>, phase: Phase): (r: seq<Call>)
    ensures |r| == |routes|
    ensures forall i :: 0 <= i < |routes| ==> r[i] == Call(host, GET, routes[i], NoBody, phase)
  {
    seq(|routes|, i requires 0 <= i < |routes| => Call(host, GET, routes[i], NoBody, phase))
  }

  lemma GetsAppend(host: string, routes: seq<string>, i: nat, phase: Phase)
    requires i < |routes|
    ensures Gets(host, routes[..i + 1], phase) == Gets(host, routes[..i], phase) + [Call(host, GET, routes[i], NoBody, phase)]
  {
  }

  /** The servers as seen from the copy engine: a fixed reply per request, and the requests sent. */
  class Network {
    const respond: (string, Verb, string, Body) -> Reply
    var trace: seq<Call>

    constructor (respond: (string, Verb, string, Body) -> Reply)
      ensures this.respond == respond && trace == []
    {
      this.respond := respond;
      trace := [];
    }

    /** Sending a request appends it to the trace and returns its reply. */
    method Send(host: string, verb: Verb, route: string, body: Body, phase: Phase) returns (r: Reply)
      modifies this`trace
      ensures trace == old(trace) + [Call(host, verb, route, body, phase)]
      ensures r == respond(host, verb, route, body)
    {
      trace := trace + [Call(host, verb, route, body, phase)];
      r := respond(host, verb, route, body);
    }
  }

  /** The reply a recorded call received. */
  function ReplyTo(respond: (string, Verb, string, Body) -> Reply, c: Call): Reply {
    respond(c.host, c.verb, c.route, c.body)
  }

  /** `raise_for_status` on a reply to `verb host+route`. */
  function StatusCheck(host: string, verb: Verb, route: string, reply: Reply): (r: Outcome<Error>)
    ensures r.Fail? <==> Operations.IsHttpError(reply.status)
    ensures r.Fail? ==> r.error.Common? && r.error.common.details.statusCode == reply.status
  {
    match Operations.RaiseForStatus(Operations.Response(verb.Name(), host + route, reply.status, reply.text))
    case Pass => Pass
    case Fail(e) => Fail(Common(e))
  }

  // ---------------------------------------------------------------------
  // Styles and workspaces (pure)
  // ---------------------------------------------------------------------

  /** `layer["styles"]["style"]` as a list: a single object counts as a one-element list. */
  function AdditionalList(a: AdditionalStyles): seq<StyleRef> {
    match a
    case NoStyles => []
    case SingleStyle(s) => [s]
    case StyleList(ss) => ss
  }

  /** The default style followed by the additional ones. */
  function LayerStyles(layer: LayerData): seq<StyleRef> {
    [layer.defaultStyle] + AdditionalList(layer.additional)
  }

  function Named(styles: seq<StyleRef>): (r: seq<(string, StyleRef)>)
    ensures |r| == |styles|
    ensures forall i :: 0 <= i < |styles| ==> r[i] == (styles[i].name, styles[i])
  {
    seq(|styles|, i requires 0 <= i < |styles| => (styles[i].name, styles[i]))
  }

  /** `get_styles_from_layer(layer_data)`: the layer's styles keyed by name. */
  function StylesFromLayer(layer: LayerData): Dict<string, StyleRef> {
    PutAll(Empty(), Named(LayerStyles(layer)))
  }

  /**
   * A name is a key of the style map iff one of the layer's styles has it,
   * and its value is the last style of that name.
   */
  lemma StylesFromLayerByName(layer: LayerData, i: nat)
    requires i < |LayerStyles(layer)|
    requires forall j :: i < j < |LayerStyles(layer)| ==> LayerStyles(layer)[j].name != LayerStyles(layer)[i].name
    ensures LayerStyles(layer)[i].name in StylesFromLayer(layer).entries
    ensures StylesFromLayer(layer).entries[LayerStyles(layer)[i].name] == LayerStyles(layer)[i]
  {
    var ss := LayerStyles(layer);
    PutAllLastWins(Empty(), Named(ss), i);
  }

  lemma StylesFromLayerKeys(layer: LayerData, name: string)
    ensures name in StylesFromLayer(layer).entries <==> exists s :: s in LayerStyles(layer) && s.name == name
  {
    var ss := LayerStyles(layer);
    PutAllKeys(Empty(), Named(ss), name);
    if name in KeysOf(Named(ss)) {
      var i :| 0 <= i < |KeysOf(Named(ss))| && KeysOf(Named(ss))[i] == name;
      assert ss[i] in ss && ss[i].name == name;
    }
    if exists s :: s in ss && s.name == name {
      var s :| s in ss && s.name == name;
      var i :| 0 <= i < |ss| && ss[i] == s;
      assert KeysOf(Named(ss))[i] == name;
    }
  }

  /** The API's single-object form gives the same style map as a one-element list. */
  lemma SingleStyleAsList(d: StyleRef, s: StyleRef, res: ResourceRef, text: string)
    ensures StylesFromLayer(LayerData(d, SingleStyle(s), res, text))
         == StylesFromLayer(LayerData(d, StyleList([s]), res, text))
  {
  }

  /** `styles.update(get_styles_from_layer(l))` for each layer in turn. */
  function CollectStyles(layers: seq<LayerData>): Dict<string, StyleRef>
    decreases |layers|
  {
    if layers == [] then Empty()
    else PutAll(CollectStyles(layers[..|layers| - 1]), Items(StylesFromLayer(layers[|layers| - 1])))
  }

  lemma KeysOfItems<K, V>(d: Dict<K, V>, k: K)
    ensures k in KeysOf(Items(d)) <==> k in d.entries
  {
    if k in d.entries {
      assert k in d.keys;
      var i :| 0 <= i < |d.keys| && d.keys[i] == k;
      assert KeysOf(Items(d))[i] == k;
    }
  }

  /** The collected style map holds exactly the names of the styles of all the layers. */
  lemma {:induction false} CollectStylesKeys(layers: seq<LayerData>, name: string)
    ensures name in CollectStyles(layers).entries <==>
      exists l, s :: l in layers && s in LayerStyles(l) && s.name == name
    decreases |layers|
  {
    if layers != [] {
      var init, last := layers[..|layers| - 1], layers[|layers| - 1];
      assert layers == init + [last];
      CollectStylesKeys(init, name);
      PutAllKeys(CollectStyles(init), Items(StylesFromLayer(last)), name);
      KeysOfItems(StylesFromLayer(last), name);
      StylesFromLayerKeys(last, name);
    }
  }

  /**
   * `workspaces.update(get_workspaces_from_style(style))` for each style,
   * skipping the styles that have no workspace (the `KeyError` is swallowed).
   */
  function StyleWorkspaces(styles: seq<StyleRef>, acc: Dict<string, Option<WorkspaceRef>>): Dict<string, Option<WorkspaceRef>>
    decreases |styles|
  {
    if styles == [] then acc
    else
      var acc' := if styles[0].workspace.Some? then Put(acc, styles[0].workspace.value, None) else acc;
      StyleWorkspaces(styles[1..], acc')
  }

  /**
   * Only styles with a workspace add an entry, and that entry is `None`
   * (style data carries no workspace link).
   */
  lemma {:induction false} StyleWorkspacesEntries(styles: seq<StyleRef>, acc: Dict<string, Option<WorkspaceRef>>, k: string)
    requires forall w :: w in acc.entries ==> acc.entries[w].None?
    ensures k in StyleWorkspaces(styles, acc).entries <==>
      k in acc.entries || exists s :: s in styles && s.workspace == Some(k)
    ensures k in StyleWorkspaces(styles, acc).entries ==> StyleWorkspaces(styles, acc).entries[k].None?
    decreases |styles|
  {
    if styles != [] {
      var acc' := if styles[0].workspace.Some? then Put(acc, styles[0].workspace.value, None) else acc;
      StyleWorkspacesEntries(styles[1..], acc', k);
      assert styles == [styles[0]] + styles[1..];
    }
  }

  // ---------------------------------------------------------------------
  // Routes (pure)
  // ---------------------------------------------------------------------

  /** `href.replace(gs_src.url, "")`. */
  function Strip(href: string, base: string): string {
    ReplaceAll(href, base, "")
  }

  /** The probe route of a workspace entry: by name when it came from a style, else its stripped link. */
  function WorkspaceRoute(name: string, ws: Option<WorkspaceRef>, base: string): string {
    match ws
    case None => "/rest/workspaces/" + name
    case Some(w) => Strip(w.href, base)
  }

  /** `f"/rest/layers/{layer_name}.json"`. */
  function LayerDocRoute(name: GsLayer): string {
    "/rest/layers/" + LayerToString(name) + ".json"
  }

  /** `f"/rest/layers/{layer_name}"`, the layer binding. */
  function LayerRoute(name: GsLayer): string {
    "/rest/layers/" + LayerToString(name)
  }

  /** `route.replace(".json", ".xml")`. */
  function XmlRoute(route: string): string {
    ReplaceAll(route, ".json", ".xml")
  }

  /** A route whose only dot starts its `.json` suffix gets the `.xml` suffix instead. */
  lemma {:induction false} XmlRouteOf(p: string)
    requires '.' !in p
    ensures XmlRoute(p + ".json") == p + ".xml"
    decreases |p|
  {
    if p == [] {
      assert p + ".json" == ".json" && ".json"[5..] == [];
    } else {
      assert !(".json" <= p + ".json") by {
        assert (p + ".json")[0] == p[0] != '.';
      }
      XmlRouteOf(p[1..]);
      assert (p + ".json")[1..] == p[1..] + ".json";
    }
  }

  /**
   * `re.sub(r"/[^/]*\.xml$", "", route)`: a route ending in `/<segment>.xml`
   * loses that last segment; any other route is unchanged.
   */
  function PostRoute(route: string): (r: string)
    ensures r <= route
    ensures r != route ==> EndsWith(route, ".xml") && route[|r|] == '/' && '/' !in route[|r| + 1..] && |r| + 5 <= |route|
  {
    match LastIndexOf(route, '/')
    case None => route
    case Some(k) => if EndsWith(route, ".xml") && k + 5 <= |route| then route[..k] else route
  }

  lemma PostRouteOf(prefix: string, segment: string)
    requires '/' !in segment
    ensures PostRoute(prefix + "/" + segment + ".xml") == prefix
  {
    var route := prefix + "/" + segment + ".xml";
    XmlRouteSplits(prefix, segment);
    LastIndexOfAt(route, '/', |prefix|);
  }

  /** How an XML route `<prefix>/<segment>.xml` reads around its last slash. */
  lemma XmlRouteSplits(prefix: string, segment: string)
    requires '/' !in segment
    ensures var route := prefix + "/" + segment + ".xml";
      && route[|prefix|] == '/' && '/' !in route[|prefix| + 1..]
      && EndsWith(route, ".xml") && route[..|prefix|] == prefix
  {
    var route := prefix + "/" + segment + ".xml";
    assert route[|prefix| + 1..] == segment + ".xml";
    assert route[|route| - 4..] == ".xml";
    assert route[..|prefix|] == prefix;
  }

  /** A route not ending in `.xml` is its own POST route. */
  lemma PostRouteKeepsOthers(route: string)
    requires !EndsWith(route, ".xml")
    ensures PostRoute(route) == route
  {
  }

  /** A feature-type route `<collection>/<name>.json` posts to `<collection>`. */
  lemma ResourceRoutesOf(collection: string, name: string)
    requires '.' !in collection && '.' !in name && '/' !in name
    ensures XmlRoute(collection + "/" + name + ".json") == collection + "/" + name + ".xml"
    ensures PostRoute(XmlRoute(collection + "/" + name + ".json")) == collection
  {
    assert collection + "/" + name + ".json" == (collection + "/" + name) + ".json";
    XmlRouteOf(collection + "/" + name);
    PostRouteOf(collection, name);
  }

  /**
   * `re.sub(r"/styles/.*\.json", "/styles", route)`: from the first
   * "/styles/" to the last ".json" after it collapses to "/styles".
   */
  function StylePostRoute(route: string): (r: string)
    ensures r == route || exists i: nat, j: nat :: (
      && OccursAt(route, "/styles/", i) && i + 8 <= j && OccursAt(route, ".json", j)
      && r == route[..i] + "/styles" + route[j + 5..])
  {
    match FindFrom(route, "/styles/", 0)
    case None => route
    case Some(i) =>
      match RFindFrom(route, ".json", i + 8)
      case None => route
      case Some(j) => route[..i] + "/styles" + route[j + 5..]
  }

  /**
   * A style route `<prefix>/styles/<name>.json` posts to `<prefix>/styles`,
   * as long as the prefix holds no "/styles/" of its own.
   */
  lemma StylePostRouteOf(prefix: string, name: string)
    requires !Contains(prefix + "/styles", "/styles/")
    ensures StylePostRoute(prefix + "/styles/" + name + ".json") == prefix + "/styles"
  {
    var route := prefix + "/styles/" + name + ".json";
    StyleRouteSplits(prefix, name);
    assert route == (prefix + "/styles") + ("/" + name + ".json");
    forall m: nat | m < |prefix|
      ensures !OccursAt(route, "/styles/", m)
    {
      NoOccurrenceInHead(prefix + "/styles", "/" + name + ".json", "/styles/", m);
    }
    FindFromFirst(route, "/styles/", |prefix|);
    RFindFromEnd(route, ".json", |prefix| + 8);
  }

  /** How a style route `<prefix>/styles/<name>.json` reads around its two markers. */
  lemma StyleRouteSplits(prefix: string, name: string)
    ensures var route := prefix + "/styles/" + name + ".json";
      && route == (prefix + "/styles") + ("/" + name + ".json")
      && OccursAt(route, "/styles/", |prefix|)
      && route[|route| - 5..] == ".json"
      && route[..|prefix|] == prefix
  {
    var route := prefix + "/styles/" + name + ".json";
    assert route[|prefix|..|prefix| + 8] == "/styles/";
    assert route[|route| - 5..] == ".json";
    assert route[..|prefix|] == prefix;
    assert route == (prefix + "/styles") + ("/" + name + ".json");
  }

  /** `style_route.replace(".json", f".{style_format}")`. */
  function StyleDefRoute(route: string, format: string): string {
    ReplaceAll(route, ".json", "." + format)
  }

  // ---------------------------------------------------------------------
  // The resource decision table and the layer binding (pure)
  // ---------------------------------------------------------------------

  /** How `clone_layer` writes a layer's resource on the destination. */
  datatype ResourceAction =
    /** The resource exists but the layer does not: DELETE it, then POST it anew. */
    | Recreate
    /** Both exist: PUT the resource on its `.xml` route. */
    | Update
    /** No resource: POST it to its collection. */
    | Create

  function ResourceActionFor(resourceStatus: int, layerStatus: int): (a: ResourceAction)
    ensures a == Recreate <==> resourceStatus == 200 && layerStatus != 200
    ensures a == Update <==> resourceStatus == 200 && layerStatus == 200
    ensures a == Create <==> resourceStatus != 200
  {
    if resourceStatus == 200 then (if layerStatus != 200 then Recreate else Update) else Create
  }

  /** The layer document sent to the destination: the source URL replaced by the destination URL throughout. */
  function BindingBody(layer: LayerData, srcUrl: string, dstUrl: string): Body {
    JsonBody(ReplaceAll(layer.serialized, srcUrl, dstUrl))
  }

  /** A link into the source server becomes the same link into the destination. */
  lemma RewriteLink(srcUrl: string, dstUrl: string, path: string)
    requires srcUrl != [] && !Contains(path, srcUrl)
    ensures ReplaceAll(srcUrl + path, srcUrl, dstUrl) == dstUrl + path
  {
    assert srcUrl <= srcUrl + path;
    assert (srcUrl + path)[|srcUrl|..] == path;
    ReplaceAbsent(path, srcUrl, dstUrl);
  }

  /** A document without the source URL, or a copy onto the same URL, is sent unchanged. */
  lemma BindingBodyUnchanged(layer: LayerData, srcUrl: string, dstUrl: string)
    requires srcUrl != []
    requires !Contains(layer.serialized, srcUrl) || srcUrl == dstUrl
    ensures BindingBody(layer, srcUrl, dstUrl) == JsonBody(layer.serialized)
  {
    if srcUrl == dstUrl {
      ReplaceByItself(layer.serialized, srcUrl);
    } else {
      ReplaceAbsent(layer.serialized, srcUrl, dstUrl);
    }
  }

  // ---------------------------------------------------------------------
  // The destination check failure
  // ---------------------------------------------------------------------

  /**
   * What `check_workspaces` and `check_datastores` raise on a 404, as
   * written: the `MaelstroDetail` dataclass is called with an `operations`
   * keyword it does not declare, so the call itself fails with `TypeError`.
   */
  function MissingOnDestinationAsWritten(what: string, name: string, route: string, dstName: string): (e: Error)
    ensures e.Builtin? && e.name == "TypeError"
  {
    Builtin("TypeError")
  }

  /**
   * The intended failure: `ParamError` (406) in the "dst" context, keyed by
   * the probed route, naming the missing workspace or datastore and the
   * destination.
   */
  function MissingOnDestination(what: string, name: string, route: string, dstName: string): (e: Error)
    ensures e.Core? && e.core.kind == CoreExceptions.Param && e.core.statusCode == 406
    ensures e.core.detail.context == "dst" && e.core.detail.key == Some(route)
    ensures e.core.detail.err == what + " " + name + " not found on destination Geoserver " + dstName
  {
    Core(CoreExceptions.MaelstroException(CoreExceptions.Param, 406, CoreExceptions.DetailDict(
      what + " " + name + " not found on destination Geoserver " + dstName, 406, "dst", None, Some(route), None)))
  }

  /** The two differ for every input: the as-written check never produces the `ParamError`. */
  lemma MissingOnDestinationDiffers(what: string, name: string, route: string, dstName: string)
    ensures MissingOnDestinationAsWritten(what, name, route, dstName) != MissingOnDestination(what, name, route, dstName)
    ensures !MissingOnDestinationAsWritten(what, name, route, dstName).Core?
  {
  }

  /** The `ParamError` `clone_layer` raises when POSTing a resource finds no route. */
  function RouteNotFound(route: string): (e: Error)
    ensures e.Core? && e.core.kind == CoreExceptions.Param && e.core.statusCode == 406
    ensures e.core.detail.context == "dst" && e.core.detail.key == Some(route)
    ensures e.core.detail.err == "Route not found. Check Workspace and datastore"
  {
    Core(CoreExceptions.MaelstroException(CoreExceptions.Param, 406, CoreExceptions.DetailDict(
      "Route not found. Check Workspace and datastore", 406, "dst", None, Some(route), None)))
  }

  /** The requests `clone_layer` sends to write a layer's resource, by decision. */
  function ResourceWrites(dstUrl: string, action: ResourceAction, route: string, content: Body): (w: seq<Call>)
    ensures |w| >= 1 && forall i :: 0 <= i < |w| ==> IsWrite(w[i]) && w[i].host == dstUrl
    ensures action == Recreate ==> w == [Call(dstUrl, DELETE, route, NoBody, CopyLayer),
                                         Call(dstUrl, POST, PostRoute(XmlRoute(route)), content, CopyLayer)]
    ensures action == Update ==> w == [Call(dstUrl, PUT, XmlRoute(route), content, CopyLayer)]
    ensures action == Create ==> w == [Call(dstUrl, POST, PostRoute(XmlRoute(route)), content, CopyLayer)]
  {
    match action
    case Recreate => [Call(dstUrl, DELETE, route, NoBody, CopyLayer),
                      Call(dstUrl, POST, PostRoute(XmlRoute(route)), content, CopyLayer)]
    case Update => [Call(dstUrl, PUT, XmlRoute(route), content, CopyLayer)]
    case Create => [Call(dstUrl, POST, PostRoute(XmlRoute(route)), content, CopyLayer)]
  }

  // ---------------------------------------------------------------------
  // Trace properties
  // ---------------------------------------------------------------------

  /** `after` extends `before` by requests of step `p` only; discovery and check steps only read. */
  ghost predicate Grows(before: seq<Call>, after: seq<Call>, p: Phase) {
    && before <= after
    && forall i :: |before| <= i < |after| ==> after[i].phase == p && (ReadOnly(p) ==> after[i].verb == GET)
  }

  lemma GrowsTrans(a: seq<Call>, b: seq<Call>, c: seq<Call>, p: Phase)
    requires Grows(a, b, p) && Grows(b, c, p)
    ensures Grows(a, c, p)
  {
    forall i | |a| <= i < |b|
      ensures c[i] == b[i]
    {
    }
  }

  /** Appending calls of phase `p` (only reads, when `p` is read-only) grows the trace. */
  lemma GrowsByOne(before: seq<Call>, added: seq<Call>, p: Phase)
    requires forall i :: 0 <= i < |added| ==> added[i].phase == p && (ReadOnly(p) ==> added[i].verb == GET)
    ensures Grows(before, before + added, p)
  {
  }

  lemma GetsGrow(before: seq<Call>, host: string, routes: seq<string>, p: Phase)
    ensures Grows(before, before + Gets(host, routes, p), p)
  {
  }

  /** Every check request added after `before` got a reply that is not an HTTP error. */
  ghost predicate Passed(before: seq<Call>, after: seq<Call>, respond: (string, Verb, string, Body) -> Reply) {
    forall i :: |before| <= i < |after| && after[i].phase == Check ==>
      !Operations.IsHttpError(ReplyTo(respond, after[i]).status)
  }

  /**
   * What `clone_layers` promises for one source server, about the requests
   * it added to the trace: discovery, checks, styles and layers follow each
   * other in that order; only the copy steps write; a write comes after
   * every check, and only when every check passed; a step whose flag is
   * off sends nothing.
   */
  ghost predicate Sound(before: seq<Call>, after: seq<Call>, respond: (string, Verb, string, Body) -> Reply,
                        copyStyles: bool, copyLayers: bool) {
    && before <= after
    && (forall i, j :: |before| <= i < j < |after| ==> Rank(after[i].phase) <= Rank(after[j].phase))
    && (forall i :: |before| <= i < |after| && IsWrite(after[i]) ==> !ReadOnly(after[i].phase))
    && (forall i, j :: |before| <= i < |after| && |before| <= j < |after| && IsWrite(after[i]) && after[j].phase == Check ==>
          j < i && !Operations.IsHttpError(ReplyTo(respond, after[j]).status))
    && (!copyStyles ==> forall i :: |before| <= i < |after| ==> after[i].phase != CopyStyle)
    && (!copyLayers ==> forall i :: |before| <= i < |after| ==> after[i].phase != CopyLayer)
  }

  /** Four consecutive steps, with the checks passed whenever anything was copied, make a sound trace. */
  lemma StagesSound(t0: seq<Call>, t1: seq<Call>, t2: seq<Call>, t3: seq<Call>, t4: seq<Call>,
                    respond: (string, Verb, string, Body) -> Reply, copyStyles: bool, copyLayers: bool)
    requires Grows(t0, t1, Discover) && Grows(t1, t2, Check) && Grows(t2, t3, CopyStyle) && Grows(t3, t4, CopyLayer)
    requires |t2| < |t4| ==> Passed(t1, t2, respond)
    requires !copyStyles ==> t3 == t2
    requires !copyLayers ==> t4 == t3
    ensures Sound(t0, t4, respond, copyStyles, copyLayers)
  {
    forall i | |t0| <= i < |t4|
      ensures i < |t1| ==> t4[i].phase == Discover && t4[i].verb == GET
      ensures |t1| <= i < |t2| ==> t4[i].phase == Check && t4[i].verb == GET && t4[i] == t2[i]
      ensures |t2| <= i < |t3| ==> t4[i].phase == CopyStyle
      ensures |t3| <= i ==> t4[i].phase == CopyLayer
    {
      if i < |t1| {
        assert t4[i] == t1[i];
      } else if i < |t2| {
        assert t4[i] == t2[i];
      } else if i < |t3| {
        assert t4[i] == t3[i];
      }
    }
  }

  /** The layer binding of `name` was PUT among the requests added after `before`. */
  ghost predicate Bound(before: seq<Call>, after: seq<Call>, name: GsLayer) {
    exists i :: |before| <= i < |after| && after[i].verb == PUT && after[i].route == LayerRoute(name)
  }

  /** Each step between consecutive cuts is `Sound`. */
  ghost predicate SoundCuts(cuts: seq<seq<Call>>, respond: (string, Verb, string, Body) -> Reply, copyStyles: bool, copyLayers: bool) {
    forall k :: 0 <= k < |cuts| - 1 ==> Sound(cuts[k], cuts[k + 1], respond, copyStyles, copyLayers)
  }

  lemma SoundCutsExtend(cuts: seq<seq<Call>>, t: seq<Call>, respond: (string, Verb, string, Body) -> Reply,
                        copyStyles: bool, copyLayers: bool)
    requires |cuts| >= 1 && SoundCuts(cuts, respond, copyStyles, copyLayers)
    requires Sound(cuts[|cuts| - 1], t, respond, copyStyles, copyLayers)
    ensures SoundCuts(cuts + [t], respond, copyStyles, copyLayers)
  {
    var cuts' := cuts + [t];
    forall k | 0 <= k < |cuts'| - 1
      ensures Sound(cuts'[k], cuts'[k + 1], respond, copyStyles, copyLayers)
    {
      if k < |cuts| - 1 {
        assert cuts'[k] == cuts[k] && cuts'[k + 1] == cuts[k + 1];
      }
    }
  }

  /** The `k`-th server's layers are all bound between cuts `k` and `k + 1`. */
  ghost predicate BoundCuts(cuts: seq<seq<Call>>, serverLayers: Dict<string, seq<GsLayer>>) {
    forall k, n :: 0 <= k < |cuts| - 1 && k < |serverLayers.keys| && n in serverLayers.entries[serverLayers.keys[k]] ==>
      Bound(cuts[k], cuts[k + 1], n)
  }

  lemma BoundCutsExtend(cuts: seq<seq<Call>>, t: seq<Call>, serverLayers: Dict<string, seq<GsLayer>>, names: seq<GsLayer>)
    requires 1 <= |cuts| <= |serverLayers.keys| && BoundCuts(cuts, serverLayers)
    requires names == serverLayers.entries[serverLayers.keys[|cuts| - 1]]
    requires forall n :: n in names ==> Bound(cuts[|cuts| - 1], t, n)
    ensures BoundCuts(cuts + [t], serverLayers)
  {
    var cuts' := cuts + [t];
    forall k, n | 0 <= k < |cuts'| - 1 && k < |serverLayers.keys| && n in serverLayers.entries[serverLayers.keys[k]]
      ensures Bound(cuts'[k], cuts'[k + 1], n)
    {
      if k < |cuts| - 1 {
        assert cuts'[k] == cuts[k] && cuts'[k + 1] == cuts[k + 1];
      }
    }
  }

  /** The destination write of a style: PUT over an existing one, POST to the collection otherwise. */
  function StyleWrite(dstUrl: string, route: string, existing: bool, info: Reply): Call {
    if existing then Call(dstUrl, PUT, route, JsonBody(info.text), CopyStyle)
    else Call(dstUrl, POST, StylePostRoute(route), JsonBody(info.text), CopyStyle)
  }

  /** The PUT of a style's raw definition, with the content type it was served with. */
  function DefinitionPut(dstUrl: string, defRoute: string, def: Reply): Call {
    Call(dstUrl, PUT, defRoute, RawBody(def.text, def.contentType), CopyStyle)
  }

  /**
   * The requests of one `clone_style` that went through: read the style and
   * its definition from the source, look it up on the destination, PUT it
   * there when it exists and POST it to the collection otherwise, then PUT
   * the definition. The style read, the PUT of an existing style and the
   * definition PUT succeeded; the definition read and the POST are not
   * checked.
   */
  ghost predicate StyleCopied(before: seq<Call>, after: seq<Call>, respond: (string, Verb, string, Body) -> Reply,
                              srcUrl: string, dstUrl: string, style: StyleRef) {
    var route := Strip(style.href, srcUrl);
    var info := respond(srcUrl, GET, route, NoBody);
    && !Operations.IsHttpError(info.status) && info.payload.StyleDoc?
    && var defRoute := StyleDefRoute(route, info.payload.format);
    && var existing := respond(dstUrl, GET, route, NoBody).status == 200;
    && var write := StyleWrite(dstUrl, route, existing, info);
    && var defPut := DefinitionPut(dstUrl, defRoute, respond(srcUrl, GET, defRoute, NoBody));
    && after == before + [Call(srcUrl, GET, route, NoBody, CopyStyle), Call(srcUrl, GET, defRoute, NoBody, CopyStyle),
                          Call(dstUrl, GET, route, NoBody, CopyStyle), write, defPut]
    && (existing ==> !Operations.IsHttpError(ReplyTo(respond, write).status))
    && !Operations.IsHttpError(ReplyTo(respond, defPut).status)
  }

  /** The requests of a `clone_style` whose reads went through and whose writes did not fail make up `StyleCopied`. */
  lemma StyleCopiedOf(before: seq<Call>, read: seq<Call>, after: seq<Call>, respond: (string, Verb, string, Body) -> Reply,
                      srcUrl: string, dstUrl: string, style: StyleRef)
    requires var route := Strip(style.href, srcUrl);
      var info := respond(srcUrl, GET, route, NoBody);
      && !Operations.IsHttpError(info.status) && info.payload.StyleDoc?
      && var defRoute := StyleDefRoute(route, info.payload.format);
      && read == before + [Call(srcUrl, GET, route, NoBody, CopyStyle), Call(srcUrl, GET, defRoute, NoBody, CopyStyle)]
      && var existing := respond(dstUrl, GET, route, NoBody).status == 200;
      && var write := StyleWrite(dstUrl, route, existing, info);
      && var defPut := DefinitionPut(dstUrl, defRoute, respond(srcUrl, GET, defRoute, NoBody));
      && !(existing && Operations.IsHttpError(ReplyTo(respond, write).status))
      && after == read + [Call(dstUrl, GET, route, NoBody, CopyStyle), write, defPut]
      && !Operations.IsHttpError(ReplyTo(respond, defPut).status)
    ensures StyleCopied(before, after, respond, srcUrl, dstUrl, style)
  {
  }

  /** The three requests that probe a layer's resource and binding on the destination and read the resource's XML. */
  function LayerProbes(srcUrl: string, dstUrl: string, route: string, name: GsLayer): seq<Call> {
    [Call(dstUrl, GET, route, NoBody, CopyLayer), Call(dstUrl, GET, LayerRoute(name), NoBody, CopyLayer),
     Call(srcUrl, GET, XmlRoute(route), NoBody, CopyLayer)]
  }

  /** The PUT of the layer binding. */
  function BindingPut(srcUrl: string, dstUrl: string, name: GsLayer, layer: LayerData): Call {
    Call(dstUrl, PUT, LayerRoute(name), BindingBody(layer, srcUrl, dstUrl), CopyLayer)
  }

  /**
   * The requests of one `clone_layer` that went through: probe the resource
   * and the layer on the destination, read the resource's XML from the
   * source, write the resource as the decision table says, then PUT the
   * layer binding with the URLs rewritten. Every write succeeded.
   */
  ghost predicate LayerCopied(before: seq<Call>, after: seq<Call>, respond: (string, Verb, string, Body) -> Reply,
                              srcUrl: string, dstUrl: string, name: GsLayer, layer: LayerData) {
    var route := Strip(layer.resource.href, srcUrl);
    var action := ResourceActionFor(respond(dstUrl, GET, route, NoBody).status,
                                    respond(dstUrl, GET, LayerRoute(name), NoBody).status);
    var content := RawBody(respond(srcUrl, GET, XmlRoute(route), NoBody).text, "application/xml");
    var writes := ResourceWrites(dstUrl, action, route, content);
    && after == before + LayerProbes(srcUrl, dstUrl, route, name) + writes + [BindingPut(srcUrl, dstUrl, name, layer)]
    && (forall i :: 0 <= i < |writes| ==> !Operations.IsHttpError(ReplyTo(respond, writes[i]).status))
    && !Operations.IsHttpError(ReplyTo(respond, BindingPut(srcUrl, dstUrl, name, layer)).status)
  }

  /** The probes, the successful resource writes and the successful binding PUT, in that order, are `LayerCopied`. */
  lemma LayerCopiedOf(before: seq<Call>, probed: seq<Call>, written: seq<Call>, after: seq<Call>,
                      respond: (string, Verb, string, Body) -> Reply,
                      srcUrl: string, dstUrl: string, name: GsLayer, layer: LayerData)
    requires var route := Strip(layer.resource.href, srcUrl);
      && probed == before + LayerProbes(srcUrl, dstUrl, route, name)
      && written == probed + ResourceWrites(dstUrl,
           ResourceActionFor(respond(dstUrl, GET, route, NoBody).status, respond(dstUrl, GET, LayerRoute(name), NoBody).status),
           route, RawBody(respond(srcUrl, GET, XmlRoute(route), NoBody).text, "application/xml"))
    requires forall i :: |probed| <= i < |written| ==> !Operations.IsHttpError(ReplyTo(respond, written[i]).status)
    requires after == written + [BindingPut(srcUrl, dstUrl, name, layer)]
    requires !Operations.IsHttpError(ReplyTo(respond, BindingPut(srcUrl, dstUrl, name, layer)).status)
    ensures LayerCopied(before, after, respond, srcUrl, dstUrl, name, layer)
  {
    var writes := written[|probed|..];
    forall i | 0 <= i < |writes|
      ensures !Operations.IsHttpError(ReplyTo(respond, writes[i]).status)
    {
      assert writes[i] == written[|probed| + i];
    }
  }

  /** In every branch, the binding PUT is the last request and comes after a successful resource write. */
  lemma BindingAfterResourceWrite(before: seq<Call>, after: seq<Call>, respond: (string, Verb, string, Body) -> Reply,
                                  srcUrl: string, dstUrl: string, name: GsLayer, layer: LayerData)
    requires LayerCopied(before, after, respond, srcUrl, dstUrl, name, layer)
    ensures |after| >= |before| + 5
    ensures after[|after| - 2].verb == PUT || after[|after| - 2].verb == POST
    ensures !Operations.IsHttpError(ReplyTo(respond, after[|after| - 2]).status)
    ensures after[|after| - 1].verb == PUT && after[|after| - 1].route == LayerRoute(name)
    ensures forall i :: |before| <= i < |after| - 1 ==>
      (|| after[i].route != LayerRoute(name) || after[i].verb == GET
       || LayerRoute(name) == Strip(layer.resource.href, srcUrl)
       || LayerRoute(name) == PostRoute(XmlRoute(Strip(layer.resource.href, srcUrl)))
       || LayerRoute(name) == XmlRoute(Strip(layer.resource.href, srcUrl)))
  {
    var route := Strip(layer.resource.href, srcUrl);
    var action := ResourceActionFor(respond(dstUrl, GET, route, NoBody).status,
                                    respond(dstUrl, GET, LayerRoute(name), NoBody).status);
    var content := RawBody(respond(srcUrl, GET, XmlRoute(route), NoBody).text, "application/xml");
    var w := ResourceWrites(dstUrl, action, route, content);
    var probes := LayerProbes(srcUrl, dstUrl, route, name);
    assert after[|after| - 2] == w[|w| - 1];
    forall i | |before| <= i < |after| - 1
      ensures after[i].route != LayerRoute(name) || after[i].verb == GET
        || LayerRoute(name) == route || LayerRoute(name) == PostRoute(XmlRoute(route)) || LayerRoute(name) == XmlRoute(route)
    {
      if i >= |before| + 3 {
        assert after[i] == w[i - |before| - 3];
      } else {
        assert after[i] == probes[i - |before|];
      }
    }
  }

  // ---------------------------------------------------------------------
  // CloneDataset
  // ---------------------------------------------------------------------

  /** `resource_info[resource_class]["store"]`, when the reply is a resource document with that class. */
  function StoreIn(reply: Reply, res: ResourceRef): Option<StoreRef> {
    if reply.payload.ResourceDoc? && res.resourceClass in reply.payload.stores
    then Some(reply.payload.stores[res.resourceClass]) else None
  }

  /** The store the source server names for a resource, read from the resource's own document. */
  function ResourceStore(respond: (string, Verb, string, Body) -> Reply, host: string, res: ResourceRef): Option<StoreRef> {
    StoreIn(respond(host, GET, Strip(res.href, host), NoBody), res)
  }

  predicate AllStoresFound(respond: (string, Verb, string, Body) -> Reply, host: string, resources: seq<ResourceRef>) {
    forall j :: 0 <= j < |resources| ==> ResourceStore(respond, host, resources[j]).Some?
  }

  /** The assignments `stores[store["name"]] = store` of `get_stores_from_layers`, one per resource. */
  function NamedStores(respond: (string, Verb, string, Body) -> Reply, host: string, resources: seq<ResourceRef>)
    : (r: seq<(string, StoreRef)>)
    requires AllStoresFound(respond, host, resources)
    ensures |r| == |resources|
    ensures forall j :: 0 <= j < |r| ==>
      r[j] == (ResourceStore(respond, host, resources[j]).value.name, ResourceStore(respond, host, resources[j]).value)
  {
    seq(|resources|, j requires 0 <= j < |resources| =>
      (ResourceStore(respond, host, resources[j]).value.name, ResourceStore(respond, host, resources[j]).value))
  }

  /** The collected stores are named exactly by the resources' stores. */
  lemma CollectedStoreNames(respond: (string, Verb, string, Body) -> Reply, host: string, resources: seq<ResourceRef>, k: string)
    requires AllStoresFound(respond, host, resources)
    ensures k in PutAll(Empty(), NamedStores(respond, host, resources)).entries <==>
      exists j :: 0 <= j < |resources| && ResourceStore(respond, host, resources[j]).value.name == k
  {
    var items := NamedStores(respond, host, resources);
    PutAllKeys(Empty(), items, k);
    if k in KeysOf(items) {
      var j :| 0 <= j < |items| && KeysOf(items)[j] == k;
      assert ResourceStore(respond, host, resources[j]).value.name == k;
    }
    if exists j :: 0 <= j < |resources| && ResourceStore(respond, host, resources[j]).value.name == k {
      var j :| 0 <= j < |resources| && ResourceStore(respond, host, resources[j]).value.name == k;
      assert KeysOf(items)[j] == k;
    }
  }

  /** Under a name, the store of the last resource whose store has that name. */
  lemma CollectedStoreLastWins(respond: (string, Verb, string, Body) -> Reply, host: string, resources: seq<ResourceRef>, j: nat)
    requires AllStoresFound(respond, host, resources) && j < |resources|
    requires forall l :: j < l < |resources| ==>
      ResourceStore(respond, host, resources[l]).value.name != ResourceStore(respond, host, resources[j]).value.name
    ensures var store := ResourceStore(respond, host, resources[j]).value;
      var d := PutAll(Empty(), NamedStores(respond, host, resources));
      store.name in d.entries && d.entries[store.name] == store
  {
    PutAllLastWins(Empty(), NamedStores(respond, host, resources), j);
  }

  /** The loop step of `get_stores_from_layers`: one more resource, one more assignment. */
  lemma NamedStoresStep(respond: (string, Verb, string, Body) -> Reply, host: string, resources: seq<ResourceRef>, i: nat,
                        stores: Dict<string, StoreRef>)
    requires i < |resources| && AllStoresFound(respond, host, resources[..i])
    requires stores == PutAll(Empty(), NamedStores(respond, host, resources[..i]))
    requires ResourceStore(respond, host, resources[i]).Some?
    ensures AllStoresFound(respond, host, resources[..i + 1])
    ensures var store := ResourceStore(respond, host, resources[i]).value;
      Put(stores, store.name, store) == PutAll(Empty(), NamedStores(respond, host, resources[..i + 1]))
  {
    var store := ResourceStore(respond, host, resources[i]).value;
    assert resources[..i + 1] == resources[..i] + [resources[i]];
    assert NamedStores(respond, host, resources[..i + 1]) == NamedStores(respond, host, resources[..i]) + [(store.name, store)];
    PutAllSnoc(Empty(), NamedStores(respond, host, resources[..i]), (store.name, store));
  }

  /** `store_info[store_class]["workspace"]`, when the reply is a store document with that class. */
  function WorkspaceIn(reply: Reply, store: StoreRef): Option<WorkspaceRef> {
    if reply.payload.StoreDoc? && store.storeClass in reply.payload.workspaces
    then Some(reply.payload.workspaces[store.storeClass]) else None
  }

  /** The workspace the source server names for a store, read from the store's own document. */
  function StoreWorkspace(respond: (string, Verb, string, Body) -> Reply, host: string, store: StoreRef): Option<WorkspaceRef> {
    WorkspaceIn(respond(host, GET, Strip(store.href, host), NoBody), store)
  }

  predicate AllWorkspacesFound(respond: (string, Verb, string, Body) -> Reply, host: string, stores: seq<StoreRef>) {
    forall j :: 0 <= j < |stores| ==> StoreWorkspace(respond, host, stores[j]).Some?
  }

  /** The updates `workspaces.update({workspace["name"]: workspace})`, one per store. */
  function NamedWorkspaces(respond: (string, Verb, string, Body) -> Reply, host: string, stores: seq<StoreRef>)
    : (r: seq<(string, Option<WorkspaceRef>)>)
    requires AllWorkspacesFound(respond, host, stores)
    ensures |r| == |stores|
    ensures forall j :: 0 <= j < |r| ==>
      r[j] == (StoreWorkspace(respond, host, stores[j]).value.name, StoreWorkspace(respond, host, stores[j]))
  {
    seq(|stores|, j requires 0 <= j < |stores| =>
      (StoreWorkspace(respond, host, stores[j]).value.name, StoreWorkspace(respond, host, stores[j])))
  }

  /**
   * After the updates, a workspace is listed exactly when it was listed
   * before or some store lies in it; one no store names keeps its entry.
   */
  lemma AddedWorkspaceNames(respond: (string, Verb, string, Body) -> Reply, host: string, stores: seq<StoreRef>,
                            workspaces: Dict<string, Option<WorkspaceRef>>, k: string)
    requires AllWorkspacesFound(respond, host, stores)
    ensures k in PutAll(workspaces, NamedWorkspaces(respond, host, stores)).entries <==>
      k in workspaces.entries || exists j :: 0 <= j < |stores| && StoreWorkspace(respond, host, stores[j]).value.name == k
    ensures k in workspaces.entries && (forall j :: 0 <= j < |stores| ==> StoreWorkspace(respond, host, stores[j]).value.name != k) ==>
      PutAll(workspaces, NamedWorkspaces(respond, host, stores)).entries[k] == workspaces.entries[k]
  {
    var items := NamedWorkspaces(respond, host, stores);
    PutAllKeys(workspaces, items, k);
    if k in KeysOf(items) {
      var j :| 0 <= j < |items| && KeysOf(items)[j] == k;
      assert StoreWorkspace(respond, host, stores[j]).value.name == k;
    }
    if exists j :: 0 <= j < |stores| && StoreWorkspace(respond, host, stores[j]).value.name == k {
      var j :| 0 <= j < |stores| && StoreWorkspace(respond, host, stores[j]).value.name == k;
      assert KeysOf(items)[j] == k;
    } else if k in workspaces.entries {
      assert k !in KeysOf(items);
      PutAllUntouched(workspaces, items, k);
    }
  }

  /** Every store's workspace is listed under its name, as found for the last store in it. */
  lemma AddedWorkspaceLastWins(respond: (string, Verb, string, Body) -> Reply, host: string, stores: seq<StoreRef>,
                               workspaces: Dict<string, Option<WorkspaceRef>>, j: nat)
    requires AllWorkspacesFound(respond, host, stores) && j < |stores|
    requires forall l :: j < l < |stores| ==>
      StoreWorkspace(respond, host, stores[l]).value.name != StoreWorkspace(respond, host, stores[j]).value.name
    ensures var ws := StoreWorkspace(respond, host, stores[j]);
      var d := PutAll(workspaces, NamedWorkspaces(respond, host, stores));
      ws.value.name in d.entries && d.entries[ws.value.name] == ws
  {
    PutAllLastWins(workspaces, NamedWorkspaces(respond, host, stores), j);
  }

  /** The loop step of the workspace updates: one more store, one more update. */
  lemma NamedWorkspacesStep(respond: (string, Verb, string, Body) -> Reply, host: string, stores: seq<StoreRef>, i: nat,
                            workspaces: Dict<string, Option<WorkspaceRef>>, acc: Dict<string, Option<WorkspaceRef>>)
    requires i < |stores| && AllWorkspacesFound(respond, host, stores[..i])
    requires acc == PutAll(workspaces, NamedWorkspaces(respond, host, stores[..i]))
    requires StoreWorkspace(respond, host, stores[i]).Some?
    ensures AllWorkspacesFound(respond, host, stores[..i + 1])
    ensures var ws := StoreWorkspace(respond, host, stores[i]);
      Put(acc, ws.value.name, ws) == PutAll(workspaces, NamedWorkspaces(respond, host, stores[..i + 1]))
  {
    var ws := StoreWorkspace(respond, host, stores[i]);
    assert stores[..i + 1] == stores[..i] + [stores[i]];
    assert NamedWorkspaces(respond, host, stores[..i + 1]) == NamedWorkspaces(respond, host, stores[..i]) + [(ws.value.name, ws)];
    PutAllSnoc(workspaces, NamedWorkspaces(respond, host, stores[..i]), (ws.value.name, ws));
  }

  /** `gs_src.rest_client.get(route)` routes for the resources, stores and workspaces. */
  function ResourceRoutes(resources: seq<ResourceRef>, base: string): (r: seq<string>)
    ensures |r| == |resources| && forall i :: 0 <= i < |resources| ==> r[i] == Strip(resources[i].href, base)
  {
    seq(|resources|, i requires 0 <= i < |resources| => Strip(resources[i].href, base))
  }

  function StoreRoutes(stores: Dict<string, StoreRef>, base: string): (r: seq<string>)
    ensures |r| == |stores.keys|
    ensures forall i :: 0 <= i < |stores.keys| ==> r[i] == Strip(stores.entries[stores.keys[i]].href, base)
  {
    seq(|stores.keys|, i requires 0 <= i < |stores.keys| => Strip(stores.entries[stores.keys[i]].href, base))
  }

  function WorkspaceRoutes(workspaces: Dict<string, Option<WorkspaceRef>>, base: string): (r: seq<string>)
    ensures |r| == |workspaces.keys|
    ensures forall i :: 0 <= i < |workspaces.keys| ==>
      r[i] == WorkspaceRoute(workspaces.keys[i], workspaces.entries[workspaces.keys[i]], base)
  {
    seq(|workspaces.keys|, i requires 0 <= i < |workspaces.keys| =>
      WorkspaceRoute(workspaces.keys[i], workspaces.entries[workspaces.keys[i]], base))
  }

  function LayerDocRoutes(names: seq<GsLayer>): (r: seq<string>)
    ensures |r| == |names| && forall i :: 0 <= i < |names| ==> r[i] == LayerDocRoute(names[i])
  {
    seq(|names|, i requires 0 <= i < |names| => LayerDocRoute(names[i]))
  }

  /** The resources of the layers keyed by resource name, as the dict comprehension builds them. */
  function ResourcesOf(layers: seq<LayerData>): Dict<string, ResourceRef> {
    PutAll(Empty(), seq(|layers|, i requires 0 <= i < |layers| => (layers[i].resource.name, layers[i].resource)))
  }

  /** The layer documents, once every fetched body is known to be one. */
  function AsLayers(d: Dict<GsLayer, Payload>): (r: Dict<GsLayer, LayerData>)
    requires forall k :: k in d.entries ==> d.entries[k].LayerDoc?
    ensures r.keys == d.keys
    ensures forall k :: k in d.entries ==> k in r.entries && LayerDoc(r.entries[k]) == d.entries[k]
  {
    RawDict(d.keys, map k | k in d.entries :: d.entries[k].layer)
  }

  /**
   * What probing `routes` in order on the destination established: only
   * check GETs, one per route up to the first failure; on success all of
   * them, each answered without an HTTP error; a 404 on the last one is
   * reported as the missing `what` of that name.
   */
  ghost predicate Probed(before: seq<Call>, after: seq<Call>, respond: (string, Verb, string, Body) -> Reply,
                         r: Outcome<Error>, what: string, names: seq<string>, routes: seq<string>, dstName: string)
    requires |names| == |routes|
  {
    && Grows(before, after, Check)
    && |after| <= |before| + |routes|
    && (forall k :: |before| <= k < |after| ==> after[k].route == routes[k - |before|])
    && (r.Pass? ==> |after| == |before| + |routes| && Passed(before, after, respond))
    && (r.Fail? && |after| > |before| && ReplyTo(respond, after[|after| - 1]).status == 404 ==>
          r.error == MissingOnDestination(what, names[|after| - |before| - 1], routes[|after| - |before| - 1], dstName))
  }

  lemma PassedTrans(a: seq<Call>, b: seq<Call>, c: seq<Call>, respond: (string, Verb, string, Body) -> Reply)
    requires a <= b <= c && Passed(a, b, respond) && Passed(b, c, respond)
    ensures Passed(a, c, respond)
  {
    forall i | |a| <= i < |b|
      ensures c[i] == b[i]
    {
    }
  }

  lemma BoundGrows(a: seq<Call>, b: seq<Call>, c: seq<Call>, name: GsLayer)
    requires a <= b <= c
    requires Bound(a, b, name) || Bound(b, c, name)
    ensures Bound(a, c, name)
  {
    if Bound(a, b, name) {
      var i :| |a| <= i < |b| && b[i].verb == PUT && b[i].route == LayerRoute(name);
      assert c[i] == b[i];
    }
  }

  /** A style was PUT to `route` on the destination, or POSTed to its collection, after `before`. */
  ghost predicate StyleWritten(before: seq<Call>, after: seq<Call>, dstUrl: string, route: string) {
    exists i :: |before| <= i < |after| && after[i].host == dstUrl
      && ((after[i].verb == PUT && after[i].route == route) || (after[i].verb == POST && after[i].route == StylePostRoute(route)))
  }

  lemma StyleWrittenGrows(a: seq<Call>, b: seq<Call>, c: seq<Call>, dstUrl: string, route: string)
    requires a <= b <= c
    requires StyleWritten(a, b, dstUrl, route) || StyleWritten(b, c, dstUrl, route)
    ensures StyleWritten(a, c, dstUrl, route)
  {
    if StyleWritten(a, b, dstUrl, route) {
      var i :| |a| <= i < |b| && b[i].host == dstUrl
        && ((b[i].verb == PUT && b[i].route == route) || (b[i].verb == POST && b[i].route == StylePostRoute(route)));
      assert c[i] == b[i];
    }
  }

  /** A copied style was written to the destination under its own route. */
  lemma StyleCopiedWritten(before: seq<Call>, after: seq<Call>, respond: (string, Verb, string, Body) -> Reply,
                           srcUrl: string, dstUrl: string, style: StyleRef)
    requires StyleCopied(before, after, respond, srcUrl, dstUrl, style)
    ensures StyleWritten(before, after, dstUrl, Strip(style.href, srcUrl))
  {
    assert after[|before| + 3].host == dstUrl;
  }

  /** A copied layer has its binding PUT. */
  lemma LayerCopiedBound(before: seq<Call>, after: seq<Call>, respond: (string, Verb, string, Body) -> Reply,
                         srcUrl: string, dstUrl: string, name: GsLayer, layer: LayerData)
    requires LayerCopied(before, after, respond, srcUrl, dstUrl, name, layer)
    ensures before <= after && Bound(before, after, name)
  {
    BindingAfterResourceWrite(before, after, respond, srcUrl, dstUrl, name, layer);
    assert after[|after| - 1].verb == PUT;
  }

  /** Discovery requests in front of a sound sequence of steps keep it sound. */
  lemma DiscoveryThenSound(t0: seq<Call>, t1: seq<Call>, t2: seq<Call>, respond: (string, Verb, string, Body) -> Reply,
                           copyStyles: bool, copyLayers: bool)
    requires Grows(t0, t1, Discover) && Sound(t1, t2, respond, copyStyles, copyLayers)
    ensures Sound(t0, t2, respond, copyStyles, copyLayers)
  {
    forall i | |t0| <= i < |t1|
      ensures t2[i] == t1[i]
    {
    }
  }

  class CloneDataset {
    const srcName: string
    const dstName: string
    const uuid: string
    const copyLayers: bool
    const copyStyles: bool
    const geoHnd: Georchestra.GeorchestraHandler
    /** How the GeoServer version probe of `get_gs_service` ends, per URL and credentials. */
    const probe: (string, Option<Credentials>) -> Georchestra.Probe
    const net: Network
    /** The `@cache` behind the `gs_dst` property. */
    var dstService: Option<Georchestra.RestService>

    /** `CloneDataset(src, dst, uuid)` with the flags `clone_dataset` sets and its handler. */
    constructor (srcName: string, dstName: string, uuid: string, copyLayers: bool, copyStyles: bool,
                 geoHnd: Georchestra.GeorchestraHandler, probe: (string, Option<Credentials>) -> Georchestra.Probe,
                 net: Network)
      ensures this.srcName == srcName && this.dstName == dstName && this.uuid == uuid
      ensures this.copyLayers == copyLayers && this.copyStyles == copyStyles
      ensures this.geoHnd == geoHnd && this.probe == probe && this.net == net
      ensures dstService == None
    {
      this.srcName := srcName;
      this.dstName := dstName;
      this.uuid := uuid;
      this.copyLayers := copyLayers;
      this.copyStyles := copyStyles;
      this.geoHnd := geoHnd;
      this.probe := probe;
      this.net := net;
      dstService := None;
    }

    /**
     * The `gs_dst` property: the destination client, looked up on first use
     * and cached; a failed lookup is not cached.
     */
    method GsDst() returns (r: Result<Georchestra.RestService, Error>)
      modifies this`dstService
      ensures old(dstService).Some? ==> r == Success(old(dstService).value) && dstService == old(dstService)
      ensures r.Success? ==> dstService == Some(r.value)
      ensures r.Failure? ==> dstService == old(dstService) == None
    {
      if dstService.Some? {
        return Success(dstService.value);
      }
      r := geoHnd.GetGsService(dstName, false, probe);
      if r.Success? {
        dstService := Some(r.value);
      }
    }

    /** The fetch loop of `clone_layers`: one GET per layer name, each status checked. */
    method FetchLayers(srcUrl: string, names: seq<GsLayer>) returns (r: Result<Dict<GsLayer, Payload>, Error>)
      modifies net`trace
      ensures Grows(old(net.trace), net.trace, Discover)
      ensures r.Success? ==> net.trace == old(net.trace) + Gets(srcUrl, LayerDocRoutes(names), Discover)
      ensures r.Success? ==> forall n :: n in r.value.entries <==> n in names
      ensures r.Success? ==> forall n :: n in r.value.entries ==>
        r.value.entries[n] == net.respond(srcUrl, GET, LayerDocRoute(n), NoBody).payload
    {
      var routes := LayerDocRoutes(names);
      var layers: Dict<GsLayer, Payload> := Empty();
      var failure: Option<Error> := None;
      var i := 0;
      while i < |names| && failure.None?
        invariant 0 <= i <= |names|
        invariant net.trace == old(net.trace) + Gets(srcUrl, routes[..i], Discover)
        invariant failure.None? ==> forall n :: n in layers.entries <==> n in names[..i]
        invariant forall n :: n in layers.entries ==> layers.entries[n] == net.respond(srcUrl, GET, LayerDocRoute(n), NoBody).payload
      {
        var reply := net.Send(srcUrl, GET, routes[i], NoBody, Discover);
        GetsAppend(srcUrl, routes, i, Discover);
        var check := StatusCheck(srcUrl, GET, routes[i], reply);
        if check.Fail? {
          failure := Some(check.error);
        } else {
          PutNextKey(layers, names, i, reply.payload);
          layers := Put(layers, names[i], reply.payload);
        }
        i := i + 1;
      }
      GetsGrow(old(net.trace), srcUrl, routes[..i], Discover);
      if failure.Some? {
        return Failure(failure.value);
      }
      assert names[..i] == names && routes[..i] == routes;
      return Success(layers);
    }

    /**
     * `get_stores_from_layers`: one GET per distinct resource, collecting the
     * store each resource document names, keyed by the store's name.
     */
    method GetStoresFromLayers(srcUrl: string, layers: Dict<GsLayer, LayerData>) returns (r: Result<Dict<string, StoreRef>, Error>)
      modifies net`trace
      ensures Grows(old(net.trace), net.trace, Discover)
      ensures r.Success? ==>
        net.trace == old(net.trace) + Gets(srcUrl, ResourceRoutes(Values(ResourcesOf(Values(layers))), srcUrl), Discover)
      ensures r.Success? ==> AllStoresFound(net.respond, srcUrl, Values(ResourcesOf(Values(layers))))
      ensures r.Success? ==> r.value == PutAll(Empty(), NamedStores(net.respond, srcUrl, Values(ResourcesOf(Values(layers)))))
    {
      var resources := Values(ResourcesOf(Values(layers)));
      var routes := ResourceRoutes(resources, srcUrl);
      var stores: Dict<string, StoreRef> := Empty();
      var failure: Option<Error> := None;
      var i := 0;
      assert resources[..0] == [];
      while i < |resources| && failure.None?
        invariant 0 <= i <= |resources|
        invariant net.trace == old(net.trace) + Gets(srcUrl, routes[..i], Discover)
        invariant failure.None? ==> AllStoresFound(net.respond, srcUrl, resources[..i])
        invariant failure.None? ==> stores == PutAll(Empty(), NamedStores(net.respond, srcUrl, resources[..i]))
      {
        var reply := net.Send(srcUrl, GET, routes[i], NoBody, Discover);
        GetsAppend(srcUrl, routes, i, Discover);
        var check := StatusCheck(srcUrl, GET, routes[i], reply);
        var store := StoreIn(reply, resources[i]);
        if check.Fail? {
          failure := Some(check.error);
        } else if store.None? {
          failure := Some(Builtin("KeyError"));
        } else {
          assert store == ResourceStore(net.respond, srcUrl, resources[i]);
          NamedStoresStep(net.respond, srcUrl, resources, i, stores);
          stores := Put(stores, store.value.name, store.value);
        }
        i := i + 1;
      }
      GetsGrow(old(net.trace), srcUrl, routes[..i], Discover);
      if failure.Some? {
        return Failure(failure.value);
      }
      assert routes[..i] == routes && resources[..i] == resources;
      return Success(stores);
    }

    /**
     * `workspaces.update(get_workspaces_from_store(gs_src, store))` for each
     * store: one GET per store, adding the workspace its document names; a
     * workspace found this way replaces a style's `None` entry of the same
     * name.
     */
    method AddStoreWorkspaces(srcUrl: string, stores: Dict<string, StoreRef>, workspaces: Dict<string, Option<WorkspaceRef>>)
      returns (r: Result<Dict<string, Option<WorkspaceRef>>, Error>)
      modifies net`trace
      ensures Grows(old(net.trace), net.trace, Discover)
      ensures r.Success? ==> net.trace == old(net.trace) + Gets(srcUrl, StoreRoutes(stores, srcUrl), Discover)
      ensures r.Success? ==> AllWorkspacesFound(net.respond, srcUrl, Values(stores))
      ensures r.Success? ==> r.value == PutAll(workspaces, NamedWorkspaces(net.respond, srcUrl, Values(stores)))
    {
      var routes := StoreRoutes(stores, srcUrl);
      var values := Values(stores);
      var acc := workspaces;
      var failure: Option<Error> := None;
      var i := 0;
      assert values[..0] == [];
      while i < |stores.keys| && failure.None?
        invariant 0 <= i <= |stores.keys|
        invariant net.trace == old(net.trace) + Gets(srcUrl, routes[..i], Discover)
        invariant failure.None? ==> AllWorkspacesFound(net.respond, srcUrl, values[..i])
        invariant failure.None? ==> acc == PutAll(workspaces, NamedWorkspaces(net.respond, srcUrl, values[..i]))
      {
        var store := stores.entries[stores.keys[i]];
        var reply := net.Send(srcUrl, GET, routes[i], NoBody, Discover);
        GetsAppend(srcUrl, routes, i, Discover);
        var check := StatusCheck(srcUrl, GET, routes[i], reply);
        var ws := WorkspaceIn(reply, store);
        if check.Fail? {
          failure := Some(check.error);
        } else if ws.None? {
          failure := Some(Builtin("KeyError"));
        } else {
          assert store == values[i] && ws == StoreWorkspace(net.respond, srcUrl, values[i]);
          NamedWorkspacesStep(net.respond, srcUrl, values, i, workspaces, acc);
          acc := Put(acc, ws.value.name, ws);
        }
        i := i + 1;
      }
      GetsGrow(old(net.trace), srcUrl, routes[..i], Discover);
      if failure.Some? {
        return Failure(failure.value);
      }
      assert routes[..i] == routes && values[..i] == values;
      return Success(acc);
    }
  
    /**
     * One destination probe of `check_workspaces`/`check_datastores`: GET
     * the route on the destination; a 404 is reported as the missing
     * workspace or datastore, any other HTTP error by `raise_for_status`.
     */
    method ProbeDst(what: string, name: string, route: string) returns (r: Outcome<Error>)
      modifies this`dstService, net`trace
      ensures Grows(old(net.trace), net.trace, Check)
      ensures old(dstService).Some? ==> dstService == old(dstService)
      ensures |net.trace| == |old(net.trace)| || |net.trace| == |old(net.trace)| + 1
      ensures old(dstService).Some? ==> |net.trace| == |old(net.trace)| + 1
      ensures |net.trace| == |old(net.trace)| ==> r.Fail?
      ensures |net.trace| == |old(net.trace)| + 1 ==>
        && dstService.Some?
        && net.trace[|old(net.trace)|] == Call(dstService.value.url, GET, route, NoBody, Check)
        && (r.Pass? <==> !Operations.IsHttpError(ReplyTo(net.respond, net.trace[|old(net.trace)|]).status))
        && (ReplyTo(net.respond, net.trace[|old(net.trace)|]).status == 404 ==>
              r == Fail(MissingOnDestination(what, name, route, dstName)))
    {
      var dst := GsDst();
      if dst.Failure? {
        return Fail(dst.error);
      }
      var reply := net.Send(dst.value.url, GET, route, NoBody, Check);
      if reply.status == 404 {
        return Fail(MissingOnDestination(what, name, route, dstName));
      }
      r := StatusCheck(dst.value.url, GET, route, reply);
    }

    /** The probe loop shared by `check_workspaces` and `check_datastores`. */
    method CheckAll(what: string, names: seq<string>, routes: seq<string>) returns (r: Outcome<Error>)
      requires |names| == |routes|
      modifies this`dstService, net`trace
      ensures Probed(old(net.trace), net.trace, net.respond, r, what, names, routes, dstName)
      ensures old(dstService).Some? ==> dstService == old(dstService)
    {
      var i := 0;
      while i < |routes|
        invariant 0 <= i <= |routes|
        invariant |net.trace| == |old(net.trace)| + i
        invariant i > 0 ==> dstService.Some?
        invariant old(dstService).Some? ==> dstService == old(dstService)
        invariant Grows(old(net.trace), net.trace, Check) && Passed(old(net.trace), net.trace, net.respond)
        invariant forall k :: |old(net.trace)| <= k < |net.trace| ==> net.trace[k].route == routes[k - |old(net.trace)|]
      {
        ghost var before := net.trace;
        r := ProbeDst(what, names[i], routes[i]);
        GrowsTrans(old(net.trace), before, net.trace, Check);
        forall k | |old(net.trace)| <= k < |before|
          ensures net.trace[k] == before[k]
        {
        }
        if r.Fail? {
          return;
        }
        i := i + 1;
      }
      r := Pass;
    }

    /** `check_workspaces(gs_src, workspaces)`: probe every workspace entry's route, in dict order. */
    method CheckWorkspaces(srcUrl: string, workspaces: Dict<string, Option<WorkspaceRef>>) returns (r: Outcome<Error>)
      modifies this`dstService, net`trace
      ensures Probed(old(net.trace), net.trace, net.respond, r, "Workspace", workspaces.keys,
                     WorkspaceRoutes(workspaces, srcUrl), dstName)
      ensures old(dstService).Some? ==> dstService == old(dstService)
    {
      r := CheckAll("Workspace", workspaces.keys, WorkspaceRoutes(workspaces, srcUrl));
    }

    /** `check_datastores(gs_src, stores)`: probe every store's stripped link, in dict order. */
    method CheckDatastores(srcUrl: string, stores: Dict<string, StoreRef>) returns (r: Outcome<Error>)
      modifies this`dstService, net`trace
      ensures Probed(old(net.trace), net.trace, net.respond, r, "Datastore", stores.keys,
                     StoreRoutes(stores, srcUrl), dstName)
      ensures old(dstService).Some? ==> dstService == old(dstService)
    {
      r := CheckAll("Datastore", stores.keys, StoreRoutes(stores, srcUrl));
    }

    /**
     * The destination half of `clone_style`: look the style up, PUT it when
     * it exists (checked) or POST it otherwise (not checked), then PUT the
     * definition (checked).
     */
    method WriteStyle(dstUrl: string, route: string, defRoute: string, info: Reply, def: Reply) returns (r: Outcome<Error>)
      modifies net`trace
      ensures Grows(old(net.trace), net.trace, CopyStyle)
      ensures var existing := net.respond(dstUrl, GET, route, NoBody).status == 200;
        var write := StyleWrite(dstUrl, route, existing, info);
        var defPut := DefinitionPut(dstUrl, defRoute, def);
        && (existing && Operations.IsHttpError(ReplyTo(net.respond, write).status) ==>
              r.Fail? && net.trace == old(net.trace) + [Call(dstUrl, GET, route, NoBody, CopyStyle), write])
        && (!(existing && Operations.IsHttpError(ReplyTo(net.respond, write).status)) ==>
              && net.trace == old(net.trace) + [Call(dstUrl, GET, route, NoBody, CopyStyle), write, defPut]
              && (r.Pass? <==> !Operations.IsHttpError(ReplyTo(net.respond, defPut).status)))
    {
      var existing := net.Send(dstUrl, GET, route, NoBody, CopyStyle);
      if existing.status == 200 {
        var put := net.Send(dstUrl, PUT, route, JsonBody(info.text), CopyStyle);
        r := StatusCheck(dstUrl, PUT, route, put);
        if r.Fail? {
          return;
        }
      } else {
        var posted := net.Send(dstUrl, POST, StylePostRoute(route), JsonBody(info.text), CopyStyle);
      }
      var defPut := net.Send(dstUrl, PUT, defRoute, RawBody(def.text, def.contentType), CopyStyle);
      r := StatusCheck(dstUrl, PUT, defRoute, defPut);
    }

    /**
     * `clone_style(gs_src, style)`: nothing for a style whose link is not on
     * the source server; otherwise the requests `StyleCopied` describes.
     */
    method CloneStyle(srcUrl: string, style: StyleRef) returns (r: Outcome<Error>)
      modifies this`dstService, net`trace
      ensures Grows(old(net.trace), net.trace, CopyStyle)
      ensures old(dstService).Some? ==> dstService == old(dstService)
      ensures !Contains(style.href, srcUrl) ==> r.Pass? && net.trace == old(net.trace)
      ensures r.Pass? && Contains(style.href, srcUrl) ==>
        dstService.Some? && StyleCopied(old(net.trace), net.trace, net.respond, srcUrl, dstService.value.url, style)
    {
      if !Contains(style.href, srcUrl) {
        return Pass;
      }
      var route := Strip(style.href, srcUrl);
      var info := net.Send(srcUrl, GET, route, NoBody, CopyStyle);
      r := StatusCheck(srcUrl, GET, route, info);
      if r.Fail? {
        return;
      }
      if !info.payload.StyleDoc? {
        return Fail(Builtin("KeyError"));
      }
      var defRoute := StyleDefRoute(route, info.payload.format);
      var def := net.Send(srcUrl, GET, defRoute, NoBody, CopyStyle);
      var dst := GsDst();
      if dst.Failure? {
        return Fail(dst.error);
      }
      ghost var read := net.trace;
      r := WriteStyle(dst.value.url, route, defRoute, info, def);
      GrowsTrans(old(net.trace), read, net.trace, CopyStyle);
      if r.Pass? {
        StyleCopiedOf(old(net.trace), read, net.trace, net.respond, srcUrl, dst.value.url, style);
      }
    }

    /**
     * The resource write of `clone_layer`, as the decision table says; a
     * 404 on the POST of a new resource is reported as a missing route.
     */
    method WriteResource(dstUrl: string, action: ResourceAction, route: string, content: Body) returns (r: Outcome<Error>)
      modifies net`trace
      ensures Grows(old(net.trace), net.trace, CopyLayer)
      ensures r.Pass? ==> net.trace == old(net.trace) + ResourceWrites(dstUrl, action, route, content)
      ensures r.Pass? ==> forall i :: |old(net.trace)| <= i < |net.trace| ==>
        !Operations.IsHttpError(ReplyTo(net.respond, net.trace[i]).status)
      ensures action == Create && net.respond(dstUrl, POST, PostRoute(XmlRoute(route)), content).status == 404 ==>
        r == Fail(RouteNotFound(PostRoute(XmlRoute(route))))
    {
      var xml := XmlRoute(route);
      var post := PostRoute(xml);
      match action
      case Recreate =>
        var deleted := net.Send(dstUrl, DELETE, route, NoBody, CopyLayer);
        r := StatusCheck(dstUrl, DELETE, route, deleted);
        if r.Fail? {
          return;
        }
        var posted := net.Send(dstUrl, POST, post, content, CopyLayer);
        r := StatusCheck(dstUrl, POST, post, posted);
      case Update =>
        var put := net.Send(dstUrl, PUT, xml, content, CopyLayer);
        r := StatusCheck(dstUrl, PUT, xml, put);
      case Create =>
        var posted := net.Send(dstUrl, POST, post, content, CopyLayer);
        if posted.status == 404 {
          return Fail(RouteNotFound(post));
        }
        r := StatusCheck(dstUrl, POST, post, posted);
    }

    /** `clone_layer(gs_src, layer_name, layer_data)`: the requests `LayerCopied` describes. */
    method CloneLayer(srcUrl: string, name: GsLayer, layer: LayerData) returns (r: Outcome<Error>)
      modifies this`dstService, net`trace
      ensures Grows(old(net.trace), net.trace, CopyLayer)
      ensures old(dstService).Some? ==> dstService == old(dstService)
      ensures r.Pass? ==>
        dstService.Some? && LayerCopied(old(net.trace), net.trace, net.respond, srcUrl, dstService.value.url, name, layer)
    {
      var route := Strip(layer.resource.href, srcUrl);
      var dst := GsDst();
      if dst.Failure? {
        return Fail(dst.error);
      }
      var dstUrl := dst.value.url;
      var hasResource := net.Send(dstUrl, GET, route, NoBody, CopyLayer);
      var hasLayer := net.Send(dstUrl, GET, LayerRoute(name), NoBody, CopyLayer);
      var resource := net.Send(srcUrl, GET, XmlRoute(route), NoBody, CopyLayer);
      assert net.trace == old(net.trace) + LayerProbes(srcUrl, dstUrl, route, name);
      ghost var probed := net.trace;
      GrowsByOne(old(net.trace), LayerProbes(srcUrl, dstUrl, route, name), CopyLayer);
      var action := ResourceActionFor(hasResource.status, hasLayer.status);
      var content := RawBody(resource.text, "application/xml");
      r := WriteAndBind(srcUrl, dstUrl, name, layer, route, action, content);
      GrowsTrans(old(net.trace), probed, net.trace, CopyLayer);
      if r.Pass? {
        LayerCopiedOf(old(net.trace), probed, probed + ResourceWrites(dstUrl, action, route, content), net.trace,
                      net.respond, srcUrl, dstUrl, name, layer);
      }
    }

    /** The second half of `clone_layer`: write the resource, then PUT the layer binding. */
    method WriteAndBind(srcUrl: string, dstUrl: string, name: GsLayer, layer: LayerData, route: string,
                        action: ResourceAction, content: Body)
      returns (r: Outcome<Error>)
      modifies net`trace
      ensures Grows(old(net.trace), net.trace, CopyLayer)
      ensures r.Pass? ==> var written := old(net.trace) + ResourceWrites(dstUrl, action, route, content);
        && net.trace == written + [BindingPut(srcUrl, dstUrl, name, layer)]
        && (forall i :: |old(net.trace)| <= i < |written| ==> !Operations.IsHttpError(ReplyTo(net.respond, written[i]).status))
        && !Operations.IsHttpError(ReplyTo(net.respond, BindingPut(srcUrl, dstUrl, name, layer)).status)
    {
      r := WriteResource(dstUrl, action, route, content);
      if r.Fail? {
        return;
      }
      ghost var written := net.trace;
      var bound := net.Send(dstUrl, PUT, LayerRoute(name), BindingBody(layer, srcUrl, dstUrl), CopyLayer);
      GrowsByOne(written, [BindingPut(srcUrl, dstUrl, name, layer)], CopyLayer);
      GrowsTrans(old(net.trace), written, net.trace, CopyLayer);
      r := StatusCheck(dstUrl, PUT, LayerRoute(name), bound);
    }

    /** `for style in styles.values(): self.clone_style(gs_src, style)`, stopping at the first error. */
    method CloneStyles(srcUrl: string, styles: seq<StyleRef>) returns (r: Outcome<Error>)
      modifies this`dstService, net`trace
      ensures Grows(old(net.trace), net.trace, CopyStyle)
      ensures old(dstService).Some? ==> dstService == old(dstService)
      ensures r.Pass? ==> forall k :: 0 <= k < |styles| && Contains(styles[k].href, srcUrl) ==>
        dstService.Some? && StyleWritten(old(net.trace), net.trace, dstService.value.url, Strip(styles[k].href, srcUrl))
    {
      var i := 0;
      while i < |styles|
        invariant 0 <= i <= |styles|
        invariant Grows(old(net.trace), net.trace, CopyStyle)
        invariant old(dstService).Some? ==> dstService == old(dstService)
        invariant forall k :: 0 <= k < i && Contains(styles[k].href, srcUrl) ==>
          dstService.Some? && StyleWritten(old(net.trace), net.trace, dstService.value.url, Strip(styles[k].href, srcUrl))
      {
        ghost var before := net.trace;
        r := CloneStyle(srcUrl, styles[i]);
        GrowsTrans(old(net.trace), before, net.trace, CopyStyle);
        if r.Fail? {
          return;
        }
        forall k | 0 <= k < i && Contains(styles[k].href, srcUrl)
          ensures StyleWritten(old(net.trace), net.trace, dstService.value.url, Strip(styles[k].href, srcUrl))
        {
          StyleWrittenGrows(old(net.trace), before, net.trace, dstService.value.url, Strip(styles[k].href, srcUrl));
        }
        if Contains(styles[i].href, srcUrl) {
          StyleCopiedWritten(before, net.trace, net.respond, srcUrl, dstService.value.url, styles[i]);
          StyleWrittenGrows(old(net.trace), before, net.trace, dstService.value.url, Strip(styles[i].href, srcUrl));
        }
        i := i + 1;
      }
      r := Pass;
    }

    /** `for layer_name, layer_data in layers.items(): self.clone_layer(gs_src, layer_name, layer_data)`. */
    method CloneLayersOf(srcUrl: string, layers: Dict<GsLayer, LayerData>) returns (r: Outcome<Error>)
      modifies this`dstService, net`trace
      ensures Grows(old(net.trace), net.trace, CopyLayer)
      ensures old(dstService).Some? ==> dstService == old(dstService)
      ensures r.Pass? ==> forall n :: n in layers.entries ==> Bound(old(net.trace), net.trace, n)
    {
      var i := 0;
      while i < |layers.keys|
        invariant 0 <= i <= |layers.keys|
        invariant Grows(old(net.trace), net.trace, CopyLayer)
        invariant old(dstService).Some? ==> dstService == old(dstService)
        invariant forall k :: 0 <= k < i ==> Bound(old(net.trace), net.trace, layers.keys[k])
      {
        ghost var before := net.trace;
        var name := layers.keys[i];
        r := CloneLayer(srcUrl, name, layers.entries[name]);
        GrowsTrans(old(net.trace), before, net.trace, CopyLayer);
        if r.Fail? {
          return;
        }
        LayerCopiedBound(before, net.trace, net.respond, srcUrl, dstService.value.url, name, layers.entries[name]);
        forall k | 0 <= k <= i
          ensures Bound(old(net.trace), net.trace, layers.keys[k])
        {
          BoundGrows(old(net.trace), before, net.trace, layers.keys[k]);
        }
        i := i + 1;
      }
      forall n | n in layers.entries
        ensures Bound(old(net.trace), net.trace, n)
      {
        assert n in layers.keys;
      }
      r := Pass;
    }

    /**
     * The body of `clone_layers` for one source server with a non-empty
     * list of layer names: fetch the layers, collect the styles (when
     * copying styles) and the stores and workspaces (when copying layers),
     * check that the workspaces and stores exist on the destination, then
     * copy the styles before the layers.
     */
    method CloneServer(gsUrl: string, names: seq<GsLayer>) returns (r: Outcome<Error>)
      modifies this`dstService, net`trace
      ensures Sound(old(net.trace), net.trace, net.respond, copyStyles, copyLayers)
      ensures old(dstService).Some? ==> dstService == old(dstService)
      ensures names == [] ==> r.Pass? && net.trace == old(net.trace)
      ensures r.Pass? && copyLayers ==> forall n :: n in names ==> Bound(old(net.trace), net.trace, n)
    {
      ghost var t0 := net.trace;
      if names == [] {
        StagesSound(t0, t0, t0, t0, t0, net.respond, copyStyles, copyLayers);
        return Pass;
      }
      var fetched := FetchServer(gsUrl, names);
      if fetched.Failure? || !(copyStyles || copyLayers) {
        // with neither flag set, nothing is collected, checked or copied
        StagesSound(t0, net.trace, net.trace, net.trace, net.trace, net.respond, copyStyles, copyLayers);
        return if fetched.Failure? then Fail(fetched.error) else Pass;
      }
      var (srcUrl, docs) := fetched.value;
      if exists k :: k in docs.keys && !docs.entries[k].LayerDoc? {
        StagesSound(t0, net.trace, net.trace, net.trace, net.trace, net.respond, copyStyles, copyLayers);
        return Fail(Builtin("KeyError"));
      }
      var layers := AsLayers(docs);
      ghost var tF := net.trace;
      var collected := CollectResources(srcUrl, layers);
      GrowsTrans(t0, tF, net.trace, Discover);
      if collected.Failure? {
        StagesSound(t0, net.trace, net.trace, net.trace, net.trace, net.respond, copyStyles, copyLayers);
        return Fail(collected.error);
      }
      var (styles, workspaces, stores) := collected.value;
      ghost var tD := net.trace;
      r := CheckAndCopy(srcUrl, layers, styles, workspaces, stores);
      DiscoveryThenSound(t0, tD, net.trace, net.respond, copyStyles, copyLayers);
      forall n | n in names && r.Pass? && copyLayers
        ensures Bound(old(net.trace), net.trace, n)
      {
        assert n in layers.entries;
        BoundGrows(old(net.trace), tD, net.trace, n);
      }
    }

    /**
     * The start of `clone_layers` for one server: resolve the source
     * service, then fetch the document of each named layer from it.
     */
    method FetchServer(gsUrl: string, names: seq<GsLayer>) returns (r: Result<(string, Dict<GsLayer, Payload>), Error>)
      modifies net`trace
      ensures Grows(old(net.trace), net.trace, Discover)
      ensures r.Success? ==> forall n :: n in r.value.1.entries <==> n in names
    {
      var src := geoHnd.GetGsService(gsUrl, true, probe);
      if src.Failure? {
        return Failure(src.error);
      }
      var fetched := FetchLayers(src.value.url, names);
      if fetched.Failure? {
        return Failure(fetched.error);
      }
      return Success((src.value.url, fetched.value));
    }

    /**
     * The collection part of `clone_layers` for one server: the styles of
     * the layers and their workspaces when copying styles, the stores of
     * the layers and their workspaces when copying layers. Only discovery
     * requests are made.
     */
    method CollectResources(srcUrl: string, layers: Dict<GsLayer, LayerData>)
      returns (r: Result<(Dict<string, StyleRef>, Dict<string, Option<WorkspaceRef>>, Dict<string, StoreRef>), Error>)
      modifies net`trace
      ensures Grows(old(net.trace), net.trace, Discover)
      ensures r.Success? ==> r.value.0 == if copyStyles then CollectStyles(Values(layers)) else Empty()
      ensures r.Success? ==>
        var styleWorkspaces := if copyStyles then StyleWorkspaces(Values(r.value.0), Empty()) else Empty();
        if copyLayers then
          && AllStoresFound(net.respond, srcUrl, Values(ResourcesOf(Values(layers))))
          && r.value.2 == PutAll(Empty(), NamedStores(net.respond, srcUrl, Values(ResourcesOf(Values(layers)))))
          && AllWorkspacesFound(net.respond, srcUrl, Values(r.value.2))
          && r.value.1 == PutAll(styleWorkspaces, NamedWorkspaces(net.respond, srcUrl, Values(r.value.2)))
        else r.value.2 == Empty() && r.value.1 == styleWorkspaces
    {
      var styles: Dict<string, StyleRef> := Empty();
      var workspaces: Dict<string, Option<WorkspaceRef>> := Empty();
      var stores: Dict<string, StoreRef> := Empty();
      if copyStyles {
        styles := CollectStyles(Values(layers));
        workspaces := StyleWorkspaces(Values(styles), workspaces);
      }
      if copyLayers {
        var found := GetStoresFromLayers(srcUrl, layers);
        if found.Failure? {
          return Failure(found.error);
        }
        stores := found.value;
        ghost var t := net.trace;
        var added := AddStoreWorkspaces(srcUrl, stores, workspaces);
        GrowsTrans(old(net.trace), t, net.trace, Discover);
        if added.Failure? {
          return Failure(added.error);
        }
        workspaces := added.value;
      }
      return Success((styles, workspaces, stores));
    }

    /**
     * The second half of `clone_layers` for one server: check the
     * workspaces, then the stores, then copy the styles, then the layers.
     */
    method CheckAndCopy(srcUrl: string, layers: Dict<GsLayer, LayerData>, styles: Dict<string, StyleRef>,
                        workspaces: Dict<string, Option<WorkspaceRef>>, stores: Dict<string, StoreRef>)
      returns (r: Outcome<Error>)
      modifies this`dstService, net`trace
      ensures Sound(old(net.trace), net.trace, net.respond, copyStyles, copyLayers)
      ensures old(dstService).Some? ==> dstService == old(dstService)
      ensures r.Pass? && copyLayers ==> forall n :: n in layers.entries ==> Bound(old(net.trace), net.trace, n)
    {
      ghost var tD := net.trace;
      r := CheckWorkspaces(srcUrl, workspaces);
      ghost var tW := net.trace;
      if r.Fail? {
        StagesSound(tD, tD, net.trace, net.trace, net.trace, net.respond, copyStyles, copyLayers);
        return;
      }
      r := CheckDatastores(srcUrl, stores);
      GrowsTrans(tD, tW, net.trace, Check);
      if r.Fail? {
        StagesSound(tD, tD, net.trace, net.trace, net.trace, net.respond, copyStyles, copyLayers);
        return;
      }
      PassedTrans(tD, tW, net.trace, net.respond);
      ghost var tC := net.trace;
      if copyStyles {
        r := CloneStyles(srcUrl, Values(styles));
        if r.Fail? {
          StagesSound(tD, tD, tC, net.trace, net.trace, net.respond, copyStyles, copyLayers);
          return;
        }
      }
      ghost var tS := net.trace;
      if copyLayers {
        r := CloneLayersOf(srcUrl, layers);
        forall n | n in layers.entries && r.Pass?
          ensures Bound(old(net.trace), net.trace, n)
        {
          BoundGrows(old(net.trace), tS, net.trace, n);
        }
      }
      StagesSound(tD, tD, tC, tS, net.trace, net.respond, copyStyles, copyLayers);
    }

    /**
     * `clone_layers()`: every source server with layers, in order; the first
     * error stops the copy. `cuts` marks where each server's requests start
     * and end.
     */
    method CloneLayers(serverLayers: Dict<string, seq<GsLayer>>) returns (r: Outcome<Error>, ghost cuts: seq<seq<Call>>)
      modifies this`dstService, net`trace
      ensures 1 <= |cuts| <= |serverLayers.keys| + 1
      ensures cuts[0] == old(net.trace) && cuts[|cuts| - 1] == net.trace
      ensures forall k :: 0 <= k < |cuts| - 1 ==> Sound(cuts[k], cuts[k + 1], net.respond, copyStyles, copyLayers)
      ensures old(dstService).Some? ==> dstService == old(dstService)
      ensures r.Pass? ==> |cuts| == |serverLayers.keys| + 1
      ensures r.Pass? && copyLayers ==> forall k, n :: 0 <= k < |serverLayers.keys| && n in serverLayers.entries[serverLayers.keys[k]] ==>
        Bound(cuts[k], cuts[k + 1], n)
    {
      cuts := [net.trace];
      r := Pass;
      var i := 0;
      while i < |serverLayers.keys| && r.Pass?
        invariant 0 <= i <= |serverLayers.keys|
        invariant |cuts| == i + 1
        invariant cuts[0] == old(net.trace) && cuts[i] == net.trace
        invariant SoundCuts(cuts, net.respond, copyStyles, copyLayers)
        invariant old(dstService).Some? ==> dstService == old(dstService)
        invariant r.Pass? && copyLayers ==> BoundCuts(cuts, serverLayers)
      {
        var gsUrl := serverLayers.keys[i];
        r := CloneServer(gsUrl, serverLayers.entries[gsUrl]);
        SoundCutsExtend(cuts, net.trace, net.respond, copyStyles, copyLayers);
        if r.Pass? && copyLayers {
          BoundCutsExtend(cuts, net.trace, serverLayers, serverLayers.entries[gsUrl]);
        }
        cuts := cuts + [net.trace];
        i := i + 1;
      }
    }
  }
}
