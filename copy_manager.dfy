/**
 * The copy orchestrator (backend/maelstro/core/copy_manager.py): the
 * preview of what a copy would touch, and the copy itself, which goes
 * server by server (styles first, then layers) and ends with the metadata
 * record.
 *
 * The GeoServer sync library is an oracle: `GeoServerSync` answers layer
 * lookups and style and layer copies from fixed functions and records the
 * calls it received, in order. The GeoNetwork archive, the record titles,
 * the XSL chain and the upload answer are parameters.
 */
module CopyManagement {
  import opened Wrappers
  import opened Dicts
  import opened Types
  import opened Json
  import opened Errors
  import Operations
  import CommonExceptions
  import Georchestra
  import Metadata
  import Sequences

  /**
   * How `get_layer(None, name)` ended: an answer with the HTTP status and
   * the layer's `all_style_names` when the answer is a layer object, `None`
   * when it is not (the error text of a failed lookup has no such
   * attribute); or an exception the library raised, such as the
   * `HTTPError` of `raise_for_status`.
   */
  datatype LayerLookup =
    | LayerLookup(styleNames: Option<seq<string>>, status: int)
    | LookupRaised(error: Error)
  {
    /** The lookup answered with status 200. */
    predicate Ok() {
      LayerLookup? && status == 200
    }

    /** Reading `all_style_names` of this answer raises, or the lookup itself raised. */
    predicate Stops() {
      LookupRaised? || styleNames.None?
    }

    /** What the style comprehension of `copy_styles` raises at an answer that stops it. */
    function StopError(): (e: Error)
      requires Stops()
      ensures LookupRaised? ==> e == error
      ensures LayerLookup? ==> e == Builtin("AttributeError")
    {
      if LookupRaised? then error else Builtin("AttributeError")
    }
  }

  /**
   * How a `copy_style` or `copy_layer` call of the sync library ended: an
   * answer with its status, one of the library's two missing-resource
   * exceptions, or any other exception it raised (the `HTTPError` of a
   * failed request, say).
   */
  datatype SyncOutcome =
    | Copied(status: int)
    | DatastoreMissing(message: string)
    | WorkspaceMissing(message: string)
    | Raised(error: Error)

  /** One call to the sync library, with the source server it concerns. */
  datatype SyncCall =
    | GetLayerCall(server: string, layer: GsLayer)
    | CopyStyleCall(server: string, style: string)
    | CopyLayerCall(server: string, layer: GsLayer)

  /** The lookups of a GeoServer: an answer with status 200 is always a layer object. */
  type LayerOracle = f: (string, GsLayer) -> LayerLookup
    | forall server, layer :: f(server, layer).Ok() ==> f(server, layer).styleNames.Some?
    witness (server: string, layer: GsLayer) => LayerLookup(Some([]), 200)

  /** `Metadata(title, iso_standard)`. */
  datatype MetadataPreview = MetadataPreview(title: string, isoStandard: string)

  /** `PreviewGN(src, dst, metadata)`. */
  datatype PreviewGN = PreviewGN(src: string, dst: string, metadata: seq<MetadataPreview>)

  /**
   * `PreviewGS(src, dst, layers, styles)`. The two lists are built from
   * Python sets, so their order carries no meaning: they are sets here.
   */
  datatype PreviewGS = PreviewGS(src: string, dst: string, layers: set<string>, styles: set<string>)

  /** `CopyPreview(geonetwork_resources, geoserver_resources)`. */
  datatype CopyPreview = CopyPreview(geonetworkResources: seq<PreviewGN>, geoserverResources: seq<PreviewGS>)

  /** A configured XSL transformation `{"xsl_path": ..., "description": ...}`. */
  datatype Transformation = Transformation(xslPath: string, description: string)

  /** What `put_record_zip` answers: `results["msg"]` and `results["detail"]`. */
  datatype UploadResult = UploadResult(msg: string, detail: Json)

  /**
   * `meta.schema`: the schema named by the index row, "iso19139" when it
   * names none. `Meta` has no such attribute; this is the value its
   * constructor computes into a local to choose the namespace prefix.
   */
  function Schema(meta: Metadata.Meta): (r: string)
    ensures "schema" in meta.properties ==> r == meta.properties["schema"]
    ensures "schema" !in meta.properties ==> r == "iso19139"
  {
    if "schema" in meta.properties then meta.properties["schema"] else "iso19139"
  }

  /** The schema the preview reports is the one whose prefix the record was read with. */
  lemma SchemaMatchesPrefix(pkg: Metadata.Package)
    ensures Metadata.MakeMeta(pkg).Success? ==>
      Metadata.MakeMeta(pkg).value.prefix == Metadata.SchemaPrefix(Schema(Metadata.MakeMeta(pkg).value))
  {
  }

  // ---------------------------------------------------------------------
  // What a server's layers yield
  // ---------------------------------------------------------------------

  /** The string forms of the layers of `names` that `get_layer` answered with 200. */
  function FoundLayers(lookup: LayerOracle, server: string, names: seq<GsLayer>): set<string>
    decreases |names|
  {
    if names == [] then {}
    else
      var last := names[|names| - 1];
      FoundLayers(lookup, server, names[..|names| - 1])
        + (if lookup(server, last).Ok() then {LayerToString(last)} else {})
  }

  /** A name is found exactly when some layer of the list answered 200 and has that string form. */
  lemma {:induction false} FoundLayersMembers(lookup: LayerOracle, server: string, names: seq<GsLayer>, s: string)
    ensures s in FoundLayers(lookup, server, names) <==>
      exists i :: 0 <= i < |names| && lookup(server, names[i]).Ok() && LayerToString(names[i]) == s
    decreases |names|
  {
    if names != [] {
      var init := names[..|names| - 1];
      FoundLayersMembers(lookup, server, init, s);
      if s in FoundLayers(lookup, server, init) {
        var i :| 0 <= i < |init| && lookup(server, init[i]).Ok() && LayerToString(init[i]) == s;
        assert names[i] == init[i];
      }
      if exists i :: 0 <= i < |names| && lookup(server, names[i]).Ok() && LayerToString(names[i]) == s {
        var i :| 0 <= i < |names| && lookup(server, names[i]).Ok() && LayerToString(names[i]) == s;
        if i < |init| {
          assert init[i] == names[i];
        }
      }
    }
  }

  /** The style names of the layers of `names` that `get_layer` answered with 200. */
  function FoundStyles(lookup: LayerOracle, server: string, names: seq<GsLayer>): set<string>
    decreases |names|
  {
    if names == [] then {}
    else
      var l := lookup(server, names[|names| - 1]);
      FoundStyles(lookup, server, names[..|names| - 1])
        + (if l.Ok() then set s | s in l.styleNames.value else {})
  }

  /** A style is found exactly when some layer of the list answered 200 and names it. */
  lemma {:induction false} FoundStylesMembers(lookup: LayerOracle, server: string, names: seq<GsLayer>, s: string)
    ensures s in FoundStyles(lookup, server, names) <==>
      exists i :: 0 <= i < |names| && lookup(server, names[i]).Ok() && s in lookup(server, names[i]).styleNames.value
    decreases |names|
  {
    if names != [] {
      var init := names[..|names| - 1];
      FoundStylesMembers(lookup, server, init, s);
      if s in FoundStyles(lookup, server, init) {
        var i :| 0 <= i < |init| && lookup(server, init[i]).Ok() && s in lookup(server, init[i]).styleNames.value;
        assert names[i] == init[i];
      }
      if exists i :: 0 <= i < |names| && lookup(server, names[i]).Ok() && s in lookup(server, names[i]).styleNames.value {
        var i :| 0 <= i < |names| && lookup(server, names[i]).Ok() && s in lookup(server, names[i]).styleNames.value;
        if i < |init| {
          assert init[i] == names[i];
        }
      }
    }
  }

  /** `acc` extended by the elements of `xs` it does not hold yet, in order: a set `update`. */
  function AddNew(acc: seq<string>, xs: seq<string>): seq<string>
    decreases |xs|
  {
    if xs == [] then acc else AddNew(if xs[0] in acc then acc else acc + [xs[0]], xs[1..])
  }

  lemma {:induction false} AddNewKeepsSet(acc: seq<string>, xs: seq<string>)
    requires Distinct(acc)
    ensures Distinct(AddNew(acc, xs))
    ensures forall s :: s in AddNew(acc, xs) <==> s in acc || s in xs
    decreases |xs|
  {
    if xs != [] {
      var acc' := if xs[0] in acc then acc else acc + [xs[0]];
      if xs[0] !in acc {
        DistinctAppend(acc, xs[0]);
      }
      AddNewKeepsSet(acc', xs[1..]);
      assert forall s :: s in xs <==> s == xs[0] || s in xs[1..];
    }
  }

  /**
   * The order in which the copy goes through the found styles: each style
   * once, in order of first appearance. Python iterates the set in an order
   * of its own; only the set and the absence of repetitions matter.
   */
  function StyleOrder(lookup: LayerOracle, server: string, names: seq<GsLayer>): seq<string>
    decreases |names|
  {
    if names == [] then []
    else
      var l := lookup(server, names[|names| - 1]);
      var init := StyleOrder(lookup, server, names[..|names| - 1]);
      if l.Ok() then AddNew(init, l.styleNames.value) else init
  }

  /** The copy order holds every found style exactly once. */
  lemma {:induction false} StyleOrderIsFoundStyles(lookup: LayerOracle, server: string, names: seq<GsLayer>)
    ensures Distinct(StyleOrder(lookup, server, names))
    ensures forall s :: s in StyleOrder(lookup, server, names) <==> s in FoundStyles(lookup, server, names)
    decreases |names|
  {
    if names != [] {
      var init := names[..|names| - 1];
      StyleOrderIsFoundStyles(lookup, server, init);
      var l := lookup(server, names[|names| - 1]);
      if l.Ok() {
        AddNewKeepsSet(StyleOrder(lookup, server, init), l.styleNames.value);
      }
    }
  }

  /**
   * Where the style comprehension of `copy_styles` stops: it reads
   * `all_style_names` on every answer before testing the status, so the
   * first lookup that raised or answered something that is not a layer
   * object stops it; `|names|` when no answer does.
   */
  function FirstStop(lookup: LayerOracle, server: string, names: seq<GsLayer>): (n: nat)
    ensures n <= |names|
    ensures forall k :: 0 <= k < n ==> !lookup(server, names[k]).Stops()
    ensures n < |names| ==> lookup(server, names[n]).Stops()
    decreases |names|
  {
    if names == [] || lookup(server, names[0]).Stops() then 0
    else
      var n := 1 + FirstStop(lookup, server, names[1..]);
      assert forall k :: 1 <= k < n ==> names[k] == names[1..][k - 1];
      n
  }

  /**
   * Where the layer loop of `copy_preview` stops: it tests the status
   * first, so only a lookup that raised stops it; `|names|` when none did.
   */
  function FirstRaised(lookup: LayerOracle, server: string, names: seq<GsLayer>): (n: nat)
    ensures n <= |names|
    ensures forall k :: 0 <= k < n ==> lookup(server, names[k]).LayerLookup?
    ensures n < |names| ==> lookup(server, names[n]).LookupRaised?
    decreases |names|
  {
    if names == [] || lookup(server, names[0]).LookupRaised? then 0
    else
      var n := 1 + FirstRaised(lookup, server, names[1..]);
      assert forall k :: 1 <= k < n ==> names[k] == names[1..][k - 1];
      n
  }

  /** A lookup that stops the preview stops the copy of styles too, no later. */
  lemma {:induction false} FirstStopNoLater(lookup: LayerOracle, server: string, names: seq<GsLayer>)
    ensures FirstStop(lookup, server, names) <= FirstRaised(lookup, server, names)
    decreases |names|
  {
    if names != [] && !lookup(server, names[0]).Stops() {
      FirstStopNoLater(lookup, server, names[1..]);
    }
  }

  // ---------------------------------------------------------------------
  // The preview
  // ---------------------------------------------------------------------

  /** The layer names listed for a server; none for a server that is not listed. */
  function NamesOf(layerNames: map<string, seq<GsLayer>>, server: string): seq<GsLayer> {
    if server in layerNames then layerNames[server] else []
  }

  /** Some layer of the server answered 200, or some style was found. */
  predicate Identified(lookup: LayerOracle, server: string, names: seq<GsLayer>) {
    FoundLayers(lookup, server, names) != {} || FoundStyles(lookup, server, names) != {}
  }

  /** A server's preview entry: its lists stay empty unless the matching flag is set. */
  function ServerPreview(lookup: LayerOracle, server: string, names: seq<GsLayer>, dstUrl: string,
                         includeLayers: bool, includeStyles: bool): PreviewGS {
    PreviewGS(server, dstUrl,
      if includeLayers then FoundLayers(lookup, server, names) else {},
      if includeStyles then FoundStyles(lookup, server, names) else {})
  }

  /** The preview entry of a server where something was identified; none otherwise. */
  function PreviewEntry(lookup: LayerOracle, server: string, names: seq<GsLayer>, dstUrl: string,
                        includeLayers: bool, includeStyles: bool): seq<PreviewGS> {
    if Identified(lookup, server, names) then [ServerPreview(lookup, server, names, dstUrl, includeLayers, includeStyles)] else []
  }

  /** The preview entries of the servers, in order, for the servers where something was identified. */
  function ServerPreviews(lookup: LayerOracle, servers: seq<string>, layerNames: map<string, seq<GsLayer>>,
                          dstUrl: string, includeLayers: bool, includeStyles: bool): seq<PreviewGS>
    decreases |servers|
  {
    if servers == [] then []
    else
      var last := servers[|servers| - 1];
      ServerPreviews(lookup, servers[..|servers| - 1], layerNames, dstUrl, includeLayers, includeStyles)
        + PreviewEntry(lookup, last, NamesOf(layerNames, last), dstUrl, includeLayers, includeStyles)
  }

  /** An entry is listed exactly when it is the entry of a server where something was identified. */
  lemma {:induction false} ServerPreviewsListed(lookup: LayerOracle, servers: seq<string>, layerNames: map<string, seq<GsLayer>>,
                                                dstUrl: string, includeLayers: bool, includeStyles: bool, p: PreviewGS)
    ensures p in ServerPreviews(lookup, servers, layerNames, dstUrl, includeLayers, includeStyles) <==>
      exists k :: 0 <= k < |servers| && Identified(lookup, servers[k], NamesOf(layerNames, servers[k]))
        && p == ServerPreview(lookup, servers[k], NamesOf(layerNames, servers[k]), dstUrl, includeLayers, includeStyles)
    decreases |servers|
  {
    if servers != [] {
      var init, last := servers[..|servers| - 1], servers[|servers| - 1];
      var earlier := ServerPreviews(lookup, init, layerNames, dstUrl, includeLayers, includeStyles);
      var entry := PreviewEntry(lookup, last, NamesOf(layerNames, last), dstUrl, includeLayers, includeStyles);
      assert ServerPreviews(lookup, servers, layerNames, dstUrl, includeLayers, includeStyles) == earlier + entry;
      ServerPreviewsListed(lookup, init, layerNames, dstUrl, includeLayers, includeStyles, p);
      if p in earlier {
        var k :| 0 <= k < |init| && Identified(lookup, init[k], NamesOf(layerNames, init[k]))
          && p == ServerPreview(lookup, init[k], NamesOf(layerNames, init[k]), dstUrl, includeLayers, includeStyles);
        assert servers[k] == init[k];
      } else if p in entry {
        assert servers[|servers| - 1] == last;
      }
      if exists k :: 0 <= k < |servers| && Identified(lookup, servers[k], NamesOf(layerNames, servers[k]))
          && p == ServerPreview(lookup, servers[k], NamesOf(layerNames, servers[k]), dstUrl, includeLayers, includeStyles) {
        var k :| 0 <= k < |servers| && Identified(lookup, servers[k], NamesOf(layerNames, servers[k]))
          && p == ServerPreview(lookup, servers[k], NamesOf(layerNames, servers[k]), dstUrl, includeLayers, includeStyles);
        if k < |init| {
          assert init[k] == servers[k];
          assert p in earlier;
        } else {
          assert p in entry;
        }
      }
    }
  }

  /**
   * A server of the dict appears in the preview exactly when one of its
   * layers answered 200 or a style was found, and its lists are empty
   * unless the matching flag is set.
   */
  lemma ServerAppearsIff(lookup: LayerOracle, servers: seq<string>, layerNames: map<string, seq<GsLayer>>,
                         dstUrl: string, includeLayers: bool, includeStyles: bool, k: nat)
    requires Distinct(servers) && k < |servers|
    ensures (exists p :: p in ServerPreviews(lookup, servers, layerNames, dstUrl, includeLayers, includeStyles) && p.src == servers[k])
      <==> Identified(lookup, servers[k], NamesOf(layerNames, servers[k]))
    ensures forall p :: p in ServerPreviews(lookup, servers, layerNames, dstUrl, includeLayers, includeStyles) ==>
      p.dst == dstUrl && (!includeLayers ==> p.layers == {}) && (!includeStyles ==> p.styles == {})
  {
    var previews := ServerPreviews(lookup, servers, layerNames, dstUrl, includeLayers, includeStyles);
    var own := ServerPreview(lookup, servers[k], NamesOf(layerNames, servers[k]), dstUrl, includeLayers, includeStyles);
    ServerPreviewsListed(lookup, servers, layerNames, dstUrl, includeLayers, includeStyles, own);
    forall p | p in previews
      ensures p.dst == dstUrl && (!includeLayers ==> p.layers == {}) && (!includeStyles ==> p.styles == {})
      ensures p.src == servers[k] ==> Identified(lookup, servers[k], NamesOf(layerNames, servers[k]))
    {
      ServerPreviewsListed(lookup, servers, layerNames, dstUrl, includeLayers, includeStyles, p);
      var j :| 0 <= j < |servers| && Identified(lookup, servers[j], NamesOf(layerNames, servers[j]))
        && p == ServerPreview(lookup, servers[j], NamesOf(layerNames, servers[j]), dstUrl, includeLayers, includeStyles);
      if p.src == servers[k] && j != k {
        if j < k {
          DistinctAt(servers, j, k);
        } else {
          DistinctAt(servers, k, j);
        }
      }
    }
  }

  // ---------------------------------------------------------------------
  // The calls a copy makes
  // ---------------------------------------------------------------------

  function GetLayerCalls(server: string, names: seq<GsLayer>): (r: seq<SyncCall>)
    ensures |r| == |names| && forall i :: 0 <= i < |names| ==> r[i] == GetLayerCall(server, names[i])
  {
    seq(|names|, i requires 0 <= i < |names| => GetLayerCall(server, names[i]))
  }

  function CopyStyleCalls(server: string, styles: seq<string>): (r: seq<SyncCall>)
    ensures |r| == |styles| && forall i :: 0 <= i < |styles| ==> r[i] == CopyStyleCall(server, styles[i])
  {
    seq(|styles|, i requires 0 <= i < |styles| => CopyStyleCall(server, styles[i]))
  }

  function CopyLayerCalls(server: string, names: seq<GsLayer>): (r: seq<SyncCall>)
    ensures |r| == |names| && forall i :: 0 <= i < |names| ==> r[i] == CopyLayerCall(server, names[i])
  {
    seq(|names|, i requires 0 <= i < |names| => CopyLayerCall(server, names[i]))
  }

  /** The calls `copy_styles` makes for one server: the layer lookups, then one copy per found style. */
  function StyleCalls(lookup: LayerOracle, server: string, names: seq<GsLayer>): seq<SyncCall> {
    GetLayerCalls(server, names) + CopyStyleCalls(server, StyleOrder(lookup, server, names))
  }

  /** The calls `copy_dataset` makes for one server with layers: styles first, then layers. */
  function ServerCalls(lookup: LayerOracle, server: string, names: seq<GsLayer>, includeLayers: bool, includeStyles: bool): seq<SyncCall> {
    (if includeStyles then StyleCalls(lookup, server, names) else [])
      + (if includeLayers then CopyLayerCalls(server, names) else [])
  }

  /** The call at each position of a server's calls: lookups, then style copies, then layer copies. */
  lemma ServerCallsAt(lookup: LayerOracle, server: string, names: seq<GsLayer>, includeLayers: bool, includeStyles: bool, i: nat)
    requires i < |ServerCalls(lookup, server, names, includeLayers, includeStyles)|
    ensures var c := ServerCalls(lookup, server, names, includeLayers, includeStyles);
      var styles := StyleOrder(lookup, server, names);
      var n := if includeStyles then |names| + |styles| else 0;
      && |c| == n + (if includeLayers then |names| else 0)
      && (includeStyles && i < |names| ==> c[i] == GetLayerCall(server, names[i]))
      && (includeStyles && |names| <= i < n ==> c[i] == CopyStyleCall(server, styles[i - |names|]))
      && (n <= i ==> c[i] == CopyLayerCall(server, names[i - n]))
  {
  }

  /**
   * For one server, every layer lookup comes before every style copy and
   * every style copy before every layer copy; all calls concern that server.
   */
  lemma ServerCallsOrder(lookup: LayerOracle, server: string, names: seq<GsLayer>, includeLayers: bool, includeStyles: bool)
    ensures var c := ServerCalls(lookup, server, names, includeLayers, includeStyles);
      && (forall i, j :: 0 <= i < |c| && 0 <= j < |c| && c[i].CopyStyleCall? && c[j].CopyLayerCall? ==> i < j)
      && (forall i, j :: 0 <= i < |c| && 0 <= j < |c| && c[i].GetLayerCall? && c[j].CopyStyleCall? ==> i < j)
      && (forall i :: 0 <= i < |c| ==> c[i].server == server)
  {
    var c := ServerCalls(lookup, server, names, includeLayers, includeStyles);
    forall i | 0 <= i < |c|
      ensures c[i].server == server
    {
      ServerCallsAt(lookup, server, names, includeLayers, includeStyles, i);
    }
    forall i, j | 0 <= i < |c| && 0 <= j < |c| && c[i].CopyStyleCall? && c[j].CopyLayerCall?
      ensures i < j
    {
      ServerCallsAt(lookup, server, names, includeLayers, includeStyles, i);
      ServerCallsAt(lookup, server, names, includeLayers, includeStyles, j);
    }
    forall i, j | 0 <= i < |c| && 0 <= j < |c| && c[i].GetLayerCall? && c[j].CopyStyleCall?
      ensures i < j
    {
      ServerCallsAt(lookup, server, names, includeLayers, includeStyles, i);
      ServerCallsAt(lookup, server, names, includeLayers, includeStyles, j);
    }
  }

  /** Each found style is copied exactly once, and only found styles are copied. */
  lemma ServerCallsCopyEachStyleOnce(lookup: LayerOracle, server: string, names: seq<GsLayer>, includeLayers: bool, includeStyles: bool)
    ensures var c := ServerCalls(lookup, server, names, includeLayers, includeStyles);
      && (forall i, j :: 0 <= i < j < |c| && c[i].CopyStyleCall? && c[j].CopyStyleCall? ==> c[i].style != c[j].style)
      && (forall s :: CopyStyleCall(server, s) in c <==> includeStyles && s in FoundStyles(lookup, server, names))
  {
    ServerCallsStylesDistinct(lookup, server, names, includeLayers, includeStyles);
    ServerCallsStylesFound(lookup, server, names, includeLayers, includeStyles);
  }

  /** A style copy in a server's calls sits in the style block, at the position of its style. */
  lemma ServerCallsStyleAt(lookup: LayerOracle, server: string, names: seq<GsLayer>, includeLayers: bool, includeStyles: bool, i: nat)
    requires var c := ServerCalls(lookup, server, names, includeLayers, includeStyles);
      i < |c| && c[i].CopyStyleCall?
    ensures var c := ServerCalls(lookup, server, names, includeLayers, includeStyles);
      var styles := StyleOrder(lookup, server, names);
      && includeStyles && |names| <= i < |names| + |styles|
      && c[i] == CopyStyleCall(server, styles[i - |names|])
  {
    ServerCallsAt(lookup, server, names, includeLayers, includeStyles, i);
  }

  lemma ServerCallsStylesDistinct(lookup: LayerOracle, server: string, names: seq<GsLayer>, includeLayers: bool, includeStyles: bool)
    ensures var c := ServerCalls(lookup, server, names, includeLayers, includeStyles);
      forall i, j :: 0 <= i < j < |c| && c[i].CopyStyleCall? && c[j].CopyStyleCall? ==> c[i].style != c[j].style
  {
    var pre := if includeStyles then GetLayerCalls(server, names) else [];
    var styles := if includeStyles then StyleOrder(lookup, server, names) else [];
    var post := if includeLayers then CopyLayerCalls(server, names) else [];
    assert ServerCalls(lookup, server, names, includeLayers, includeStyles) == pre + CopyStyleCalls(server, styles) + post;
    if includeStyles {
      StyleOrderDistinct(lookup, server, names);
    }
    BlockStylesDistinct(pre, server, styles, post);
  }

  /** Between calls that copy no style, one copy per style of a repetition-free list copies no style twice. */
  lemma BlockStylesDistinct(pre: seq<SyncCall>, server: string, styles: seq<string>, post: seq<SyncCall>)
    requires Distinct(styles)
    requires forall k :: 0 <= k < |pre| ==> !pre[k].CopyStyleCall?
    requires forall k :: 0 <= k < |post| ==> !post[k].CopyStyleCall?
    ensures var c := pre + CopyStyleCalls(server, styles) + post;
      forall i, j :: 0 <= i < j < |c| && c[i].CopyStyleCall? && c[j].CopyStyleCall? ==> c[i].style != c[j].style
  {
    var m := CopyStyleCalls(server, styles);
    var c := pre + m + post;
    var n := |pre|;
    forall i, j | 0 <= i < j < |c| && c[i].CopyStyleCall? && c[j].CopyStyleCall?
      ensures c[i].style != c[j].style
    {
      InStyleBlock(pre, m, post, i);
      InStyleBlock(pre, m, post, j);
      StyleCopiesDistinct(c, server, styles, n, i, j);
    }
  }

  /** A style copy in `pre + m + post`, where `pre` and `post` copy no style, is a call of `m`. */
  lemma InStyleBlock(pre: seq<SyncCall>, m: seq<SyncCall>, post: seq<SyncCall>, i: nat)
    requires forall k :: 0 <= k < |pre| ==> !pre[k].CopyStyleCall?
    requires forall k :: 0 <= k < |post| ==> !post[k].CopyStyleCall?
    requires i < |pre + m + post| && (pre + m + post)[i].CopyStyleCall?
    ensures |pre| <= i < |pre| + |m| && (pre + m + post)[i] == m[i - |pre|]
  {
  }

  /** Copies of two different positions of a repetition-free style list name different styles. */
  lemma StyleCopiesDistinct(c: seq<SyncCall>, server: string, styles: seq<string>, n: nat, i: nat, j: nat)
    requires Distinct(styles) && n <= i < j < n + |styles| && j < |c|
    requires c[i] == CopyStyleCall(server, styles[i - n]) && c[j] == CopyStyleCall(server, styles[j - n])
    ensures c[i].style != c[j].style
  {
    DistinctAt(styles, i - n, j - n);
  }

  lemma StyleOrderDistinct(lookup: LayerOracle, server: string, names: seq<GsLayer>)
    ensures Distinct(StyleOrder(lookup, server, names))
  {
    StyleOrderIsFoundStyles(lookup, server, names);
  }

  lemma ServerCallsStylesFound(lookup: LayerOracle, server: string, names: seq<GsLayer>, includeLayers: bool, includeStyles: bool)
    ensures var c := ServerCalls(lookup, server, names, includeLayers, includeStyles);
      forall s :: CopyStyleCall(server, s) in c <==> includeStyles && s in FoundStyles(lookup, server, names)
  {
    var c := ServerCalls(lookup, server, names, includeLayers, includeStyles);
    forall s
      ensures CopyStyleCall(server, s) in c <==> includeStyles && s in FoundStyles(lookup, server, names)
    {
      if CopyStyleCall(server, s) in c {
        StyleCopiedIsFound(lookup, server, names, includeLayers, includeStyles, s);
      }
      if includeStyles && s in FoundStyles(lookup, server, names) {
        FoundStyleIsCopied(lookup, server, names, includeLayers, s);
      }
    }
  }

  lemma StyleCopiedIsFound(lookup: LayerOracle, server: string, names: seq<GsLayer>, includeLayers: bool, includeStyles: bool, s: string)
    requires CopyStyleCall(server, s) in ServerCalls(lookup, server, names, includeLayers, includeStyles)
    ensures includeStyles && s in FoundStyles(lookup, server, names)
  {
    var c := ServerCalls(lookup, server, names, includeLayers, includeStyles);
    var styles := StyleOrder(lookup, server, names);
    var i :| 0 <= i < |c| && c[i] == CopyStyleCall(server, s);
    ServerCallsStyleAt(lookup, server, names, includeLayers, includeStyles, i);
    assert s == styles[i - |names|];
    StyleOrderIsFoundStyles(lookup, server, names);
  }

  lemma FoundStyleIsCopied(lookup: LayerOracle, server: string, names: seq<GsLayer>, includeLayers: bool, s: string)
    requires s in FoundStyles(lookup, server, names)
    ensures CopyStyleCall(server, s) in ServerCalls(lookup, server, names, includeLayers, true)
  {
    var c := ServerCalls(lookup, server, names, includeLayers, true);
    var styles := StyleOrder(lookup, server, names);
    StyleOrderIsFoundStyles(lookup, server, names);
    var i :| 0 <= i < |styles| && styles[i] == s;
    ServerCallsAt(lookup, server, names, includeLayers, true, |names| + i);
    assert c[|names| + i] == CopyStyleCall(server, s);
  }

  /** With layers copied, every listed layer is copied. */
  lemma ServerCallsCopyEachLayer(lookup: LayerOracle, server: string, names: seq<GsLayer>, includeStyles: bool, l: GsLayer)
    requires l in names
    ensures CopyLayerCall(server, l) in ServerCalls(lookup, server, names, true, includeStyles)
  {
    var i :| 0 <= i < |names| && names[i] == l;
    var n := if includeStyles then |names| + |StyleOrder(lookup, server, names)| else 0;
    ServerCallsAt(lookup, server, names, true, includeStyles, n + i);
  }

  /** The calls of `copy_dataset` over the servers in order; a server with no layers is skipped. */
  function DatasetCalls(lookup: LayerOracle, servers: seq<string>, layerNames: map<string, seq<GsLayer>>,
                        includeLayers: bool, includeStyles: bool): seq<SyncCall>
    decreases |servers|
  {
    if servers == [] then []
    else
      var last := servers[|servers| - 1];
      DatasetCalls(lookup, servers[..|servers| - 1], layerNames, includeLayers, includeStyles)
        + if NamesOf(layerNames, last) == [] then [] else ServerCalls(lookup, last, NamesOf(layerNames, last), includeLayers, includeStyles)
  }

  /** No call concerns a server whose layer list is empty, or a server that is not listed. */
  lemma {:induction false} DatasetCallsSkipEmpty(lookup: LayerOracle, servers: seq<string>, layerNames: map<string, seq<GsLayer>>,
                                                 includeLayers: bool, includeStyles: bool)
    ensures forall c :: c in DatasetCalls(lookup, servers, layerNames, includeLayers, includeStyles) ==>
      c.server in servers && NamesOf(layerNames, c.server) != []
    decreases |servers|
  {
    if servers != [] {
      var init := servers[..|servers| - 1];
      var last := servers[|servers| - 1];
      DatasetCallsSkipEmpty(lookup, init, layerNames, includeLayers, includeStyles);
      if NamesOf(layerNames, last) != [] {
        ServerCallsOrder(lookup, last, NamesOf(layerNames, last), includeLayers, includeStyles);
      }
      forall c | c in DatasetCalls(lookup, servers, layerNames, includeLayers, includeStyles)
        ensures c.server in servers && NamesOf(layerNames, c.server) != []
      {
        if c in DatasetCalls(lookup, init, layerNames, includeLayers, includeStyles) {
          var k :| 0 <= k < |init| && init[k] == c.server;
          assert servers[k] == c.server;
        }
      }
    }
  }

  /** The calls for a prefix of the servers are a prefix of the calls for a longer one. */
  lemma {:induction false} DatasetCallsGrow(lookup: LayerOracle, servers: seq<string>, layerNames: map<string, seq<GsLayer>>,
                                            includeLayers: bool, includeStyles: bool, i: nat, j: nat)
    requires i <= j <= |servers|
    ensures DatasetCalls(lookup, servers[..i], layerNames, includeLayers, includeStyles)
      <= DatasetCalls(lookup, servers[..j], layerNames, includeLayers, includeStyles)
    decreases j - i
  {
    if i < j {
      DatasetCallsGrow(lookup, servers, layerNames, includeLayers, includeStyles, i, j - 1);
      var prefix := servers[..j];
      assert prefix[..j - 1] == servers[..j - 1] && prefix[j - 1] == servers[j - 1];
      var names := NamesOf(layerNames, servers[j - 1]);
      var shorter := DatasetCalls(lookup, servers[..j - 1], layerNames, includeLayers, includeStyles);
      var step := if names == [] then [] else ServerCalls(lookup, servers[j - 1], names, includeLayers, includeStyles);
      assert DatasetCalls(lookup, prefix, layerNames, includeLayers, includeStyles) == shorter + step;
      Sequences.PrefixOfConcat(shorter, step);
      Sequences.PrefixTrans(DatasetCalls(lookup, servers[..i], layerNames, includeLayers, includeStyles), shorter, shorter + step);
    }
  }

  /** The copy loop's call invariant carried over one more server. */
  lemma DatasetCallsAdvance(lookup: LayerOracle, servers: seq<string>, layerNames: map<string, seq<GsLayer>>,
                            includeLayers: bool, includeStyles: bool, i: nat,
                            calls0: seq<SyncCall>, callsBefore: seq<SyncCall>, callsAfter: seq<SyncCall>)
    requires i < |servers| && servers[i] in layerNames
    requires callsBefore == calls0 + DatasetCalls(lookup, servers[..i], layerNames, includeLayers, includeStyles)
    requires callsAfter == callsBefore + if layerNames[servers[i]] == [] then []
                                         else ServerCalls(lookup, servers[i], layerNames[servers[i]], includeLayers, includeStyles)
    ensures callsAfter == calls0 + DatasetCalls(lookup, servers[..i + 1], layerNames, includeLayers, includeStyles)
  {
    var prefix := servers[..i + 1];
    assert prefix[..i] == servers[..i] && prefix[i] == servers[i];
    var names := NamesOf(layerNames, servers[i]);
    var step := if names == [] then [] else ServerCalls(lookup, servers[i], names, includeLayers, includeStyles);
    assert DatasetCalls(lookup, prefix, layerNames, includeLayers, includeStyles)
      == DatasetCalls(lookup, servers[..i], layerNames, includeLayers, includeStyles) + step;
    Sequences.ConcatAssoc(calls0, DatasetCalls(lookup, servers[..i], layerNames, includeLayers, includeStyles), step);
  }

  /** The copy loop's record invariant carried over one more server. */
  lemma DatasetLogAdvance(lookup: LayerOracle, servers: seq<string>, layerNames: map<string, seq<GsLayer>>,
                          includeLayers: bool, includeStyles: bool, i: nat,
                          log0: seq<Operations.Record>, logBefore: seq<Operations.Record>, logAfter: seq<Operations.Record>)
    requires i < |servers| && servers[i] in layerNames
    requires logBefore == log0 + DatasetLog(lookup, servers[..i], layerNames, includeLayers, includeStyles)
    requires logAfter == logBefore + if layerNames[servers[i]] == [] then []
                                     else ServerLog(lookup, servers[i], layerNames[servers[i]], includeLayers, includeStyles)
    ensures logAfter == log0 + DatasetLog(lookup, servers[..i + 1], layerNames, includeLayers, includeStyles)
  {
    var prefix := servers[..i + 1];
    assert prefix[..i] == servers[..i] && prefix[i] == servers[i];
    var names := NamesOf(layerNames, servers[i]);
    var step := if names == [] then [] else ServerLog(lookup, servers[i], names, includeLayers, includeStyles);
    assert DatasetLog(lookup, prefix, layerNames, includeLayers, includeStyles)
      == DatasetLog(lookup, servers[..i], layerNames, includeLayers, includeStyles) + step;
    Sequences.ConcatAssoc(log0, DatasetLog(lookup, servers[..i], layerNames, includeLayers, includeStyles), step);
  }

  /** The layer lookups of `copy_preview`, server by server. */
  function PreviewCalls(servers: seq<string>, layerNames: map<string, seq<GsLayer>>): seq<SyncCall>
    decreases |servers|
  {
    if servers == [] then []
    else
      var last := servers[|servers| - 1];
      PreviewCalls(servers[..|servers| - 1], layerNames) + GetLayerCalls(last, NamesOf(layerNames, last))
  }

  /** The preview loop's call invariant carried over one more server. */
  lemma PreviewCallsAdvance(servers: seq<string>, layerNames: map<string, seq<GsLayer>>, i: nat,
                            calls0: seq<SyncCall>, callsBefore: seq<SyncCall>, callsAfter: seq<SyncCall>)
    requires i < |servers| && servers[i] in layerNames
    requires callsBefore == calls0 + PreviewCalls(servers[..i], layerNames)
    requires callsAfter == callsBefore + GetLayerCalls(servers[i], layerNames[servers[i]])
    ensures callsAfter == calls0 + PreviewCalls(servers[..i + 1], layerNames)
  {
    var prefix := servers[..i + 1];
    assert prefix[..i] == servers[..i] && prefix[i] == servers[i];
    var step := GetLayerCalls(servers[i], layerNames[servers[i]]);
    assert PreviewCalls(prefix, layerNames) == PreviewCalls(servers[..i], layerNames) + step;
    Sequences.ConcatAssoc(calls0, PreviewCalls(servers[..i], layerNames), step);
  }

  /** The preview loop's entry invariant carried over one more server. */
  lemma PreviewEntriesAdvance(lookup: LayerOracle, servers: seq<string>, layerNames: map<string, seq<GsLayer>>,
                              dstUrl: string, includeLayers: bool, includeStyles: bool, i: nat,
                              found: seq<PreviewGS>, entry: seq<PreviewGS>)
    requires i < |servers| && servers[i] in layerNames
    requires found == ServerPreviews(lookup, servers[..i], layerNames, dstUrl, includeLayers, includeStyles)
    requires entry == PreviewEntry(lookup, servers[i], layerNames[servers[i]], dstUrl, includeLayers, includeStyles)
    ensures found + entry == ServerPreviews(lookup, servers[..i + 1], layerNames, dstUrl, includeLayers, includeStyles)
  {
    var init := servers[..i + 1][..i];
    assert init == servers[..i];
    assert servers[..i + 1][i] == servers[i];
  }

  /** The preview only looks layers up: it copies nothing. */
  lemma {:induction false} PreviewOnlyLooksUp(servers: seq<string>, layerNames: map<string, seq<GsLayer>>)
    ensures forall c :: c in PreviewCalls(servers, layerNames) ==> c.GetLayerCall? && c.server in servers
    decreases |servers|
  {
    if servers != [] {
      var init := servers[..|servers| - 1];
      PreviewOnlyLooksUp(init, layerNames);
      forall c | c in PreviewCalls(servers, layerNames)
        ensures c.GetLayerCall? && c.server in servers
      {
        if c in PreviewCalls(init, layerNames) {
          var k :| 0 <= k < |init| && init[k] == c.server;
          assert servers[k] == c.server;
        }
      }
    }
  }

  // ---------------------------------------------------------------------
  // Errors and log records
  // ---------------------------------------------------------------------

  /**
   * `ParamError(context="dst", key=..., err=f"{message} on destination
   * Geoserver {dst}", operations=...)` for a missing datastore or
   * workspace: the common exception with status 400.
   */
  function MissingOnDst(what: string, name: string, message: string, dstName: string, ops: seq<Json>): (e: Error)
    ensures e.Common? && e.common.kind == CommonExceptions.Param
    ensures e.common.details.statusCode == 400 && e.common.details.context == "dst"
    ensures e.common.details.key == Some(what + " " + name)
    ensures e.common.details.err == message + " on destination Geoserver " + dstName
    ensures e.common.details.operations == ops
  {
    Common(CommonExceptions.Raise(CommonExceptions.Param, CommonExceptions.Kwargs(
      Some(message + " on destination Geoserver " + dstName), None, Some("dst"), None,
      Some(Some(what + " " + name)), None, Some(ops))).value)
  }

  /** No keyword arguments at all: the call shape of a bare `raise ParamError`. */
  const NoKwargs := CommonExceptions.Kwargs(None, None, None, None, None, None, None)

  /** The validation error a bare `raise ParamError` produces: `err` is required. */
  function BareParamError(): (e: Error)
    ensures CommonExceptions.Raise(CommonExceptions.Param, NoKwargs).Failure? && e == Builtin("ValidationError")
  {
    Builtin("ValidationError")
  }

  /**
   * The error a sync call raises, if any: none for a 200; a validation
   * error for any other status; a `ParamError` naming the resource for a
   * missing datastore or workspace; any other exception of the library
   * unchanged, the `except` clause not catching it.
   */
  function SyncError(outcome: SyncOutcome, what: string, name: string, dstName: string, ops: seq<Json>): (r: Option<Error>)
    ensures r.None? <==> outcome == Copied(200)
    ensures outcome.Copied? && outcome.status != 200 ==> r == Some(BareParamError())
    ensures outcome.DatastoreMissing? || outcome.WorkspaceMissing? ==>
      r == Some(MissingOnDst(what, name, outcome.message, dstName, ops))
    ensures outcome.Raised? ==> r == Some(outcome.error)
  {
    match outcome
    case Copied(status) => if status == 200 then None else Some(BareParamError())
    case DatastoreMissing(m) => Some(MissingOnDst(what, name, m, dstName, ops))
    case WorkspaceMissing(m) => Some(MissingOnDst(what, name, m, dstName, ops))
    case Raised(e) => Some(e)
  }

  /** A `GsLayer` as its named tuple serializes. */
  function LayerJson(l: GsLayer): Json {
    JArr([if l.workspaceName.Some? then JStr(l.workspaceName.value) else JNull,
          if l.layerName.Some? then JStr(l.layerName.value) else JNull])
  }

  function LayersJson(names: seq<GsLayer>): (r: Json)
    ensures r.JArr? && |r.items| == |names| && forall i :: 0 <= i < |names| ==> r.items[i] == LayerJson(names[i])
  {
    JArr(seq(|names|, i requires 0 <= i < |names| => LayerJson(names[i])))
  }

  function TransformationsJson(xsl: seq<Transformation>): Json {
    JArr(seq(|xsl|, i requires 0 <= i < |xsl| =>
      JObj([("xsl_path", JStr(xsl[i].xslPath)), ("description", JStr(xsl[i].description))])))
  }

  /** `[trans["xsl_path"] for trans in xsl_transformations]`. */
  function XslPaths(xsl: seq<Transformation>): (r: seq<string>)
    ensures |r| == |xsl| && forall i :: 0 <= i < |xsl| ==> r[i] == xsl[i].xslPath
  {
    seq(|xsl|, i requires 0 <= i < |xsl| => xsl[i].xslPath)
  }

  /** The record logged after a server's styles were copied. */
  function StylesRecord(styles: seq<string>): Operations.Record {
    Operations.SuccessRecord("Styles copied successfully", [("styles", StrArray(styles))], Some(Operations.Style))
  }

  /** The record logged after a server's layers were copied. */
  function LayersRecord(names: seq<GsLayer>): Operations.Record {
    Operations.SuccessRecord("Layers copied successfully", [("layers", LayersJson(names))], Some(Operations.Layer))
  }

  /** The success records of one server, in order. */
  function ServerLog(lookup: LayerOracle, server: string, names: seq<GsLayer>, includeLayers: bool, includeStyles: bool)
    : seq<Operations.Record>
  {
    (if includeStyles then [StylesRecord(StyleOrder(lookup, server, names))] else [])
      + (if includeLayers then [LayersRecord(names)] else [])
  }

  /** A server's calls are its style calls followed by its layer calls. */
  lemma ServerCallsJoin(lookup: LayerOracle, server: string, names: seq<GsLayer>, includeLayers: bool, includeStyles: bool,
                        calls0: seq<SyncCall>, mid: seq<SyncCall>, final: seq<SyncCall>)
    requires mid == calls0 + (if includeStyles then StyleCalls(lookup, server, names) else [])
    requires final == mid + (if includeLayers then CopyLayerCalls(server, names) else [])
    ensures final == calls0 + ServerCalls(lookup, server, names, includeLayers, includeStyles)
  {
    Sequences.ConcatAssoc(calls0, if includeStyles then StyleCalls(lookup, server, names) else [],
                          if includeLayers then CopyLayerCalls(server, names) else []);
  }

  /** A server's records are its styles record followed by its layers record. */
  lemma ServerLogJoin(lookup: LayerOracle, server: string, names: seq<GsLayer>, includeLayers: bool, includeStyles: bool,
                      log0: seq<Operations.Record>, mid: seq<Operations.Record>, final: seq<Operations.Record>)
    requires mid == log0 + (if includeStyles then [StylesRecord(StyleOrder(lookup, server, names))] else [])
    requires final == mid + (if includeLayers then [LayersRecord(names)] else [])
    ensures final == log0 + ServerLog(lookup, server, names, includeLayers, includeStyles)
  {
    Sequences.ConcatAssoc(log0, if includeStyles then [StylesRecord(StyleOrder(lookup, server, names))] else [],
                          if includeLayers then [LayersRecord(names)] else []);
  }

  /** The success records of the servers with layers, in order. */
  function DatasetLog(lookup: LayerOracle, servers: seq<string>, layerNames: map<string, seq<GsLayer>>,
                      includeLayers: bool, includeStyles: bool): seq<Operations.Record>
    decreases |servers|
  {
    if servers == [] then []
    else
      var last := servers[|servers| - 1];
      DatasetLog(lookup, servers[..|servers| - 1], layerNames, includeLayers, includeStyles)
        + if NamesOf(layerNames, last) == [] then [] else ServerLog(lookup, last, NamesOf(layerNames, last), includeLayers, includeStyles)
  }

  /** Servers with layers, among `servers`. */
  function CountNonEmpty(servers: seq<string>, layerNames: map<string, seq<GsLayer>>): nat
    decreases |servers|
  {
    if servers == [] then 0
    else CountNonEmpty(servers[..|servers| - 1], layerNames) + if NamesOf(layerNames, servers[|servers| - 1]) == [] then 0 else 1
  }

  /**
   * One styles record per server with layers when styles are copied, one
   * layers record per such server when layers are copied, and nothing else.
   */
  lemma {:induction false} OneRecordPerServer(lookup: LayerOracle, servers: seq<string>, layerNames: map<string, seq<GsLayer>>,
                                              includeLayers: bool, includeStyles: bool)
    ensures |DatasetLog(lookup, servers, layerNames, includeLayers, includeStyles)|
      == CountNonEmpty(servers, layerNames) * ((if includeLayers then 1 else 0) + (if includeStyles then 1 else 0))
    ensures forall r :: r in DatasetLog(lookup, servers, layerNames, includeLayers, includeStyles) ==>
      (r.SuccessRecord? && includeStyles && r.message == "Styles copied successfully")
      || (r.SuccessRecord? && includeLayers && r.message == "Layers copied successfully")
    decreases |servers|
  {
    if servers != [] {
      OneRecordPerServer(lookup, servers[..|servers| - 1], layerNames, includeLayers, includeStyles);
    }
  }

  /** The records for a prefix of the servers are a prefix of the records for a longer one. */
  lemma {:induction false} DatasetLogGrow(lookup: LayerOracle, servers: seq<string>, layerNames: map<string, seq<GsLayer>>,
                                          includeLayers: bool, includeStyles: bool, i: nat, j: nat)
    requires i <= j <= |servers|
    ensures DatasetLog(lookup, servers[..i], layerNames, includeLayers, includeStyles)
      <= DatasetLog(lookup, servers[..j], layerNames, includeLayers, includeStyles)
    decreases j - i
  {
    if i < j {
      DatasetLogGrow(lookup, servers, layerNames, includeLayers, includeStyles, i, j - 1);
      var prefix := servers[..j];
      assert prefix[..j - 1] == servers[..j - 1] && prefix[j - 1] == servers[j - 1];
      var names := NamesOf(layerNames, servers[j - 1]);
      var shorter := DatasetLog(lookup, servers[..j - 1], layerNames, includeLayers, includeStyles);
      var step := if names == [] then [] else ServerLog(lookup, servers[j - 1], names, includeLayers, includeStyles);
      assert DatasetLog(lookup, prefix, layerNames, includeLayers, includeStyles) == shorter + step;
      Sequences.PrefixOfConcat(shorter, step);
      Sequences.PrefixTrans(DatasetLog(lookup, servers[..i], layerNames, includeLayers, includeStyles), shorter, shorter + step);
    }
  }

  /** The record of the XSL chain: the configured transformations and what the chain reported. */
  function XslRecord(xsl: seq<Transformation>, info: (Json, Json), context: Operations.Context): Operations.Record {
    Operations.InfoRecord("Apply XSL transformations in zip archive",
      [("transformations", TransformationsJson(xsl)), ("before", info.0), ("after", info.1)], Some(context))
  }

  /** The records the metadata step logs: the XSL record when transformations are configured, then the upload answer. */
  function MetaLog(includeMeta: bool, xsl: seq<Transformation>, applyXslt: seq<string> -> (Json, Json),
                   upload: UploadResult, context: Operations.Context): seq<Operations.Record> {
    if !includeMeta then []
    else
      (if xsl != [] then [XslRecord(xsl, applyXslt(XslPaths(xsl)), context)] else [])
        + [Operations.SuccessRecord(upload.msg, [("info", upload.detail)], Some(Operations.Meta))]
  }

  /**
   * The XSL chain is logged exactly when metadata is copied and
   * transformations are configured for the pair, and what it reports is
   * what the chain answered for the configured paths, in configured order;
   * the upload answer is always the last record.
   */
  lemma XslOnlyWhenConfigured(includeMeta: bool, xsl: seq<Transformation>, applyXslt: seq<string> -> (Json, Json),
                              upload: UploadResult, context: Operations.Context)
    ensures var log := MetaLog(includeMeta, xsl, applyXslt, upload, context);
      && ((exists r :: r in log && r.InfoRecord?) <==> includeMeta && xsl != [])
      && (includeMeta ==> log[|log| - 1] == Operations.SuccessRecord(upload.msg, [("info", upload.detail)], Some(Operations.Meta)))
      && (includeMeta && xsl != [] ==>
            && log[0].detail[1].1 == applyXslt(XslPaths(xsl)).0
            && XslPaths(xsl) == seq(|xsl|, i requires 0 <= i < |xsl| => xsl[i].xslPath))
  {
    var log := MetaLog(includeMeta, xsl, applyXslt, upload, context);
    if includeMeta && xsl != [] {
      assert log[0].InfoRecord?;
    }
  }

  // ---------------------------------------------------------------------
  // The sync library and the orchestrator
  // ---------------------------------------------------------------------

  /** The GeoServer sync library: fixed answers, and the calls received so far. */
  class GeoServerSync {
    const lookup: LayerOracle
    const styleCopy: (string, string) -> SyncOutcome
    const layerCopy: (string, GsLayer) -> SyncOutcome
    var calls: seq<SyncCall>

    constructor (lookup: LayerOracle, styleCopy: (string, string) -> SyncOutcome, layerCopy: (string, GsLayer) -> SyncOutcome)
      ensures this.lookup == lookup && this.styleCopy == styleCopy && this.layerCopy == layerCopy
      ensures calls == []
    {
      this.lookup := lookup;
      this.styleCopy := styleCopy;
      this.layerCopy := layerCopy;
      calls := [];
    }

    /** A call went through: a lookup when it did not raise, a copy when it answered 200. */
    predicate Succeeded(c: SyncCall) {
      match c
      case GetLayerCall(server, layer) => lookup(server, layer).LayerLookup?
      case CopyStyleCall(server, style) => styleCopy(server, style) == Copied(200)
      case CopyLayerCall(server, layer) => layerCopy(server, layer) == Copied(200)
    }

    /**
     * The error a call raised, if any: a lookup raises the exception it
     * ended with; a copy raises the error of its outcome, naming the style
     * or the layer.
     */
    function ErrorOf(c: SyncCall, dstName: string, ops: seq<Json>): (r: Option<Error>)
      ensures r.None? <==> Succeeded(c)
      ensures c.GetLayerCall? && r.Some? ==> r.value == lookup(c.server, c.layer).error
    {
      match c
      case GetLayerCall(server, layer) =>
        var l := lookup(server, layer);
        if l.LookupRaised? then Some(l.error) else None
      case CopyStyleCall(server, style) => SyncError(styleCopy(server, style), "Style", style, dstName, ops)
      case CopyLayerCall(server, layer) => SyncError(layerCopy(server, layer), "Layer", LayerToString(layer), dstName, ops)
    }

    /** `get_layer(None, name)` on the server. */
    method GetLayer(server: string, layer: GsLayer) returns (r: LayerLookup)
      modifies this`calls
      ensures calls == old(calls) + [GetLayerCall(server, layer)] && r == lookup(server, layer)
    {
      calls := calls + [GetLayerCall(server, layer)];
      r := lookup(server, layer);
    }

    /** `copy_style(style)` from the server to the destination. */
    method CopyStyle(server: string, style: string) returns (r: SyncOutcome)
      modifies this`calls
      ensures calls == old(calls) + [CopyStyleCall(server, style)] && r == styleCopy(server, style)
    {
      calls := calls + [CopyStyleCall(server, style)];
      r := styleCopy(server, style);
    }

    /** `copy_layer(None, layer_name)` from the server to the destination. */
    method CopyLayer(server: string, layer: GsLayer) returns (r: SyncOutcome)
      modifies this`calls
      ensures calls == old(calls) + [CopyLayerCall(server, layer)] && r == layerCopy(server, layer)
    {
      calls := calls + [CopyLayerCall(server, layer)];
      r := layerCopy(server, layer);
    }
  }

  /** `CopyManager(src_name, dst_name, uuid, geo_hnd)` with the GeoServer sync library it talks to. */
  class CopyManager {
    const srcName: string
    const dstName: string
    const uuid: string
    var includeMeta: bool
    var includeLayers: bool
    var includeStyles: bool
    /** `self.meta`: `None` while no record has been read, the attribute being only annotated. */
    var meta: Option<Metadata.Meta>
    const geoHnd: Georchestra.GeorchestraHandler
    /** How the GeoServer version probe of `get_gs_service` ends, per URL and credentials. */
    const probe: (string, Option<Credentials>) -> Georchestra.Probe
    const sync: GeoServerSync

    constructor (srcName: string, dstName: string, uuid: string, geoHnd: Georchestra.GeorchestraHandler,
                 probe: (string, Option<Credentials>) -> Georchestra.Probe, sync: GeoServerSync)
      ensures this.srcName == srcName && this.dstName == dstName && this.uuid == uuid
      ensures this.geoHnd == geoHnd && this.probe == probe && this.sync == sync
      ensures !includeMeta && !includeLayers && !includeStyles && meta == None
    {
      this.srcName := srcName;
      this.dstName := dstName;
      this.uuid := uuid;
      this.geoHnd := geoHnd;
      this.probe := probe;
      this.sync := sync;
      includeMeta := false;
      includeLayers := false;
      includeStyles := false;
      meta := None;
    }

    /**
     * The layer loop of the preview for one source server: look each layer
     * up, collect the string forms of those that answered 200 and their
     * styles. A lookup that raised stops the loop with its exception.
     */
    method LookUpLayers(server: string, names: seq<GsLayer>) returns (r: Result<(set<string>, set<string>), Error>)
      modifies sync`calls
      ensures var n := FirstRaised(sync.lookup, server, names);
        && (r.Success? <==> n == |names|)
        && (r.Success? ==> sync.calls == old(sync.calls) + GetLayerCalls(server, names))
        && (r.Success? ==> r.value == (FoundLayers(sync.lookup, server, names), FoundStyles(sync.lookup, server, names)))
        && (r.Failure? ==> r.error == sync.lookup(server, names[n]).error)
        && (r.Failure? ==> sync.calls == old(sync.calls) + GetLayerCalls(server, names[..n + 1]))
    {
      ghost var calls0 := sync.calls;
      var layers, styles := {}, {};
      var i := 0;
      while i < |names|
        invariant 0 <= i <= |names|
        invariant sync.calls == calls0 + GetLayerCalls(server, names[..i])
        invariant layers == FoundLayers(sync.lookup, server, names[..i])
        invariant styles == FoundStyles(sync.lookup, server, names[..i])
        invariant forall k :: 0 <= k < i ==> sync.lookup(server, names[k]).LayerLookup?
      {
        var found := sync.GetLayer(server, names[i]);
        assert names[..i + 1][..i] == names[..i];
        if found.LookupRaised? {
          return Failure(found.error);
        }
        if found.Ok() {
          layers := layers + {LayerToString(names[i])};
          styles := styles + set s | s in found.styleNames.value;
        }
        i := i + 1;
      }
      assert names[..i] == names;
      return Success((layers, styles));
    }

    /**
     * The preview loop body for one source server: the server must be
     * configured and reachable; then its layers are looked up, and the
     * server is listed when anything was identified. `looked` counts the
     * lookups made.
     */
    method PreviewServer(server: string, names: seq<GsLayer>, dstUrl: string)
      returns (r: Result<seq<PreviewGS>, Error>, ghost looked: nat)
      modifies sync`calls
      ensures looked <= |names|
      ensures sync.calls == old(sync.calls) + GetLayerCalls(server, names[..looked])
      ensures r.Success? ==> FirstRaised(sync.lookup, server, names) == |names| && looked == |names|
      ensures r.Success? ==> r.value == PreviewEntry(sync.lookup, server, names, dstUrl, includeLayers, includeStyles)
      ensures r.Failure? && looked > 0 ==>
        && looked == FirstRaised(sync.lookup, server, names) + 1
        && r.error == sync.lookup(server, names[looked - 1]).error
    {
      assert names[..0] == [];
      var src := geoHnd.GetGsService(server, true, probe);
      if src.Failure? {
        return Failure(src.error), 0;
      }
      var found := LookUpLayers(server, names);
      if found.Failure? {
        return Failure(found.error), FirstRaised(sync.lookup, server, names) + 1;
      }
      assert names[..|names|] == names;
      var (layers, styles) := found.value;
      if layers != {} || styles != {} {
        return Success([PreviewGS(server, dstUrl, if includeLayers then layers else {}, if includeStyles then styles else {})]), |names|;
      }
      return Success([]), |names|;
    }

    /**
     * The server loop of `copy_preview`, in the dict's order; the first
     * failure stops it, after the lookups of the `done` servers before it
     * and the first `looked` lookups of the server that failed.
     */
    method PreviewServers(keys: seq<string>, entries: map<string, seq<GsLayer>>, dstUrl: string)
      returns (r: Result<seq<PreviewGS>, Error>, ghost done: nat, ghost looked: nat)
      requires forall k :: k in keys ==> k in entries
      modifies sync`calls
      ensures done <= |keys|
      ensures r.Success? ==> done == |keys| && looked == 0 && sync.calls == old(sync.calls) + PreviewCalls(keys, entries)
      ensures r.Success? ==>
        r.value == ServerPreviews(sync.lookup, keys, entries, dstUrl, includeLayers, includeStyles)
      ensures r.Failure? ==>
        && done < |keys| && looked <= |entries[keys[done]]|
        && sync.calls == old(sync.calls) + PreviewCalls(keys[..done], entries) + GetLayerCalls(keys[done], entries[keys[done]][..looked])
      ensures r.Failure? && looked > 0 ==>
        && looked == FirstRaised(sync.lookup, keys[done], entries[keys[done]]) + 1
        && r.error == sync.lookup(keys[done], entries[keys[done]][looked - 1]).error
    {
      ghost var calls0 := sync.calls;
      ghost var lookup := sync.lookup;
      var servers: seq<PreviewGS> := [];
      var i := 0;
      while i < |keys|
        invariant 0 <= i <= |keys|
        invariant sync.calls == calls0 + PreviewCalls(keys[..i], entries)
        invariant servers == ServerPreviews(lookup, keys[..i], entries, dstUrl, includeLayers, includeStyles)
      {
        ghost var before := sync.calls;
        var entry, n := PreviewServer(keys[i], entries[keys[i]], dstUrl);
        if entry.Failure? {
          return Failure(entry.error), i, n;
        }
        assert entries[keys[i]][..|entries[keys[i]]|] == entries[keys[i]];
        PreviewCallsAdvance(keys, entries, i, calls0, before, sync.calls);
        PreviewEntriesAdvance(lookup, keys, entries, dstUrl, includeLayers, includeStyles, i, servers, entry.value);
        servers := servers + entry.value;
        i := i + 1;
      }
      assert keys[..i] == keys;
      return Success(servers), i, 0;
    }

    /**
     * Opening the source GeoNetwork and reading the record into `self.meta`:
     * the record read from the source is a parameter.
     */
    method ReadRecord(pkg: Metadata.Package) returns (r: Result<Metadata.Meta, Error>)
      modifies this`meta
      ensures !geoHnd.logHandler.valid ==> r == Failure(Runtime(Georchestra.ClosedMessage))
      ensures r.Success? ==> Metadata.MakeMeta(pkg) == Success(r.value) && meta == Some(r.value)
      ensures r.Failure? ==> meta == old(meta)
    {
      var gnSrc := geoHnd.GetGnService(srcName, true);
      if gnSrc.Failure? {
        return Failure(gnSrc.error);
      }
      var m := Metadata.MakeMeta(pkg);
      if m.Failure? {
        return Failure(m.error);
      }
      meta := Some(m.value);
      return Success(m.value);
    }

    /**
     * `copy_preview(include_meta, include_layers, include_styles)`: the
     * record's entry (with its title and schema only when metadata is
     * included), then, when layers or styles are included, one entry per
     * source server where something was identified. The preview copies
     * nothing.
     */
    method Preview(includeMeta: bool, includeLayers: bool, includeStyles: bool, pkg: Metadata.Package, title: string,
                   serverLayers: Dict<string, seq<GsLayer>>) returns (r: Result<CopyPreview, Error>, ghost done: nat, ghost looked: nat)
      modifies this`includeMeta, this`includeLayers, this`includeStyles, this`meta, sync`calls
      ensures this.includeMeta == includeMeta && this.includeLayers == includeLayers && this.includeStyles == includeStyles
      ensures done <= |serverLayers.keys| && (!includeLayers && !includeStyles ==> done == 0 && looked == 0)
      ensures done == |serverLayers.keys| ==> looked == 0
      ensures done < |serverLayers.keys| ==>
        && looked <= |serverLayers.entries[serverLayers.keys[done]]|
        && sync.calls == old(sync.calls) + PreviewCalls(serverLayers.keys[..done], serverLayers.entries)
             + GetLayerCalls(serverLayers.keys[done], serverLayers.entries[serverLayers.keys[done]][..looked])
      ensures done == |serverLayers.keys| ==>
        sync.calls == old(sync.calls) + PreviewCalls(serverLayers.keys, serverLayers.entries)
      ensures r.Success? && (includeLayers || includeStyles) ==> done == |serverLayers.keys|
      ensures r.Failure? && looked > 0 ==>
        var server := serverLayers.keys[done];
        && looked == FirstRaised(sync.lookup, server, serverLayers.entries[server]) + 1
        && r.error == sync.lookup(server, serverLayers.entries[server][looked - 1]).error
      ensures r.Success? ==> Metadata.MakeMeta(pkg).Success? && meta == Some(Metadata.MakeMeta(pkg).value)
      ensures r.Success? ==> r.value.geonetworkResources == [PreviewGN(srcName, dstName,
        if includeMeta then [MetadataPreview(title, Schema(Metadata.MakeMeta(pkg).value))] else [])]
      ensures r.Success? ==>
        var info := geoHnd.config.GetAccessInfo(false, false, dstName);
        && info.Success?
        && r.value.geoserverResources ==
             if includeLayers || includeStyles
             then ServerPreviews(sync.lookup, serverLayers.keys, serverLayers.entries, info.value.url, includeLayers, includeStyles)
             else []
    {
      this.includeMeta := includeMeta;
      this.includeLayers := includeLayers;
      this.includeStyles := includeStyles;
      done, looked := 0, 0;
      assert serverLayers.keys[..0] == [];
      var head := PreviewHead(pkg, title);
      if head.Failure? {
        r := Failure(head.error);
      } else if !(includeLayers || includeStyles) {
        r := Success(CopyPreview([head.value.0], []));
      } else {
        var found;
        found, done, looked := PreviewServers(serverLayers.keys, serverLayers.entries, head.value.1);
        r := if found.Failure? then Failure(found.error) else Success(CopyPreview([head.value.0], found.value));
      }
    }

    /**
     * The part of `copy_preview` before the server loop: the record's entry,
     * and the URL of the destination GeoServer.
     */
    method PreviewHead(pkg: Metadata.Package, title: string) returns (r: Result<(PreviewGN, string), Error>)
      modifies this`meta
      ensures r.Success? ==> Metadata.MakeMeta(pkg).Success? && meta == Some(Metadata.MakeMeta(pkg).value)
      ensures r.Success? ==> r.value.0 == PreviewGN(srcName, dstName,
        if includeMeta then [MetadataPreview(title, Schema(Metadata.MakeMeta(pkg).value))] else [])
      ensures r.Success? ==>
        var info := geoHnd.config.GetAccessInfo(false, false, dstName);
        info.Success? && r.value.1 == info.value.url
    {
      var m := ReadRecord(pkg);
      if m.Failure? {
        return Failure(m.error);
      }
      var record := PreviewGN(srcName, dstName, if includeMeta then [MetadataPreview(title, Schema(m.value))] else []);
      var dstInfo := geoHnd.GetServiceInfo(dstName, false, false);
      if dstInfo.Failure? {
        return Failure(dstInfo.error);
      }
      return Success((record, dstInfo.value.url));
    }

    /**
     * The style set of `copy_styles`: the styles of the layers that answered
     * 200, in first-seen order. The first lookup that raised, or whose
     * answer is not a layer object, stops it after that lookup, with the
     * lookup's exception or the `AttributeError` of reading the answer.
     */
    method CollectStyleNames(server: string, names: seq<GsLayer>) returns (r: Result<seq<string>, Error>)
      modifies sync`calls
      ensures var n := FirstStop(sync.lookup, server, names);
        && (r.Success? <==> n == |names|)
        && (r.Success? ==> sync.calls == old(sync.calls) + GetLayerCalls(server, names))
        && (r.Success? ==> r.value == StyleOrder(sync.lookup, server, names))
        && (r.Failure? ==> r.error == sync.lookup(server, names[n]).StopError())
        && (r.Failure? ==> sync.calls == old(sync.calls) + GetLayerCalls(server, names[..n + 1]))
    {
      ghost var calls0 := sync.calls;
      var styles := [];
      var i := 0;
      while i < |names|
        invariant 0 <= i <= |names|
        invariant sync.calls == calls0 + GetLayerCalls(server, names[..i])
        invariant styles == StyleOrder(sync.lookup, server, names[..i])
        invariant forall k :: 0 <= k < i ==> !sync.lookup(server, names[k]).Stops()
      {
        var found := sync.GetLayer(server, names[i]);
        assert names[..i + 1][..i] == names[..i];
        if found.LookupRaised? {
          return Failure(found.error);
        }
        if found.styleNames.None? {
          return Failure(Builtin("AttributeError"));
        }
        if found.Ok() {
          styles := AddNew(styles, found.styleNames.value);
        }
        i := i + 1;
      }
      assert names[..i] == names;
      return Success(styles);
    }

    /**
     * The copy loop of `copy_styles`: copy each style in the "Style"
     * context; the first copy that does not answer 200 stops the copy with
     * its error (an exception of the library other than the two
     * missing-resource ones passing through unchanged), leaving the context
     * at "Style" and logging nothing; otherwise the styles record is logged
     * and the context restored. `done` counts the copies made.
     */
    method CopyEachStyle(server: string, styles: seq<string>) returns (r: Outcome<Error>, ghost done: nat)
      modifies sync`calls, geoHnd.logHandler`responses, geoHnd.logHandler`context
      ensures done <= |styles|
      ensures sync.calls == old(sync.calls) + CopyStyleCalls(server, styles[..done])
      ensures r.Pass? ==> done == |styles|
      ensures forall k :: 0 <= k < done - 1 ==> sync.styleCopy(server, styles[k]) == Copied(200)
      ensures r.Pass? == (done == 0 || sync.styleCopy(server, styles[done - 1]) == Copied(200))
      ensures r.Fail? ==> done > 0 && Some(r.error) == SyncError(sync.styleCopy(server, styles[done - 1]), "Style",
                                                                 styles[done - 1], dstName,
                                                                 old(geoHnd.logHandler.GetJsonResponses()))
      ensures r.Fail? && sync.styleCopy(server, styles[done - 1]).Raised? ==>
        r.error == sync.styleCopy(server, styles[done - 1]).error
      ensures r.Pass? ==> geoHnd.logHandler.responses == old(geoHnd.logHandler.responses) + [StylesRecord(styles)]
      ensures r.Pass? ==> geoHnd.logHandler.context == old(geoHnd.logHandler.context)
      ensures r.Fail? ==> geoHnd.logHandler.responses == old(geoHnd.logHandler.responses)
      ensures r.Fail? ==> geoHnd.logHandler.context == Operations.Style
      ensures r.Pass? ==> sync.calls == old(sync.calls) + CopyStyleCalls(server, styles)
      ensures r.Fail? ==>
        && |old(sync.calls)| < |sync.calls|
        && Some(r.error) == sync.ErrorOf(sync.calls[|sync.calls| - 1], dstName, geoHnd.logHandler.GetJsonResponses())
    {
      var log := geoHnd.logHandler;
      ghost var calls0 := sync.calls;
      var saved := log.EnterContext(Operations.Style);
      var i := 0;
      while i < |styles|
        invariant i <= |styles|
        invariant sync.calls == calls0 + CopyStyleCalls(server, styles[..i])
        invariant forall k :: 0 <= k < i ==> sync.styleCopy(server, styles[k]) == Copied(200)
        invariant log.responses == old(log.responses) && log.context == Operations.Style
      {
        var outcome := sync.CopyStyle(server, styles[i]);
        var e := SyncError(outcome, "Style", styles[i], dstName, log.GetJsonResponses());
        assert styles[..i + 1] == styles[..i] + [styles[i]];
        i := i + 1;
        if e.Some? {
          return Fail(e.value), i;
        }
      }
      log.LogInfo(Operations.SuccessRecord("Styles copied successfully", [("styles", StrArray(styles))], None));
      log.ExitContext(saved);
      assert styles[..i] == styles;
      return Pass, i;
    }

    /**
     * `copy_styles(sync_service, layer_names)`: the style set of the
     * layers, then the copy of each style.
     */
    method CopyStyles(server: string, names: seq<GsLayer>) returns (r: Outcome<Error>, ghost done: nat)
      modifies sync`calls, geoHnd.logHandler`responses, geoHnd.logHandler`context
      ensures var n := FirstStop(sync.lookup, server, names);
        n < |names| ==>
          && r == Fail(sync.lookup(server, names[n]).StopError())
          && sync.calls == old(sync.calls) + GetLayerCalls(server, names[..n + 1])
          && geoHnd.logHandler.responses == old(geoHnd.logHandler.responses)
          && geoHnd.logHandler.context == old(geoHnd.logHandler.context)
      ensures var styles := StyleOrder(sync.lookup, server, names);
        FirstStop(sync.lookup, server, names) == |names| ==>
          && done <= |styles|
          && sync.calls == old(sync.calls) + GetLayerCalls(server, names) + CopyStyleCalls(server, styles[..done])
      ensures r.Pass? ==> FirstStop(sync.lookup, server, names) == |names|
      ensures r.Pass? ==>
        geoHnd.logHandler.responses == old(geoHnd.logHandler.responses) + [StylesRecord(StyleOrder(sync.lookup, server, names))]
      ensures r.Pass? ==> geoHnd.logHandler.context == old(geoHnd.logHandler.context)
      ensures r.Pass? ==> sync.calls == old(sync.calls) + StyleCalls(sync.lookup, server, names)
      ensures r.Fail? && FirstStop(sync.lookup, server, names) == |names| ==>
        && geoHnd.logHandler.responses == old(geoHnd.logHandler.responses)
        && geoHnd.logHandler.context == Operations.Style
        && |old(sync.calls)| < |sync.calls|
        && Some(r.error) == sync.ErrorOf(sync.calls[|sync.calls| - 1], dstName, geoHnd.logHandler.GetJsonResponses())
    {
      ghost var calls0 := sync.calls;
      var styles := CollectStyleNames(server, names);
      if styles.Failure? {
        return Fail(styles.error), 0;
      }
      r, done := CopyEachStyle(server, styles.value);
      Sequences.ConcatAssoc(calls0, GetLayerCalls(server, names), CopyStyleCalls(server, styles.value[..done]));
      if r.Pass? {
        assert styles.value[..done] == styles.value;
      }
    }

    /**
     * `copy_layers(sync_service, layer_names)`: copy each layer in the
     * "Layer" context, stopping at the first copy that does not answer 200
     * with its error, as `copy_styles` does, then log the layers record and
     * restore the context.
     */
    method CopyLayers(server: string, names: seq<GsLayer>) returns (r: Outcome<Error>, ghost done: nat)
      modifies sync`calls, geoHnd.logHandler`responses, geoHnd.logHandler`context
      ensures done <= |names|
      ensures sync.calls == old(sync.calls) + CopyLayerCalls(server, names[..done])
      ensures r.Pass? ==> done == |names|
      ensures forall k :: 0 <= k < done - 1 ==> sync.layerCopy(server, names[k]) == Copied(200)
      ensures r.Pass? == (done == 0 || sync.layerCopy(server, names[done - 1]) == Copied(200))
      ensures r.Fail? ==> done > 0 && Some(r.error) == SyncError(sync.layerCopy(server, names[done - 1]), "Layer",
                                                                 LayerToString(names[done - 1]), dstName,
                                                                 old(geoHnd.logHandler.GetJsonResponses()))
      ensures r.Fail? && sync.layerCopy(server, names[done - 1]).Raised? ==>
        r.error == sync.layerCopy(server, names[done - 1]).error
      ensures r.Pass? ==> geoHnd.logHandler.responses == old(geoHnd.logHandler.responses) + [LayersRecord(names)]
      ensures r.Pass? ==> geoHnd.logHandler.context == old(geoHnd.logHandler.context)
      ensures r.Fail? ==> geoHnd.logHandler.responses == old(geoHnd.logHandler.responses)
      ensures r.Fail? ==> geoHnd.logHandler.context == Operations.Layer
      ensures r.Pass? ==> sync.calls == old(sync.calls) + CopyLayerCalls(server, names)
      ensures r.Fail? ==>
        && |old(sync.calls)| < |sync.calls|
        && Some(r.error) == sync.ErrorOf(sync.calls[|sync.calls| - 1], dstName, geoHnd.logHandler.GetJsonResponses())
    {
      var log := geoHnd.logHandler;
      ghost var calls0 := sync.calls;
      var saved := log.EnterContext(Operations.Layer);
      var i := 0;
      while i < |names|
        invariant i <= |names|
        invariant sync.calls == calls0 + CopyLayerCalls(server, names[..i])
        invariant forall k :: 0 <= k < i ==> sync.layerCopy(server, names[k]) == Copied(200)
        invariant log.responses == old(log.responses) && log.context == Operations.Layer
      {
        var outcome := sync.CopyLayer(server, names[i]);
        var e := SyncError(outcome, "Layer", LayerToString(names[i]), dstName, log.GetJsonResponses());
        assert names[..i + 1] == names[..i] + [names[i]];
        i := i + 1;
        if e.Some? {
          return Fail(e.value), i;
        }
      }
      log.LogInfo(Operations.SuccessRecord("Layers copied successfully", [("layers", LayersJson(names))], None));
      log.ExitContext(saved);
      assert names[..i] == names;
      return Pass, i;
    }

    /**
     * A copy stopped at the last call made, which came after the first `n`
     * calls: either a copy that raised `e` inside the "Style" or the "Layer"
     * context, or a style lookup that raised `e` or whose answer was not a
     * layer object, `e` then being the `AttributeError` of reading its
     * style names.
     */
    ghost predicate StoppedBy(n: nat, e: Error)
      reads this, sync, geoHnd, geoHnd.logHandler
    {
      && n < |sync.calls|
      && var last := sync.calls[|sync.calls| - 1];
        || (&& Some(e) == sync.ErrorOf(last, dstName, geoHnd.logHandler.GetJsonResponses())
            && geoHnd.logHandler.context in {Operations.Style, Operations.Layer})
        || (&& last.GetLayerCall? && sync.lookup(last.server, last.layer).Stops()
            && e == sync.lookup(last.server, last.layer).StopError())
    }

    /**
     * The body of `copy_dataset`'s server loop for a server with layers:
     * its styles first, then its layers. A failure's error is the one of
     * the last call made.
     */
    method CopyServer(server: string, names: seq<GsLayer>) returns (r: Outcome<Error>)
      modifies sync`calls, geoHnd.logHandler`responses, geoHnd.logHandler`context
      ensures r.Pass? ==> sync.calls == old(sync.calls) + ServerCalls(sync.lookup, server, names, includeLayers, includeStyles)
      ensures r.Pass? ==>
        geoHnd.logHandler.responses == old(geoHnd.logHandler.responses) + ServerLog(sync.lookup, server, names, includeLayers, includeStyles)
      ensures r.Pass? ==> geoHnd.logHandler.context == old(geoHnd.logHandler.context)
      ensures r.Fail? ==> StoppedBy(|old(sync.calls)|, r.error)
    {
      ghost var calls0, log0 := sync.calls, geoHnd.logHandler.responses;
      if includeStyles {
        ghost var done;
        r, done := CopyStyles(server, names);
        if r.Fail? {
          return;
        }
      }
      ghost var calls1, log1 := sync.calls, geoHnd.logHandler.responses;
      if includeLayers {
        ghost var done;
        r, done := CopyLayers(server, names);
        if r.Fail? {
          return;
        }
      }
      ServerCallsJoin(sync.lookup, server, names, includeLayers, includeStyles, calls0, calls1, sync.calls);
      ServerLogJoin(sync.lookup, server, names, includeLayers, includeStyles, log0, log1, geoHnd.logHandler.responses);
      return Pass;
    }

    /**
     * One turn of the server loop of `copy_dataset`, on the `i`-th server:
     * a server without layers is skipped, the others are copied. The calls
     * and the records so far are those of the first `i` servers.
     */
    method VisitServer(keys: seq<string>, entries: map<string, seq<GsLayer>>, i: nat,
                       ghost calls0: seq<SyncCall>, ghost log0: seq<Operations.Record>)
      returns (r: Outcome<Error>)
      requires i < |keys| && keys[i] in entries
      requires sync.calls == calls0 + DatasetCalls(sync.lookup, keys[..i], entries, includeLayers, includeStyles)
      requires geoHnd.logHandler.responses == log0 + DatasetLog(sync.lookup, keys[..i], entries, includeLayers, includeStyles)
      modifies sync`calls, geoHnd.logHandler`responses, geoHnd.logHandler`context
      ensures r.Pass? ==> sync.calls == calls0 + DatasetCalls(sync.lookup, keys[..i + 1], entries, includeLayers, includeStyles)
      ensures r.Pass? ==>
        geoHnd.logHandler.responses == log0 + DatasetLog(sync.lookup, keys[..i + 1], entries, includeLayers, includeStyles)
      ensures r.Pass? ==> geoHnd.logHandler.context == old(geoHnd.logHandler.context)
      ensures r.Fail? ==> StoppedBy(|calls0|, r.error)
    {
      ghost var callsBefore, logBefore := sync.calls, geoHnd.logHandler.responses;
      var names := entries[keys[i]];
      r := Pass;
      if names != [] {
        r := CopyServer(keys[i], names);
        if r.Fail? {
          return;
        }
      }
      DatasetCallsAdvance(sync.lookup, keys, entries, includeLayers, includeStyles, i, calls0, callsBefore, sync.calls);
      DatasetLogAdvance(sync.lookup, keys, entries, includeLayers, includeStyles, i, log0, logBefore, geoHnd.logHandler.responses);
    }

    /**
     * The server loop of `copy_dataset`, in the dict's order: a server
     * without layers is skipped; the first failure stops the loop.
     */
    method CopyServers(keys: seq<string>, entries: map<string, seq<GsLayer>>) returns (r: Outcome<Error>)
      requires forall k :: k in keys ==> k in entries
      modifies sync`calls, geoHnd.logHandler`responses, geoHnd.logHandler`context
      ensures r.Pass? ==> sync.calls == old(sync.calls) + DatasetCalls(sync.lookup, keys, entries, includeLayers, includeStyles)
      ensures r.Pass? ==>
        geoHnd.logHandler.responses == old(geoHnd.logHandler.responses) + DatasetLog(sync.lookup, keys, entries, includeLayers, includeStyles)
      ensures r.Pass? ==> geoHnd.logHandler.context == old(geoHnd.logHandler.context)
      ensures r.Fail? ==> StoppedBy(|old(sync.calls)|, r.error)
    {
      ghost var calls0, log0 := sync.calls, geoHnd.logHandler.responses;
      r := Pass;
      var i := 0;
      while i < |keys| && r.Pass?
        invariant i <= |keys|
        invariant r.Pass? ==> sync.calls == calls0 + DatasetCalls(sync.lookup, keys[..i], entries, includeLayers, includeStyles)
        invariant r.Pass? ==>
          geoHnd.logHandler.responses == log0 + DatasetLog(sync.lookup, keys[..i], entries, includeLayers, includeStyles)
        invariant r.Pass? ==> geoHnd.logHandler.context == old(geoHnd.logHandler.context)
        invariant r.Fail? ==> StoppedBy(|calls0|, r.error)
      {
        r := VisitServer(keys, entries, i, calls0, log0);
        i := i + 1;
      }
      if r.Pass? {
        assert keys[..i] == keys;
      }
    }

    /**
     * The metadata part of `copy_dataset`: log the XSL chain when
     * transformations are configured for the pair, record the destination
     * title, then upload the record in the "Meta" context and log the
     * answer. The configured transformations, what the chain reports and
     * what the upload answers are parameters.
     */
    method UploadMetadata(xsl: seq<Transformation>, applyXslt: seq<string> -> (Json, Json), dstTitle: Json, upload: UploadResult)
      returns (r: Result<string, Error>)
      requires geoHnd.logHandler.Valid()
      modifies geoHnd.logHandler`responses, geoHnd.logHandler`properties, geoHnd.logHandler`context
      ensures geoHnd.logHandler.Valid()
      ensures geoHnd.logHandler.properties == old(geoHnd.logHandler.properties)["dst_title" := dstTitle]
      ensures r.Success? <==> geoHnd.logHandler.valid && geoHnd.config.GetAccessInfo(false, true, dstName).Success?
      ensures r.Success? ==> r.value == upload.msg
      ensures r.Success? ==>
        geoHnd.logHandler.responses == old(geoHnd.logHandler.responses) + MetaLog(true, xsl, applyXslt, upload, old(geoHnd.logHandler.context))
      ensures r.Success? ==> geoHnd.logHandler.context == old(geoHnd.logHandler.context)
      ensures r.Failure? ==>
        geoHnd.logHandler.responses == old(geoHnd.logHandler.responses) + if xsl != [] then [XslRecord(xsl, applyXslt(XslPaths(xsl)), old(geoHnd.logHandler.context))] else []
      ensures r.Failure? ==> geoHnd.logHandler.context == Operations.Meta
    {
      var log := geoHnd.logHandler;
      if xsl != [] {
        var info := applyXslt(XslPaths(xsl));
        log.LogInfo(Operations.InfoRecord("Apply XSL transformations in zip archive",
          [("transformations", TransformationsJson(xsl)), ("before", info.0), ("after", info.1)], None));
      }
      log.SetProperty("dst_title", dstTitle);
      var saved := log.EnterContext(Operations.Meta);
      var gnDst := geoHnd.GetGnService(dstName, false);
      if gnDst.Failure? {
        return Failure(gnDst.error);
      }
      log.LogInfo(Operations.SuccessRecord(upload.msg, [("info", upload.detail)], None));
      log.ExitContext(saved);
      return Success(upload.msg);
    }

    /**
     * The record part of `copy_dataset`: with a UUID, the record is read
     * from the source and its title recorded; without one, the record of
     * an earlier preview is used, and there being none, reading the unset
     * attribute fails.
     */
    method LoadRecord(pkg: Metadata.Package, srcTitle: Json) returns (r: Result<Metadata.Meta, Error>)
      requires geoHnd.logHandler.Valid()
      modifies this`meta, geoHnd.logHandler`properties
      ensures geoHnd.logHandler.Valid()
      ensures uuid == "" ==> meta == old(meta) && geoHnd.logHandler.properties == old(geoHnd.logHandler.properties)
      ensures uuid == "" && old(meta).None? ==> r == Failure(Builtin("AttributeError"))
      ensures uuid == "" && old(meta).Some? ==> r == Success(old(meta).value)
      ensures uuid != "" && r.Success? ==>
        && Metadata.MakeMeta(pkg) == Success(r.value) && meta == Some(r.value)
        && geoHnd.logHandler.properties == old(geoHnd.logHandler.properties)["src_title" := srcTitle]
      ensures uuid != "" && r.Failure? ==> geoHnd.logHandler.properties == old(geoHnd.logHandler.properties)
    {
      if uuid != "" {
        r := ReadRecord(pkg);
        if r.Failure? {
          return;
        }
        geoHnd.logHandler.SetProperty("src_title", srcTitle);
        return;
      }
      if meta.None? {
        return Failure(Builtin("AttributeError"));
      }
      return Success(meta.value);
    }

    /**
     * The copy part of `copy_dataset`, once the record is there: when layers
     * or styles are included, the copy of each source server's styles and
     * layers, then, when metadata is included, the upload of the record,
     * whose answer is returned; otherwise "copy_successful".
     */
    method CopyResources(serverLayers: Dict<string, seq<GsLayer>>, xsl: seq<Transformation>,
                         applyXslt: seq<string> -> (Json, Json), dstTitle: Json, upload: UploadResult)
      returns (r: Result<string, Error>)
      requires geoHnd.logHandler.Valid()
      modifies sync`calls, geoHnd.logHandler`responses, geoHnd.logHandler`properties, geoHnd.logHandler`context
      ensures r.Success? ==>
        sync.calls == old(sync.calls)
          + if includeLayers || includeStyles
            then DatasetCalls(sync.lookup, serverLayers.keys, serverLayers.entries, includeLayers, includeStyles)
            else []
      ensures r.Success? ==>
        geoHnd.logHandler.responses == old(geoHnd.logHandler.responses)
          + (if includeLayers || includeStyles
             then DatasetLog(sync.lookup, serverLayers.keys, serverLayers.entries, includeLayers, includeStyles)
             else [])
          + MetaLog(includeMeta, xsl, applyXslt, upload, old(geoHnd.logHandler.context))
      ensures r.Success? ==> geoHnd.logHandler.context == old(geoHnd.logHandler.context)
      ensures r.Success? ==>
        geoHnd.logHandler.properties
          == if includeMeta then old(geoHnd.logHandler.properties)["dst_title" := dstTitle]
             else old(geoHnd.logHandler.properties)
      ensures r.Success? ==> r.value == if includeMeta then upload.msg else "copy_successful"
    {
      var copied := CopyServerResources(serverLayers);
      if copied.Fail? {
        return Failure(copied.error);
      }
      if includeMeta {
        r := UploadMetadata(xsl, applyXslt, dstTitle, upload);
      } else {
        r := Success("copy_successful");
      }
    }

    /** The server loop of `copy_dataset`, run only when layers or styles are included. */
    method CopyServerResources(serverLayers: Dict<string, seq<GsLayer>>) returns (r: Outcome<Error>)
      modifies sync`calls, geoHnd.logHandler`responses, geoHnd.logHandler`context
      ensures r.Pass? ==>
        sync.calls == old(sync.calls)
          + if includeLayers || includeStyles
            then DatasetCalls(sync.lookup, serverLayers.keys, serverLayers.entries, includeLayers, includeStyles)
            else []
      ensures r.Pass? ==>
        geoHnd.logHandler.responses == old(geoHnd.logHandler.responses)
          + if includeLayers || includeStyles
            then DatasetLog(sync.lookup, serverLayers.keys, serverLayers.entries, includeLayers, includeStyles)
            else []
      ensures r.Pass? ==> geoHnd.logHandler.context == old(geoHnd.logHandler.context)
      ensures r.Fail? ==> StoppedBy(|old(sync.calls)|, r.error)
    {
      r := Pass;
      if includeLayers || includeStyles {
        r := CopyServers(serverLayers.keys, serverLayers.entries);
      }
    }

    /**
     * `copy_dataset(include_meta, include_layers, include_styles)`: the
     * record, then the copy of the servers' resources and of the record.
     * The layers the record references, the configured transformations,
     * the titles, what the XSL chain reports and what the upload answers
     * are parameters.
     */
    method CopyDataset(includeMeta: bool, includeLayers: bool, includeStyles: bool, pkg: Metadata.Package,
                       srcTitle: Json, dstTitle: Json, serverLayers: Dict<string, seq<GsLayer>>,
                       xsl: seq<Transformation>, applyXslt: seq<string> -> (Json, Json), upload: UploadResult)
      returns (r: Result<string, Error>)
      requires geoHnd.logHandler.Valid()
      modifies this`includeMeta, this`includeLayers, this`includeStyles, this`meta, sync`calls
      modifies geoHnd.logHandler`responses, geoHnd.logHandler`properties, geoHnd.logHandler`context
      ensures this.includeMeta == includeMeta && this.includeLayers == includeLayers && this.includeStyles == includeStyles
      ensures uuid == "" && old(meta).None? ==> r == Failure(Builtin("AttributeError")) && sync.calls == old(sync.calls)
      ensures r.Success? ==> meta.Some? && (uuid != "" ==> Metadata.MakeMeta(pkg) == Success(meta.value))
      ensures r.Success? ==>
        sync.calls == old(sync.calls)
          + if includeLayers || includeStyles
            then DatasetCalls(sync.lookup, serverLayers.keys, serverLayers.entries, includeLayers, includeStyles)
            else []
      ensures r.Success? ==>
        geoHnd.logHandler.responses == old(geoHnd.logHandler.responses)
          + (if includeLayers || includeStyles
             then DatasetLog(sync.lookup, serverLayers.keys, serverLayers.entries, includeLayers, includeStyles)
             else [])
          + MetaLog(includeMeta, xsl, applyXslt, upload, old(geoHnd.logHandler.context))
      ensures r.Success? ==> geoHnd.logHandler.context == old(geoHnd.logHandler.context)
      ensures r.Success? ==>
        var read := if uuid != "" then old(geoHnd.logHandler.properties)["src_title" := srcTitle]
                    else old(geoHnd.logHandler.properties);
        geoHnd.logHandler.properties == if includeMeta then read["dst_title" := dstTitle] else read
      ensures r.Success? ==> r.value == if includeMeta then upload.msg else "copy_successful"
    {
      this.includeMeta := includeMeta;
      this.includeLayers := includeLayers;
      this.includeStyles := includeStyles;
      var record := LoadRecord(pkg, srcTitle);
      if record.Failure? {
        return Failure(record.error);
      }
      r := CopyResources(serverLayers, xsl, applyXslt, dstTitle, upload);
    }
  }
}
