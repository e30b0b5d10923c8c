/**
 * A metadata record exported from GeoNetwork (backend/maelstro/metadata/meta.py):
 * the first row of the package's `index.csv`, the record's XML document, and
 * the online-resource links of that document that point at OGC services.
 *
 * The ZIP archive, the CSV reader and the XML parser are library code: a
 * package is given here as its index rows and its already parsed documents.
 * Element names are compared as written ("prefix:local"); namespace URIs
 * are not resolved.
 */
module Metadata {
  import Sequences
  import opened Wrappers
  import opened Strings
  import opened Errors

  /** An XML element: its qualified tag, its text and its child elements. */
  datatype Node = Node(tag: string, text: Option<string>, children: seq<Node>)

  /** A ZIP export: the rows of `index.csv` and the XML documents by path. */
  datatype Package = Package(indexRows: seq<map<string, string>>, files: map<string, Node>)

  /** A parsed record: the index properties, the XML root and the schema's namespace prefix. */
  datatype Meta = Meta(properties: map<string, string>, xml: Node, prefix: Option<string>)

  /** One OGC link: `server_url`, `name`, `description` and `protocol`. */
  datatype LinkedLayer = LinkedLayer(
    serverUrl: Option<string>,
    name: Option<string>,
    description: Option<string>,
    protocol: Option<string>)

  /** `NS_PREFIXES.get(schema)`. */
  function SchemaPrefix(schema: string): (r: Option<string>)
    ensures r.Some? <==> schema == "iso19139" || schema == "iso19115-3.2018"
    ensures schema == "iso19139" ==> r == Some("gmd")
    ensures schema == "iso19115-3.2018" ==> r == Some("cit")
  {
    if schema == "iso19139" then Some("gmd")
    else if schema == "iso19115-3.2018" then Some("cit")
    else None
  }

  /** The path of the record document inside the archive. */
  function DocPath(uuid: string): string {
    uuid + "/metadata/metadata.xml"
  }

  /**
   * `Meta(zipfile)`: an empty index stops the row iterator, a row without
   * `uuid` or a missing document is a `KeyError`; the schema defaults to
   * "iso19139", and an unknown schema has no prefix.
   */
  function MakeMeta(pkg: Package): (r: Result<Meta, Error>)
    ensures pkg.indexRows == [] ==> r == Failure(Builtin("StopIteration"))
    ensures pkg.indexRows != [] ==>
      var row := pkg.indexRows[0];
      && (r.Success? <==> "uuid" in row && DocPath(row["uuid"]) in pkg.files)
      && (r.Failure? ==> r.error == Builtin("KeyError"))
      && (r.Success? ==>
            && r.value.properties == row
            && r.value.xml == pkg.files[DocPath(row["uuid"])]
            && r.value.prefix == SchemaPrefix(if "schema" in row then row["schema"] else "iso19139"))
  {
    if pkg.indexRows == [] then Failure(Builtin("StopIteration"))
    else
      var row := pkg.indexRows[0];
      if "uuid" !in row || DocPath(row["uuid"]) !in pkg.files then Failure(Builtin("KeyError"))
      else
        var schema := if "schema" in row then row["schema"] else "iso19139";
        Success(Meta(row, pkg.files[DocPath(row["uuid"])], SchemaPrefix(schema)))
  }

  /** The elements below `n`, in document order. */
  function Descendants(n: Node): seq<Node>
    decreases n, 1
  {
    DescendantsOf(n.children)
  }

  /** The elements `ns` and everything below them, in document order. */
  function DescendantsOf(ns: seq<Node>): seq<Node>
    decreases ns, 0
  {
    if ns == [] then [] else [ns[0]] + Descendants(ns[0]) + DescendantsOf(ns[1..])
  }

  /** The elements of `ns` with the given tag, in order. */
  function WithTag(ns: seq<Node>, tag: string): (r: seq<Node>)
    ensures |r| <= |ns|
    ensures forall i :: 0 <= i < |r| ==> r[i].tag == tag && r[i] in ns
    ensures forall n :: n in ns && n.tag == tag ==> n in r
  {
    if ns == [] then []
    else if ns[0].tag == tag then [ns[0]] + WithTag(ns[1..], tag)
    else WithTag(ns[1..], tag)
  }

  /** `node.find(tag)`: the first child with that tag. */
  function FindChild(n: Node, tag: string): (r: Option<Node>)
    ensures r.Some? ==> r.value in n.children && r.value.tag == tag
    ensures r.None? ==> forall c :: c in n.children ==> c.tag != tag
  {
    FirstWithTag(n.children, tag)
  }

  function FirstWithTag(ns: seq<Node>, tag: string): (r: Option<Node>)
    ensures r.Some? ==> r.value in ns && r.value.tag == tag
    ensures r.None? ==> forall c :: c in ns ==> c.tag != tag
  {
    if ns == [] then None
    else if ns[0].tag == tag then Some(ns[0])
    else
      var r := FirstWithTag(ns[1..], tag);
      assert forall c :: c in ns[1..] ==> c in ns;
      r
  }

  /** `find` gives the first element with the tag: the one no earlier element matches. */
  lemma {:induction false} FirstWithTagIsFirst(ns: seq<Node>, tag: string, i: nat)
    requires i < |ns| && ns[i].tag == tag
    requires forall j :: 0 <= j < i ==> ns[j].tag != tag
    ensures FirstWithTag(ns, tag) == Some(ns[i])
    decreases i
  {
    if i > 0 {
      assert ns[1..][i - 1] == ns[i];
      FirstWithTagIsFirst(ns[1..], tag, i - 1);
    }
  }

  /** `str(text_node.text)`: a missing text prints as "None". */
  function TextOf(n: Node): string {
    if n.text.Some? then n.text.value else "None"
  }

  /**
   * `property_from_link(link_node, tag)`: the text of the first child of the
   * first `tag` child, or `None` when either is missing.
   */
  function PropertyFromLink(link: Node, tag: string): (r: Option<string>)
    ensures FindChild(link, tag).None? ==> r.None?
    ensures FindChild(link, tag).Some? && FindChild(link, tag).value.children == [] ==> r.None?
    ensures FindChild(link, tag).Some? && FindChild(link, tag).value.children != [] ==>
      r == Some(TextOf(FindChild(link, tag).value.children[0]))
  {
    match FindChild(link, tag)
    case None => None
    case Some(p) => if p.children == [] then None else Some(TextOf(p.children[0]))
  }

  /** A protocol names an OGC map, feature or coverage service. */
  predicate IsOgcProtocol(protocol: string) {
    Lower(Take(protocol, 7)) in ["ogc:wms", "ogc:wfs", "ogc:wcs"]
  }

  /** `is_ogc_layer(link_node)`. */
  predicate IsOgcLayer(link: Node, prefix: string) {
    var protocol := PropertyFromLink(link, prefix + ":protocol");
    protocol.Some? && IsOgcProtocol(protocol.value)
  }

  /** `layerproperties_from_link(link_node)`. */
  function LayerProperties(link: Node, prefix: string): (r: LinkedLayer)
    ensures r.serverUrl == PropertyFromLink(link, prefix + ":linkage")
    ensures r.name == PropertyFromLink(link, prefix + ":name")
    ensures r.description == PropertyFromLink(link, prefix + ":description")
    ensures r.protocol == PropertyFromLink(link, prefix + ":protocol")
  {
    LinkedLayer(
      PropertyFromLink(link, prefix + ":linkage"),
      PropertyFromLink(link, prefix + ":name"),
      PropertyFromLink(link, prefix + ":description"),
      PropertyFromLink(link, prefix + ":protocol"))
  }

  /** The comprehension of `get_ogc_geoserver_layers` over the link nodes, in order. */
  function OgcLayers(links: seq<Node>, prefix: string): (r: seq<LinkedLayer>)
    ensures |r| <= |links|
  {
    if links == [] then []
    else
      var rest := OgcLayers(links[1..], prefix);
      if IsOgcLayer(links[0], prefix) then [LayerProperties(links[0], prefix)] + rest else rest
  }

  /** Every OGC link of the list gives an entry. */
  lemma {:induction false} OgcLayersComplete(links: seq<Node>, prefix: string, link: Node)
    requires link in links && IsOgcLayer(link, prefix)
    ensures LayerProperties(link, prefix) in OgcLayers(links, prefix)
    decreases |links|
  {
    var rest := OgcLayers(links[1..], prefix);
    var head := if IsOgcLayer(links[0], prefix) then [LayerProperties(links[0], prefix)] else [];
    assert OgcLayers(links, prefix) == head + rest;
    if link == links[0] {
      assert (head + rest)[0] == LayerProperties(link, prefix);
    } else {
      assert link in links[1..];
      OgcLayersComplete(links[1..], prefix, link);
      Sequences.InAppended(head, rest, LayerProperties(link, prefix));
    }
  }

  /** Every entry carries an OGC protocol. */
  lemma OgcLayersAreOgc(links: seq<Node>, prefix: string, i: nat)
    requires i < |OgcLayers(links, prefix)|
    ensures OgcLayers(links, prefix)[i].protocol.Some? && IsOgcProtocol(OgcLayers(links, prefix)[i].protocol.value)
  {
    OgcLayersFromLinks(links, prefix, i);
  }

  /** Every entry comes from an OGC link of the list: its properties, nothing invented. */
  lemma {:induction false} OgcLayersFromLinks(links: seq<Node>, prefix: string, i: nat)
    requires i < |OgcLayers(links, prefix)|
    ensures exists j ::
              0 <= j < |links| && IsOgcLayer(links[j], prefix) &&
              OgcLayers(links, prefix)[i] == LayerProperties(links[j], prefix)
    decreases |links|
  {
    var rest := OgcLayers(links[1..], prefix);
    var ogc := IsOgcLayer(links[0], prefix);
    var layers := OgcLayers(links, prefix);
    assert layers == (if ogc then [LayerProperties(links[0], prefix)] else []) + rest;
    if ogc && i == 0 {
      assert layers[0] == LayerProperties(links[0], prefix);
    } else {
      var k := if ogc then i - 1 else i;
      assert layers[i] == rest[k];
      OgcLayersFromLinks(links[1..], prefix, k);
      var j :| 0 <= j < |links[1..]| && IsOgcLayer(links[1..][j], prefix) && rest[k] == LayerProperties(links[1..][j], prefix);
      assert links[1..][j] == links[j + 1];
      assert IsOgcLayer(links[j + 1], prefix) && layers[i] == LayerProperties(links[j + 1], prefix);
    }
  }

  /** Which links are OGC links. */
  ghost function OgcMask(links: seq<Node>, prefix: string): (m: seq<bool>)
    ensures |m| == |links|
    ensures forall k :: 0 <= k < |links| ==> m[k] == IsOgcLayer(links[k], prefix)
  {
    seq(|links|, k requires 0 <= k < |links| => IsOgcLayer(links[k], prefix))
  }

  lemma OgcMaskTail(links: seq<Node>, prefix: string)
    requires links != []
    ensures OgcMask(links, prefix)[1..] == OgcMask(links[1..], prefix)
  {
  }

  /** One step of the comprehension: `d` is 1 when the head link gives the first entry, 0 otherwise. */
  lemma OgcLayersStep(links: seq<Node>, prefix: string) returns (d: nat)
    requires links != []
    ensures d == if IsOgcLayer(links[0], prefix) then 1 else 0
    ensures |OgcLayers(links, prefix)| == d + |OgcLayers(links[1..], prefix)|
    ensures d == 1 ==> OgcLayers(links, prefix)[0] == LayerProperties(links[0], prefix)
    ensures OgcLayers(links, prefix)[d..] == OgcLayers(links[1..], prefix)
  {
    d := if IsOgcLayer(links[0], prefix) then 1 else 0;
  }

  /** One entry per OGC link. */
  lemma {:induction false} OgcLayersCount(links: seq<Node>, prefix: string)
    ensures |OgcLayers(links, prefix)| == |Sequences.Positions(OgcMask(links, prefix))|
    decreases |links|
  {
    if links != [] {
      var d := OgcLayersStep(links, prefix);
      OgcLayersCount(links[1..], prefix);
      OgcMaskTail(links, prefix);
      var mask := OgcMask(links, prefix);
      assert Sequences.Positions(mask) == (if mask[0] then [0] else []) + Sequences.Shifted(Sequences.Positions(mask[1..]));
    }
  }

  /** Entry `k` is the properties of the `k`-th OGC link of the document. */
  lemma {:induction false} OgcLayersInDocumentOrder(links: seq<Node>, prefix: string, k: nat)
    requires k < |OgcLayers(links, prefix)|
    ensures var pos := Sequences.Positions(OgcMask(links, prefix));
      && k < |pos| && pos[k] < |links|
      && OgcLayers(links, prefix)[k] == LayerProperties(links[pos[k]], prefix)
    decreases |links|
  {
    OgcLayersCount(links, prefix);
    var d := OgcLayersStep(links, prefix);
    var mask := OgcMask(links, prefix);
    var e := Sequences.PositionsAt(mask, k);
    if k >= d {
      assert OgcLayers(links, prefix)[k] == OgcLayers(links, prefix)[d..][k - d];
      OgcLayersInDocumentOrder(links[1..], prefix, k - d);
      OgcMaskTail(links, prefix);
      assert links[Sequences.Positions(mask)[k]] == links[1..][Sequences.Positions(OgcMask(links[1..], prefix))[k - d]];
    }
  }

  /** A later entry comes from a later link. */
  lemma OgcLayersOrdered(links: seq<Node>, prefix: string, i: nat, j: nat)
    requires i < j < |OgcLayers(links, prefix)|
    ensures var pos := Sequences.Positions(OgcMask(links, prefix));
      && j < |pos| && pos[i] < pos[j] && pos[j] < |links|
      && OgcLayers(links, prefix)[i] == LayerProperties(links[pos[i]], prefix)
      && OgcLayers(links, prefix)[j] == LayerProperties(links[pos[j]], prefix)
  {
    OgcLayersInDocumentOrder(links, prefix, i);
    OgcLayersInDocumentOrder(links, prefix, j);
    Sequences.PositionsIncrease(OgcMask(links, prefix), i, j);
  }

  /** The comprehension over two runs of links is the comprehension over each, in order. */
  lemma {:induction false} OgcLayersAppend(a: seq<Node>, b: seq<Node>, prefix: string)
    ensures OgcLayers(a + b, prefix) == OgcLayers(a, prefix) + OgcLayers(b, prefix)
    decreases |a|
  {
    if a == [] {
      assert a + b == b;
    } else {
      assert (a + b)[1..] == a[1..] + b;
      OgcLayersAppend(a[1..], b, prefix);
    }
  }

  /**
   * `get_ogc_geoserver_layers()`: the OGC links among all online-resource
   * elements of the document. With an unknown schema the prefix is `None`
   * and the element path names an unbound prefix, which the XPath engine
   * rejects with a `SyntaxError`.
   */
  function GetOgcGeoserverLayers(meta: Meta): (r: Result<seq<LinkedLayer>, Error>)
    ensures meta.prefix.None? ==> r == Failure(Builtin("SyntaxError"))
    ensures meta.prefix.Some? ==>
      r == Success(OgcLayers(WithTag(Descendants(meta.xml), meta.prefix.value + ":CI_OnlineResource"), meta.prefix.value))
  {
    match meta.prefix
    case None => Failure(Builtin("SyntaxError"))
    case Some(p) => Success(OgcLayers(WithTag(Descendants(meta.xml), p + ":CI_OnlineResource"), p))
  }

  /**
   * Only the first seven characters count, compared case-insensitively: a
   * protocol is OGC iff it is at least seven characters long and starts with
   * one of the three service names in any letter case.
   */
  lemma IsOgcProtocolIff(protocol: string)
    ensures IsOgcProtocol(protocol) <==>
      |protocol| >= 7 && Lower(protocol[..7]) in ["ogc:wms", "ogc:wfs", "ogc:wcs"]
  {
    if |protocol| < 7 {
      var head := Lower(Take(protocol, 7));
      assert |head| < 7;
      assert head != "ogc:wms" && head != "ogc:wfs" && head != "ogc:wcs";
    } else {
      assert Take(protocol, 7) == protocol[..7];
    }
  }

  /** Letter case does not matter. */
  lemma IsOgcProtocolIgnoresCase(protocol: string)
    ensures IsOgcProtocol(Lower(protocol)) == IsOgcProtocol(protocol)
  {
    var a, b := Lower(Take(Lower(protocol), 7)), Lower(Take(protocol, 7));
    assert |a| == |b|;
    forall i | 0 <= i < |a| ensures a[i] == b[i] {
      assert Take(Lower(protocol), 7)[i] == LowerChar(protocol[i]);
    }
    assert a == b;
  }

  /** The protocols of the exported records: WMS and WFS qualify, tiles and plain links do not. */
  lemma OgcProtocolExamples()
    ensures IsOgcProtocol("OGC:WMS") && IsOgcProtocol("OGC:WFS") && IsOgcProtocol("ogc:wcs")
    ensures IsOgcProtocol("OGC:WFS-G")
    ensures !IsOgcProtocol("OGC:WMTS")
    ensures !IsOgcProtocol("WWW:LINK") && !IsOgcProtocol("OGC:WM")
  {
    assert Lower(Take("OGC:WMS", 7)) == "ogc:wms";
    assert Lower(Take("OGC:WFS", 7)) == "ogc:wfs";
    assert Lower(Take("ogc:wcs", 7)) == "ogc:wcs";
    assert Lower(Take("OGC:WFS-G", 7)) == "ogc:wfs";
    assert Lower(Take("OGC:WMTS", 7)) == "ogc:wmt";
    assert Lower(Take("WWW:LINK", 7)) == "www:lin";
    assert |Lower(Take("OGC:WM", 7))| == 6;
  }

  /** The prefixes of the two supported schemas. */
  lemma MetaPrefixes(pkg: Package)
    requires pkg.indexRows != [] && "uuid" in pkg.indexRows[0]
    requires DocPath(pkg.indexRows[0]["uuid"]) in pkg.files
    ensures "schema" !in pkg.indexRows[0] ==> MakeMeta(pkg).value.prefix == Some("gmd")
    ensures "schema" in pkg.indexRows[0] && pkg.indexRows[0]["schema"] == "iso19115-3.2018" ==>
      MakeMeta(pkg).value.prefix == Some("cit")
  {
  }
}
