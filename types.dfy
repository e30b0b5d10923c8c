/**
 * The two named tuples of the code base: the layer key `GsLayer`
 * (workspace name, layer name) and the `Credentials` pair (login, password).
 * Both are values: equality and hashing are structural, as for a datatype.
 */
module Types {
  import opened Wrappers
  import opened Strings

  /** A layer key; either field may be `None`. */
  datatype GsLayer = GsLayer(workspaceName: Option<string>, layerName: Option<string>)

  /** A login/password pair; either part may be missing. */
  datatype Credentials = Credentials(login: Option<string>, password: Option<string>)

  /** The fields that are not `None`, in order. */
  function Present(fields: seq<Option<string>>): (r: seq<string>)
    ensures |r| <= |fields|
    ensures forall x :: x in r <==> Some(x) in fields
    ensures (forall i :: 0 <= i < |fields| ==> fields[i].Some?) ==> |r| == |fields|
    decreases |fields|
  {
    if fields == [] then []
    else if fields[0].Some? then [fields[0].value] + Present(fields[1..])
    else Present(fields[1..])
  }

  /**
   * Keeping the present fields of a concatenation keeps those of each part,
   * in order; with `Present([Some(x)]) == [x]` and `Present([None]) == []`
   * this says the result is exactly the `Some` values, in their order.
   */
  lemma {:induction false} PresentAppend(a: seq<Option<string>>, b: seq<Option<string>>)
    ensures Present(a + b) == Present(a) + Present(b)
    decreases |a|
  {
    if a != [] {
      assert (a + b)[1..] == a[1..] + b;
      PresentAppend(a[1..], b);
    } else {
      assert a + b == b;
    }
  }

  /** The present fields of one field. */
  lemma PresentSingle(field: Option<string>)
    ensures field.Some? ==> Present([field]) == [field.value]
    ensures field.None? ==> Present([field]) == []
  {
    assert [field][1..] == [];
  }

  /** `str(layer)`: the non-`None` fields joined with ":". */
  function LayerToString(layer: GsLayer): string {
    Join(Present([layer.workspaceName, layer.layerName]), ":")
  }

  /** The four shapes of `str(GsLayer(...))`: a `None` field is dropped, an empty one is kept. */
  lemma LayerToStringShapes(layer: GsLayer)
    ensures layer.workspaceName.Some? && layer.layerName.Some? ==>
      LayerToString(layer) == layer.workspaceName.value + ":" + layer.layerName.value
    ensures layer.workspaceName.None? && layer.layerName.Some? ==>
      LayerToString(layer) == layer.layerName.value
    ensures layer.workspaceName.Some? && layer.layerName.None? ==>
      LayerToString(layer) == layer.workspaceName.value
    ensures layer.workspaceName.None? && layer.layerName.None? ==> LayerToString(layer) == ""
  {
    var fields := [layer.workspaceName, layer.layerName];
    assert fields[1..] == [layer.layerName];
    assert fields[1..][1..] == [];
    var tail := Present([layer.layerName]);
    assert layer.layerName.Some? ==> tail == [layer.layerName.value];
    assert layer.layerName.None? ==> tail == [];
    if layer.workspaceName.Some? {
      var parts := [layer.workspaceName.value] + tail;
      assert Present(fields) == parts;
      if layer.layerName.Some? {
        assert parts[1..] == [layer.layerName.value];
        assert Join(parts[1..], ":") == layer.layerName.value;
        assert Join(parts, ":") == parts[0] + ":" + Join(parts[1..], ":");
      }
    } else {
      assert Present(fields) == tail;
    }
  }

  /** The examples of the layer key's string form. */
  lemma LayerToStringExamples()
    ensures LayerToString(GsLayer(Some("ws"), Some("velo"))) == "ws:velo"
    ensures LayerToString(GsLayer(None, Some("velo"))) == "velo"
    ensures LayerToString(GsLayer(Some(""), Some("velo"))) == ":velo"
    ensures LayerToString(GsLayer(None, None)) == ""
  {
    LayerToStringShapes(GsLayer(Some("ws"), Some("velo")));
    LayerToStringShapes(GsLayer(None, Some("velo")));
    LayerToStringShapes(GsLayer(Some(""), Some("velo")));
    LayerToStringShapes(GsLayer(None, None));
  }

  /**
   * The string form of a fully qualified key can be split back into its two
   * fields when neither contains ":" — so distinct such keys print differently.
   */
  lemma LayerToStringSplits(layer: GsLayer)
    requires layer.workspaceName.Some? && layer.layerName.Some?
    requires ':' !in layer.workspaceName.value && ':' !in layer.layerName.value
    ensures Split(LayerToString(layer), ':') == [layer.workspaceName.value, layer.layerName.value]
  {
    var w, l := layer.workspaceName.value, layer.layerName.value;
    LayerToStringShapes(layer);
    assert [w, l][1..] == [l];
    assert Join([w, l], [':']) == w + ":" + l;
    SplitJoin([w, l], ':');
  }

  lemma LayerToStringInjective(a: GsLayer, b: GsLayer)
    requires a.workspaceName.Some? && a.layerName.Some? && b.workspaceName.Some? && b.layerName.Some?
    requires ':' !in a.workspaceName.value && ':' !in a.layerName.value
    requires ':' !in b.workspaceName.value && ':' !in b.layerName.value
    requires LayerToString(a) == LayerToString(b)
    ensures a == b
  {
    LayerToStringSplits(a);
    LayerToStringSplits(b);
  }
}
