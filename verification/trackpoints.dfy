/**
 * `CollectTrackpoints`: the exporters and options a trackpoint instance
 * carries, the layers it is split by, and the per-layer instances that
 * replace it in the publish context. `get_product_name` belongs to the
 * pipeline core and is a parameter.
 */
module CollectTrackpoints {
  import opened Wrappers
  import opened Errors
  import opened Text
  import opened Json
  import opened MochaLib

  /** A Mocha layer: its name and the frames `in_point()` and `out_point()` give. */
  datatype Layer = Layer(name: string, inPoint: int, outPoint: int)

  /** A value of `instance.data`: a JSON value, a layer, or the chosen exporters. */
  datatype Value =
    | JsonValue(json: Json)
    | LayerValue(layer: Layer)
    | ExportersValue(exporters: seq<ExporterInfo>)

  /** `creator_attributes` as the trackpoint creator defines them. */
  datatype CreatorAttributes = CreatorAttributes(
    exporter: seq<string>,
    invert: Json,
    frameTime: Json,
    removeLensDistortion: Json,
    layerMode: string,
    layers: seq<int>)

  /** A publish instance: its name, its creator attributes and the rest of its data. */
  datatype Instance = Instance(name: string, attributes: CreatorAttributes, data: map<string, Value>)

  /** `s[i]` on a Python list: a negative index counts from the end. */
  function PyIndex<T>(s: seq<T>, i: int): (r: Result<T, Error>)
    ensures r.Ok? <==> -|s| <= i < |s|
    ensures r.Err? ==> r.error == IndexError
  {
    if 0 <= i < |s| then Ok(s[i])
    else if -|s| <= i < 0 then Ok(s[i + |s|])
    else Err(IndexError)
  }

  /** Both indices of an element, the one from the front and the one from the back, reach it. */
  lemma PyIndexBothWays<T>(s: seq<T>, k: nat)
    requires k < |s|
    ensures PyIndex(s, k) == Ok(s[k])
    ensures PyIndex(s, k - |s|) == Ok(s[k])
  {
  }

  /** The layers at the listed indices, in listed order; the first bad index raises. */
  function PickLayers(layers: seq<Layer>, indices: seq<int>): (r: Result<seq<Layer>, Error>)
    ensures r.Ok? <==> forall k | 0 <= k < |indices| :: -|layers| <= indices[k] < |layers|
    ensures r.Ok? ==> |r.value| == |indices|
                      && forall k | 0 <= k < |indices| :: PyIndex(layers, indices[k]) == Ok(r.value[k])
    ensures r.Err? ==> r.error == IndexError
  {
    if |indices| == 0 then Ok([])
    else
      var init := indices[..|indices| - 1];
      assert forall k | 0 <= k < |init| :: init[k] == indices[k];
      match PickLayers(layers, init)
      case Err(e) => Err(e)
      case Ok(picked) =>
        match PyIndex(layers, indices[|indices| - 1])
        case Err(e) => Err(e)
        case Ok(l) => Ok(picked + [l])
  }

  /** The layer mode: the listed layers, all of them, or a `KnownPublishError`. */
  function SelectLayers(mode: string, indices: seq<int>, layers: seq<Layer>): (r: Result<seq<Layer>, Error>)
    ensures mode == "all" ==> r == Ok(layers)
    ensures mode == "selected" ==> r == PickLayers(layers, indices)
    ensures mode != "all" && mode != "selected" ==> r == Err(KnownPublishError("Invalid layer mode: " + mode))
  {
    if mode == "selected" then PickLayers(layers, indices)
    else if mode == "all" then Ok(layers)
    else Err(KnownPublishError("Invalid layer mode: " + mode))
  }

  /** Every layer chosen is a layer of the project. */
  lemma SelectedLayersBelong(mode: string, indices: seq<int>, layers: seq<Layer>)
    requires SelectLayers(mode, indices, layers).Ok?
    ensures forall l | l in SelectLayers(mode, indices, layers).value :: l in layers
  {
    if mode == "selected" {
      var picked := PickLayers(layers, indices).value;
      forall l | l in picked ensures l in layers {
        var k :| 0 <= k < |picked| && picked[k] == l;
        assert PyIndex(layers, indices[k]) == Ok(l);
      }
    }
  }

  /** The registered exporters whose id was chosen, in registry order. */
  function SelectExporters(registered: seq<ExporterInfo>, ids: seq<string>): (r: seq<ExporterInfo>)
    ensures |r| <= |registered|
    ensures forall e :: e in r <==> e in registered && e.id in ids
  {
    if |registered| == 0 then []
    else
      var init := registered[..|registered| - 1];
      var last := registered[|registered| - 1];
      assert registered == init + [last];
      SelectExporters(init, ids) + (if last.id in ids then [last] else [])
  }

  /** Filtering a concatenation filters each part: the registry order is kept. */
  lemma {:induction false} SelectExportersAppend(a: seq<ExporterInfo>, b: seq<ExporterInfo>, ids: seq<string>)
    ensures SelectExporters(a + b, ids) == SelectExporters(a, ids) + SelectExporters(b, ids)
    decreases |b|
  {
    if |b| > 0 {
      var binit := b[..|b| - 1];
      SelectExportersAppend(a, binit, ids);
      assert (a + b)[..|a + b| - 1] == a + binit;
      assert b[..|b| - 1] == binit;
    } else {
      assert a + b == a;
    }
  }

  /** `exporter_options`: exactly the three exporter switches, copied from the creator attributes. */
  function ExporterOptions(a: CreatorAttributes): (r: map<string, Json>)
    ensures r.Keys == {"invert", "frame_time", "remove_lens_distortion"}
    ensures r["invert"] == a.invert && r["frame_time"] == a.frameTime
            && r["remove_lens_distortion"] == a.removeLensDistortion
  {
    map["invert" := a.invert, "frame_time" := a.frameTime, "remove_lens_distortion" := a.removeLensDistortion]
  }

  /**
   * The variant of a per-layer product: the layer name with spaces made
   * underscores, then the instance variant capitalised.
   */
  function ComposeVariant(layerName: string, variant: string): (r: string)
    ensures |r| == |layerName| + |variant|
    ensures ' ' !in r[..|layerName|]
    ensures forall i | 0 <= i < |layerName| :: r[i] == (if layerName[i] == ' ' then '_' else layerName[i])
    ensures r[|layerName|..] == Capitalize(variant)
  {
    ReplaceCharRemoves(layerName, ' ', '_');
    var sanitized := ReplaceChar(layerName, ' ', '_');
    assert (sanitized + Capitalize(variant))[..|layerName|] == sanitized;
    sanitized + Capitalize(variant)
  }

  /** A layer name without spaces is kept as it is, and a variant composed twice changes no more. */
  lemma ComposeVariantKeepsPlainName(layerName: string, variant: string)
    requires ' ' !in layerName
    ensures ComposeVariant(layerName, variant)[..|layerName|] == layerName
    ensures ComposeVariant(layerName, Capitalize(variant)) == ComposeVariant(layerName, variant)
  {
    CapitalizeIdempotent(variant);
    var r := ComposeVariant(layerName, variant);
    forall i | 0 <= i < |layerName| ensures r[i] == layerName[i] {
      assert layerName[i] != ' ';
      assert r[i] == ReplaceChar(layerName, ' ', '_')[i];
    }
  }

  /** The keys a per-layer instance sets anew; the instance name is among them. */
  const LayerKeys: set<string> := {"label", "name", "productName", "layer", "frameStart", "frameEnd"}

  /** The keys `process` sets on the instance before it copies it. */
  const ExporterKeys: set<string> := {"use_exporters", "exporter_options"}

  /**
   * What the instance made for layer `l` holds: its name and label from the
   * layer, the layer and its frames, the product name, and a copy of every
   * other key of `data`.
   */
  predicate MadeFor(n: Instance, inst: Instance, data: map<string, Value>, productName: string, l: Layer) {
    && n.name == inst.name + "_" + l.name
    && n.data.Keys == data.Keys + LayerKeys
    && n.data["label"] == JsonValue(JStr(inst.name + " (" + l.name + ")"))
    && n.data["name"] == JsonValue(JStr(n.name))
    && n.data["productName"] == JsonValue(JStr(productName))
    && n.data["layer"] == LayerValue(l)
    && n.data["frameStart"] == JsonValue(JNum(l.inPoint))
    && n.data["frameEnd"] == JsonValue(JNum(l.outPoint))
    && forall key | key in data && key !in LayerKeys :: n.data[key] == data[key]
  }

  /** The instance made for one layer: a copy of the data, then the layer's own keys. */
  function ForLayer(inst: Instance, data: map<string, Value>, productName: string, l: Layer): (n: Instance)
    ensures MadeFor(n, inst, data, productName, l)
  {
    var name := inst.name + "_" + l.name;
    Instance(name, inst.attributes, data[
      "label" := JsonValue(JStr(inst.name + " (" + l.name + ")"))][
      "name" := JsonValue(JStr(name))][
      "productName" := JsonValue(JStr(productName))][
      "layer" := LayerValue(l)][
      "frameStart" := JsonValue(JNum(l.inPoint))][
      "frameEnd" := JsonValue(JNum(l.outPoint))])
  }

  /**
   * The data of the instance once its exporters and options are set: the
   * filtered exporters and the option map, every other key unchanged.
   */
  function WithExporters(inst: Instance, registered: seq<ExporterInfo>): (data: map<string, Value>)
    ensures data.Keys == inst.data.Keys + ExporterKeys
    ensures data["use_exporters"] == ExportersValue(SelectExporters(registered, inst.attributes.exporter))
    ensures data["exporter_options"] == JsonValue(JObj(ExporterOptions(inst.attributes)))
    ensures forall key | key in inst.data && key !in ExporterKeys :: data[key] == inst.data[key]
  {
    inst.data[
      "use_exporters" := ExportersValue(SelectExporters(registered, inst.attributes.exporter))][
      "exporter_options" := JsonValue(JObj(ExporterOptions(inst.attributes)))]
  }

  /** `instance.data["variant"]` usable as text: present and a string. */
  predicate HasTextVariant(data: map<string, Value>) {
    "variant" in data && data["variant"].JsonValue? && data["variant"].json.JStr?
  }

  /**
   * `process` on the instance at `at` of the context: the context without it,
   * followed by one new instance per chosen layer. `getProductName` maps a
   * product type and a variant to the product name.
   */
  function Process(ctx: seq<Instance>, at: nat, projectLayers: seq<Layer>, registered: seq<ExporterInfo>,
                   getProductName: (Value, string) -> string): (r: Result<seq<Instance>, Error>)
    requires at < |ctx|
    ensures var a := ctx[at].attributes;
            var chosen := SelectLayers(a.layerMode, a.layers, projectLayers);
            && (chosen.Err? ==> r == Err(chosen.error))
            && (r.Ok? <==> chosen.Ok? && (|chosen.value| == 0
                                          || ("productType" in ctx[at].data && HasTextVariant(ctx[at].data))))
    ensures r.Ok? ==> |r.value| >= |ctx| - 1 && r.value[..|ctx| - 1] == ctx[..at] + ctx[at + 1..]
    ensures r.Ok? ==>
              var inst := ctx[at];
              var chosen := SelectLayers(inst.attributes.layerMode, inst.attributes.layers, projectLayers).value;
              |r.value| == |ctx| - 1 + |chosen|
              && forall k | 0 <= k < |chosen| ::
                   MadeFor(r.value[|ctx| - 1 + k], inst, WithExporters(inst, registered),
                           getProductName(inst.data["productType"], ComposeVariant(chosen[k].name, inst.data["variant"].json.s)),
                           chosen[k])
  {
    var inst := ctx[at];
    var data := WithExporters(inst, registered);
    var rest := ctx[..at] + ctx[at + 1..];
    match SelectLayers(inst.attributes.layerMode, inst.attributes.layers, projectLayers)
    case Err(e) => Err(e)
    case Ok(chosen) =>
      if |chosen| == 0 then Ok(rest)
      else if "productType" !in inst.data then Err(KeyError("productType"))
      else if "variant" !in inst.data then Err(KeyError("variant"))
      else if !HasTextVariant(inst.data) then Err(AttributeError)
      else
        var variant := inst.data["variant"].json.s;
        var made := seq(|chosen|, k requires 0 <= k < |chosen| =>
          ForLayer(inst, data, getProductName(inst.data["productType"], ComposeVariant(chosen[k].name, variant)), chosen[k]));
        assert (rest + made)[..|ctx| - 1] == rest;
        Ok(rest + made)
  }

  /** With no layer chosen the instance is only removed, whatever else its data lacks. */
  lemma NoLayersOnlyRemoves(ctx: seq<Instance>, at: nat, projectLayers: seq<Layer>, registered: seq<ExporterInfo>,
                            getProductName: (Value, string) -> string)
    requires at < |ctx|
    requires SelectLayers(ctx[at].attributes.layerMode, ctx[at].attributes.layers, projectLayers) == Ok([])
    ensures Process(ctx, at, projectLayers, registered, getProductName) == Ok(ctx[..at] + ctx[at + 1..])
  {
    var r := Process(ctx, at, projectLayers, registered, getProductName);
    assert |r.value| == |ctx| - 1;
    assert r.value == r.value[..|ctx| - 1];
  }

  /** With a layer to make and no `productType`, the new instances fail with a `KeyError`. */
  lemma MissingProductTypeRaises(ctx: seq<Instance>, at: nat, projectLayers: seq<Layer>, registered: seq<ExporterInfo>,
                                 getProductName: (Value, string) -> string)
    requires at < |ctx|
    requires "productType" !in ctx[at].data
    requires SelectLayers(ctx[at].attributes.layerMode, ctx[at].attributes.layers, projectLayers).Ok?
    requires |SelectLayers(ctx[at].attributes.layerMode, ctx[at].attributes.layers, projectLayers).value| > 0
    ensures Process(ctx, at, projectLayers, registered, getProductName) == Err(KeyError("productType"))
  {
  }
}
