/**
 * `ValidateTrackpointLayers`: a trackpoints instance needs a layer and an
 * exporter list that is not empty. The descriptions attached to the errors
 * are display text and are not modelled.
 */
module ValidateTrackpointLayers {
  import opened Wrappers
  import opened Errors
  import opened Json

  /**
   * The error for a falsy layer. The message embeds `str()` of the layer
   * value and leaves the parenthesis it opens unclosed.
   */
  function MissingLayerMessage(layer: Json): string
    requires !Truthy(layer)
  {
    FalsyHasStr(layer);
    "Specified layer index (" + Str(layer).value + " does not exist in the project"
  }

  /** The error for an empty exporter list, whose text speaks of several exporters. */
  const EmptyExportersMessage: string :=
    "Multiple exporters are not supported for trackpoints. Please use only one exporter"

  /**
   * `process`: a falsy layer fails, and an absent one raises `KeyError`
   * while the message is built; then `len` of the exporters must not be 0,
   * an absent key raising `KeyError` and an unsized value `TypeError`.
   */
  function Process(data: map<string, Json>): (r: Result<(), Error>)
    ensures r.Ok? <==> "layer" in data && Truthy(data["layer"])
                       && "use_exporters" in data && Len(data["use_exporters"]).Some?
                       && Len(data["use_exporters"]).value > 0
    ensures "layer" !in data ==> r == Err(KeyError("layer"))
    ensures "layer" in data && !Truthy(data["layer"]) ==>
              r == Err(PublishValidationError(MissingLayerMessage(data["layer"])))
    ensures "layer" in data && Truthy(data["layer"]) ==>
              && ("use_exporters" !in data ==> r == Err(KeyError("use_exporters")))
              && ("use_exporters" in data && Len(data["use_exporters"]).None? ==> r == Err(TypeError))
              && ("use_exporters" in data && Len(data["use_exporters"]) == Some(0) ==>
                    r == Err(PublishValidationError(EmptyExportersMessage)))
  {
    if "layer" !in data then Err(KeyError("layer"))
    else if !Truthy(data["layer"]) then Err(PublishValidationError(MissingLayerMessage(data["layer"])))
    else if "use_exporters" !in data then Err(KeyError("use_exporters"))
    else
      match Len(data["use_exporters"])
      case None => Err(TypeError)
      case Some(n) => if n == 0 then Err(PublishValidationError(EmptyExportersMessage)) else Ok(())
  }

  /** Two or more exporters pass, whatever the message for the empty list says. */
  lemma SeveralExportersPass(data: map<string, Json>, exporters: seq<Json>)
    requires "layer" in data && Truthy(data["layer"])
    requires |exporters| >= 2
    ensures Process(data["use_exporters" := JArr(exporters)]) == Ok(())
  {
    assert data["use_exporters" := JArr(exporters)]["layer"] == data["layer"];
  }

  /** An exporter list passes exactly when it is truthy: `len(...) == 0` and `not ...` agree on lists. */
  lemma ListCheckIsTruthiness(data: map<string, Json>, exporters: seq<Json>)
    requires "layer" in data && Truthy(data["layer"])
    ensures Process(data["use_exporters" := JArr(exporters)]).Ok? <==> Truthy(JArr(exporters))
  {
    assert data["use_exporters" := JArr(exporters)]["layer"] == data["layer"];
  }
}
