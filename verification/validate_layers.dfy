/**
 * `ValidateLayersAndExporters`: a mattes or trackpoints instance needs a
 * layer and at least one exporter. The descriptions attached to the errors
 * are display text and are not modelled.
 */
module ValidateLayersAndExporters {
  import opened Wrappers
  import opened Errors
  import opened Json

  /** the truth value of `data.get(key)`: a missing key reads as `None`, which is false. */
  predicate IsSet(data: map<string, Json>, key: string) {
    key in data && Truthy(data[key])
  }

  /**
   * `process`: the layer is checked first, then the exporters; an instance
   * with both set passes.
   */
  function Process(instanceName: string, data: map<string, Json>): (r: Result<(), Error>)
    ensures r.Ok? <==> IsSet(data, "layer") && IsSet(data, "use_exporters")
    ensures !IsSet(data, "layer") ==>
              r == Err(PublishValidationError("No layers set for instance " + instanceName))
    ensures IsSet(data, "layer") && !IsSet(data, "use_exporters") ==>
              r == Err(PublishValidationError("No exporters set for instance " + instanceName))
  {
    if !IsSet(data, "layer") then Err(PublishValidationError("No layers set for instance " + instanceName))
    else if !IsSet(data, "use_exporters") then
      Err(PublishValidationError("No exporters set for instance " + instanceName))
    else Ok(())
  }

  /** With neither a layer nor an exporter, the missing layer is what is reported. */
  lemma LayerCheckedFirst(instanceName: string, data: map<string, Json>)
    requires "layer" !in data && "use_exporters" !in data
    ensures Process(instanceName, data) == Err(PublishValidationError("No layers set for instance " + instanceName))
  {
  }

  /** An empty exporter list fails like a missing one. */
  lemma EmptyExportersLikeMissing(instanceName: string, data: map<string, Json>)
    requires IsSet(data, "layer")
    ensures Process(instanceName, data["use_exporters" := JArr([])])
            == Process(instanceName, data - {"use_exporters"})
  {
    assert IsSet(data["use_exporters" := JArr([])], "layer");
    assert IsSet(data - {"use_exporters"}, "layer");
  }
}
