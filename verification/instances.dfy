/**
 * `CollectInstances`: the label every publish instance is shown with, and
 * the frame range widened by its handles.
 */
module CollectInstances {
  import opened Wrappers
  import opened Errors
  import opened Text
  import opened Json

  /** The keys `process` may add or overwrite; every other key is left alone. */
  const WrittenKeys: set<string> := {"label", "handleStart", "handleEnd", "frameStartHandle", "frameEndHandle"}

  /** `"{name} ({folderPath})"`. */
  function BaseLabel(name: string, folderPath: string): string {
    name + " (" + folderPath + ")"
  }

  /** The range suffix: two spaces, then `[start-end]`. */
  function RangeSuffix(start: int, end: int): string {
    "  [" + IntToString(start) + "-" + IntToString(end) + "]"
  }

  /** `data.setdefault(key, 0)`. */
  function SetDefaultZero(data: map<string, Json>, key: string): (r: map<string, Json>)
    ensures r.Keys == data.Keys + {key}
    ensures r[key] == if key in data then data[key] else JNum(0)
    ensures forall k | k in data :: r[k] == data[k]
  {
    if key in data then data else data[key := JNum(0)]
  }

  /** `a - b` on two values: only numbers (booleans among them) subtract. */
  function Minus(a: Json, b: Json): (r: Result<int, Error>)
    ensures r.Ok? <==> Num(a).Some? && Num(b).Some?
    ensures r.Ok? ==> r.value + Num(b).value == Num(a).value
    ensures r.Err? ==> r.error == TypeError
  {
    match (Num(a), Num(b))
    case (Some(x), Some(y)) => Ok(x - y)
    case _ => Err(TypeError)
  }

  /**
   * The label and handle keys once `frameStart` and `frameEnd` are both
   * present: the handles default to 0 and each handle frame is its frame
   * minus its handle.
   */
  function WithHandles(data: map<string, Json>, labelText: string): (r: Result<map<string, Json>, Error>)
    requires "frameStart" in data && "frameEnd" in data
    ensures r.Ok? <==> var d := SetDefaultZero(SetDefaultZero(data, "handleStart"), "handleEnd");
                       Minus(d["frameStart"], d["handleStart"]).Ok? && Minus(d["frameEnd"], d["handleEnd"]).Ok?
    ensures r.Err? ==> r.error == TypeError
  {
    var d := SetDefaultZero(SetDefaultZero(data, "handleStart"), "handleEnd");
    match Minus(d["frameStart"], d["handleStart"])
    case Err(e) => Err(e)
    case Ok(startHandle) =>
      match Minus(d["frameEnd"], d["handleEnd"])
      case Err(e) => Err(e)
      case Ok(endHandle) =>
        Ok(d["frameStartHandle" := JNum(startHandle)]["frameEndHandle" := JNum(endHandle)][
          "label" := JStr(labelText + RangeSuffix(startHandle, endHandle))])
  }

  /**
   * `process`: the instance data afterwards. `nodeLabel` is the label of the
   * instance node in the transient data, `None` when there is none; `str()`
   * of the folder path is the text `Json.Str` spells out.
   */
  function Process(instanceName: string, nodeLabel: Option<string>, data: map<string, Json>)
    : (r: Result<map<string, Json>, Error>)
    requires "folderPath" in data ==> Str(data["folderPath"]).Some?
    ensures "folderPath" !in data ==> r == Err(KeyError("folderPath"))
    ensures r.Ok? ==> forall k | k in data && k !in WrittenKeys :: k in r.value && r.value[k] == data[k]
    ensures r.Ok? ==> r.value.Keys <= data.Keys + WrittenKeys
    ensures r.Ok? ==> "folderPath" in data && "label" in r.value && r.value["label"].JStr?
                      && |r.value["label"].s| >= |BaseLabel(Or(nodeLabel, instanceName), Str(data["folderPath"]).value)|
                      && r.value["label"].s[..|BaseLabel(Or(nodeLabel, instanceName), Str(data["folderPath"]).value)|]
                         == BaseLabel(Or(nodeLabel, instanceName), Str(data["folderPath"]).value)
    ensures "folderPath" in data && !("frameStart" in data && "frameEnd" in data) ==>
              r == Ok(data["label" := JStr(BaseLabel(Or(nodeLabel, instanceName), Str(data["folderPath"]).value))])
    ensures r.Ok? && "frameStart" in data && "frameEnd" in data ==>
              var d := r.value;
              && "folderPath" in data && "label" in d && d["label"].JStr?
              && "handleStart" in d && "handleEnd" in d && "frameStartHandle" in d && "frameEndHandle" in d
              && d["handleStart"] == (if "handleStart" in data then data["handleStart"] else JNum(0))
              && d["handleEnd"] == (if "handleEnd" in data then data["handleEnd"] else JNum(0))
              && d["frameStartHandle"].JNum? && d["frameEndHandle"].JNum?
              && Num(d["handleStart"]).Some? && Num(d["handleEnd"]).Some?
              && Num(data["frameStart"]).Some? && Num(data["frameEnd"]).Some?
              && Num(d["frameStartHandle"]).value + Num(d["handleStart"]).value == Num(data["frameStart"]).value
              && Num(d["frameEndHandle"]).value + Num(d["handleEnd"]).value == Num(data["frameEnd"]).value
              && d["label"].s == BaseLabel(Or(nodeLabel, instanceName), Str(data["folderPath"]).value)
                                 + RangeSuffix(d["frameStartHandle"].n, d["frameEndHandle"].n)
    ensures r.Err? && "folderPath" in data ==> r.error == TypeError
  {
    if "folderPath" !in data then Err(KeyError("folderPath"))
    else
      var labelText := BaseLabel(Or(nodeLabel, instanceName), Str(data["folderPath"]).value);
      if "frameStart" in data && "frameEnd" in data then WithHandles(data, labelText)
      else Ok(data["label" := JStr(labelText)])
  }

  /** `opt or default` for an optional text: the value when there is one. */
  function Or(o: Option<string>, fallback: string): string {
    match o
    case Some(v) => v
    case None => fallback
  }

  /** Without a full frame range a second pass rewrites the same label and nothing else. */
  lemma LabelOnlyIdempotent(instanceName: string, nodeLabel: Option<string>, data: map<string, Json>)
    requires "folderPath" in data && Str(data["folderPath"]).Some?
    requires !("frameStart" in data && "frameEnd" in data)
    ensures var d := Process(instanceName, nodeLabel, data).value;
            Process(instanceName, nodeLabel, d) == Ok(d)
  {
    var labelText := BaseLabel(Or(nodeLabel, instanceName), Str(data["folderPath"]).value);
    var d := data["label" := JStr(labelText)];
    assert d["folderPath"] == data["folderPath"];
    assert d == d["label" := JStr(labelText)];
  }

  /** With a frame range a second pass reads back the handles the first stored. */
  lemma HandlesIdempotent(instanceName: string, nodeLabel: Option<string>, data: map<string, Json>)
    requires "folderPath" in data && Str(data["folderPath"]).Some?
    requires "frameStart" in data && "frameEnd" in data
    requires Process(instanceName, nodeLabel, data).Ok?
    ensures var d := Process(instanceName, nodeLabel, data).value;
            Process(instanceName, nodeLabel, d) == Ok(d)
  {
    var d := Process(instanceName, nodeLabel, data).value;
    assert d["folderPath"] == data["folderPath"];
    var e := SetDefaultZero(SetDefaultZero(data, "handleStart"), "handleEnd");
    assert SetDefaultZero(SetDefaultZero(d, "handleStart"), "handleEnd") == d;
    assert d["frameStart"] == e["frameStart"] && d["handleStart"] == e["handleStart"];
    assert d["frameEnd"] == e["frameEnd"] && d["handleEnd"] == e["handleEnd"];
    assert d == d["frameStartHandle" := d["frameStartHandle"]]["frameEndHandle" := d["frameEndHandle"]][
      "label" := d["label"]];
  }

  /**
   * Collecting twice is collecting once: the handles the first pass stored
   * are the ones the second pass reads, and the label is built afresh.
   */
  lemma ProcessIdempotent(instanceName: string, nodeLabel: Option<string>, data: map<string, Json>)
    requires "folderPath" in data ==> Str(data["folderPath"]).Some?
    requires Process(instanceName, nodeLabel, data).Ok?
    ensures var d := Process(instanceName, nodeLabel, data).value;
            Process(instanceName, nodeLabel, d) == Ok(d)
  {
    if "frameStart" in data && "frameEnd" in data {
      HandlesIdempotent(instanceName, nodeLabel, data);
    } else {
      LabelOnlyIdempotent(instanceName, nodeLabel, data);
    }
  }
}
