/**
 * `CollectWorkfileData`: the workfile instance gets the current file as
 * its only member, the frame range of the context, and one representation
 * built from the file's path.
 */
module CollectWorkfile {
  import opened Wrappers
  import opened Errors
  import opened Json
  import opened Paths

  /** The context keys copied onto the instance, in the order they are read. */
  const FrameKeys: seq<string> := ["frameStart", "frameEnd", "handleStart", "handleEnd"]

  /** The first of `keys` missing from `m`, if any. */
  function FirstMissing(keys: seq<string>, m: map<string, Json>): (r: Option<string>)
    ensures r.None? <==> forall i | 0 <= i < |keys| :: keys[i] in m
    ensures r.Some? ==> exists i | 0 <= i < |keys| ::
                          keys[i] == r.value && keys[i] !in m && forall j | 0 <= j < i :: keys[j] in m
  {
    if |keys| == 0 then None
    else if keys[0] !in m then Some(keys[0])
    else
      var r := FirstMissing(keys[1..], m);
      if r.Some? then
        var i :| 0 <= i < |keys[1..]| && keys[1..][i] == r.value && keys[1..][i] !in m
                 && forall j | 0 <= j < i :: keys[1..][j] in m;
        assert keys[i + 1] == r.value && forall j | 0 <= j < i + 1 :: keys[j] in m;
        r
      else
        assert forall i | 1 <= i < |keys| :: keys[i] == keys[1..][i - 1];
        r
  }

  /** The one representation of a workfile: name, extension, file name and directory. */
  datatype Representation = Representation(name: string, ext: string, files: string, stagingDir: string)

  /**
   * What `process` merges into the instance data: the members, the frame
   * range and handles as the context holds them, and the representations.
   */
  datatype Update = Update(
    setMembers: seq<string>,
    frameStart: Json,
    frameEnd: Json,
    handleStart: Json,
    handleEnd: Json,
    representations: seq<Representation>)

  /** `splitext(file)[1].lstrip(".")`: the extension of a file name without its dot. */
  function BareExt(file: string): string {
    LStrip(SplitExt(file).1, '.')
  }

  /** The bare extension holds no dot and no slash. */
  lemma BareExtPlain(file: string)
    ensures '.' !in BareExt(file) && '/' !in BareExt(file)
  {
    SplitExtParts(file);
    ExtensionText(file);
  }

  /** A non-empty bare extension ends the file name, after a dot. */
  lemma {:induction false} BareExtEndsName(file: string)
    ensures var e := BareExt(file);
            e != "" ==> |e| < |file| && file[|file| - |e| - 1..] == "." + e
  {
    var ext := SplitExt(file).1;
    SplitExtParts(file);
    ExtensionText(file);
    var e := LStrip(ext, '.');
    if e != "" {
      assert ext == "." + e;
      var root := SplitExt(file).0;
      assert file == root + ext;
      assert file[|root|..] == ext;
    }
  }

  /** The representation of the file `file` in the directory `folder`. */
  function FromSplit(folder: string, file: string): (rep: Representation)
    ensures rep.name == rep.ext && rep.ext == BareExt(file)
    ensures rep.files == file && rep.stagingDir == folder
    ensures '.' !in rep.ext && '/' !in rep.ext
  {
    BareExtPlain(file);
    Representation(BareExt(file), BareExt(file), file, folder)
  }

  /**
   * The workfile representation: `files` is the final path component and
   * `stagingDir` the directory before it; `name` and `ext` are both the
   * extension without its dot.
   */
  function RepresentationOf(currentFile: string): (rep: Representation)
    ensures rep.name == rep.ext && rep.ext == BareExt(rep.files)
    ensures '/' !in rep.files
    ensures |rep.files| <= |currentFile| && currentFile[|currentFile| - |rep.files|..] == rep.files
    ensures rep.stagingDir <= currentFile[..|currentFile| - |rep.files|]
    ensures '.' !in rep.ext && '/' !in rep.ext
  {
    var split := SplitPath(currentFile);
    FromSplit(split.0, split.1)
  }

  /**
   * `process`: what it merges into the instance data. The current file must
   * be text for the path split; the four frame keys are read from the
   * context in order, and the first one missing raises.
   */
  function Process(context: map<string, Json>): (r: Result<Update, Error>)
    ensures "currentFile" !in context ==> r == Err(KeyError("currentFile"))
    ensures "currentFile" in context && !context["currentFile"].JStr? ==> r == Err(TypeError)
    ensures r.Ok? <==> "currentFile" in context && context["currentFile"].JStr?
                       && "frameStart" in context && "frameEnd" in context
                       && "handleStart" in context && "handleEnd" in context
    ensures r.Err? && "currentFile" in context && context["currentFile"].JStr? ==>
              FirstMissing(FrameKeys, context).Some? && r.error == KeyError(FirstMissing(FrameKeys, context).value)
    ensures r.Ok? ==>
              var u, path := r.value, context["currentFile"].s;
              && u.setMembers == [path]
              && u.representations == [RepresentationOf(path)]
              && u.frameStart == context["frameStart"] && u.frameEnd == context["frameEnd"]
              && u.handleStart == context["handleStart"] && u.handleEnd == context["handleEnd"]
  {
    if "currentFile" !in context then Err(KeyError("currentFile"))
    else if !context["currentFile"].JStr? then Err(TypeError)
    else
      match FirstMissing(FrameKeys, context)
      case Some(k) => Err(KeyError(k))
      case None =>
        var path := context["currentFile"].s;
        assert FrameKeys[0] in context && FrameKeys[1] in context && FrameKeys[2] in context && FrameKeys[3] in context;
        Ok(Update([path], context[FrameKeys[0]], context[FrameKeys[1]], context[FrameKeys[2]], context[FrameKeys[3]],
                  [RepresentationOf(path)]))
  }

  /** With the current file in place, a missing `frameStart` is the error reported, whatever else is missing. */
  lemma MissingFrameStartReported(context: map<string, Json>)
    requires "currentFile" in context && context["currentFile"].JStr?
    requires "frameStart" !in context
    ensures Process(context) == Err(KeyError("frameStart"))
  {
    assert FirstMissing(FrameKeys, context) == Some(FrameKeys[0]);
  }
}
