/**
 * The `ExportShape` extractor: the file name each exporter writes to, the
 * outputs it reports, and the normaliser that turns each output into at most
 * one representation plus resource transfers. `clique.assemble` and the
 * exporter itself are foreign and enter as function parameters.
 */
module ExportShapes {
  import opened Wrappers
  import opened Errors
  import opened Text
  import opened Paths
  import opened ExtensionPattern
  import opened ExporterMappings
  import opened MochaLib

  /** `MOCHA_2025`: from this major version on, labels carry no extension. */
  const Mocha2025: nat := 2025

  /** The text both "too many sequences" errors carry. */
  const MultipleSequencesMessage: string :=
    "The exporter produced multiple sequences and single files. This is not supported."

  /** One exporter's output as `export` reports it. */
  datatype Output = Output(name: string, ext: string, files: seq<string>, stagingDir: string, outputName: string)

  /**
   * What a representation's `files` holds: one file name, a plain list of
   * names, or the `clique` collection object itself (given by its members).
   */
  datatype Files = Single(file: string) | Listed(names: seq<string>) | Collection(members: seq<string>)

  datatype Representation = Representation(
    name: string, ext: string, files: Files, stagingDir: string, outputName: string)

  /** One `[source, destination]` entry of `instance.data["transfers"]`. */
  datatype Transfer = Transfer(source: string, destination: string)

  /** A manifest file: where it is written and what is written into it. */
  datatype Manifest = Manifest(path: string, content: string)

  /** `clique.assemble`'s pair: the collections (by member names) and the remainders. */
  datatype Assembly = Assembly(collections: seq<seq<string>>, remainders: seq<string>)

  /** The names held by a list of collections. */
  function Members(cs: seq<seq<string>>): multiset<string> {
    if |cs| == 0 then multiset{} else Members(cs[..|cs| - 1]) + multiset(cs[|cs| - 1])
  }

  /**
   * The contract `clique.assemble` keeps: no collection is empty, and every
   * input name lands in exactly one collection or among the remainders.
   */
  ghost predicate Partitions(files: seq<string>, a: Assembly) {
    (forall i | 0 <= i < |a.collections| :: |a.collections[i]| > 0)
    && Members(a.collections) + multiset(a.remainders) == multiset(files)
  }

  /** A lawful `clique.assemble`. */
  ghost predicate Assembler(assemble: seq<string> -> Assembly) {
    forall files :: Partitions(files, assemble(files))
  }

  /** The instance data the extractor reads: its staging and publish directories. */
  datatype Context = Context(stagingDir: string, publishDir: Option<string>)

  /* ---------- representation names ---------- */

  /** `get_mocha_version() or "2024"`: a missing or empty version reads as `"2024"`. */
  function VersionText(version: Option<string>): (r: string)
    ensures r != ""
    ensures version.Some? && version.value != "" ==> r == version.value
  {
    if version.Some? && version.value != "" then version.value else "2024"
  }

  /** The shape table for a version: its own when the mapping has one, else the 2024.5 table. */
  function ShapeTable(version: Option<string>): (t: seq<Entry>)
    ensures VersionText(version) == Version2025 ==> t == ShapeMapping2025
    ensures VersionText(version) != Version2025 ==> t == LegacyEntries(ShapeMapping2024)
  {
    MappingKeys();
    var shapes := ExporterMapping[ShapeKind];
    var v := VersionText(version);
    if v in shapes then shapes[v] else shapes[Version2024]
  }

  /**
   * `_exporter_name_to_representation_name`: the table's name for the label,
   * or the label itself when the table does not list it.
   */
  function RepresentationName(version: Option<string>, exporterLabel: string): (r: string)
    ensures (forall i | 0 <= i < |ShapeTable(version)| :: ShapeTable(version)[i].exporter != exporterLabel) ==> r == exporterLabel
    ensures (exists i | 0 <= i < |ShapeTable(version)| :: ShapeTable(version)[i].exporter == exporterLabel) ==>
              exists i | 0 <= i < |ShapeTable(version)| :: ShapeTable(version)[i] == Entry(exporterLabel, r)
  {
    Lookup(ShapeTable(version), exporterLabel).GetOr(exporterLabel)
  }

  /** Without a version, and for the default `"2024"`, the 2024.5 table decides. */
  lemma DefaultVersionUsesLegacyTable(exporterLabel: string)
    ensures RepresentationName(None, exporterLabel) == RepresentationName(Some("2024.5"), exporterLabel)
    ensures RepresentationName(Some(""), exporterLabel) == RepresentationName(None, exporterLabel)
  {
    assert VersionText(Some("2024.5")) != Version2025;
  }

  /* ---------- resources ---------- */

  /** The transfer `add_to_resources` records for the remainder `r`. */
  function TransferFor(stagingDir: string, publishDir: string, r: string): Transfer {
    var path := Div(Parse(stagingDir), r);
    Transfer(AsPosix(path), AsPosix(Div(Parse(publishDir), Name(path))))
  }

  /** For a plain file name, the transfer copies `staging/r` to `publishDir/r`. */
  lemma TransferOfFileName(stagingDir: string, publishDir: string, r: string)
    requires IsPart(r)
    ensures TransferFor(stagingDir, publishDir, r)
            == Transfer(AsPosix(Div(Parse(stagingDir), r)), AsPosix(Div(Parse(publishDir), r)))
    ensures |Parse(stagingDir).parts| > 0 ==>
              TransferFor(stagingDir, publishDir, r).source == AsPosix(Parse(stagingDir)) + "/" + r
    ensures |Parse(publishDir).parts| > 0 ==>
              TransferFor(stagingDir, publishDir, r).destination == AsPosix(Parse(publishDir)) + "/" + r
  {
    NameParentDiv(Parse(stagingDir), r);
    AsPosixDiv(Parse(stagingDir), r);
    AsPosixDiv(Parse(publishDir), r);
  }

  /** The transfers for the remainders, in order. */
  function TransfersFor(stagingDir: string, publishDir: string, rems: seq<string>): (r: seq<Transfer>)
    ensures |r| == |rems|
  {
    if |rems| == 0 then []
    else
      var init := rems[..|rems| - 1];
      TransfersFor(stagingDir, publishDir, init) + [TransferFor(stagingDir, publishDir, rems[|rems| - 1])]
  }

  /**
   * `add_to_resources` for each remainder in turn: reading `publishDir`, then
   * appending to `transfers`; a missing key raises `KeyError`. The result is
   * the new transfers list (`None` when the key stays absent).
   */
  function AddAll(ctx: Context, transfers: Option<seq<Transfer>>, rems: seq<string>)
    : (r: Result<Option<seq<Transfer>>, Error>)
    ensures r.Err? ==> r.error.KeyError?
  {
    if |rems| == 0 then Ok(transfers)
    else
      match AddAll(ctx, transfers, rems[..|rems| - 1])
      case Err(e) => Err(e)
      case Ok(t) =>
        if ctx.publishDir.None? then Err(KeyError("publishDir"))
        else if t.None? then Err(KeyError("transfers"))
        else Ok(Some(t.value + [TransferFor(ctx.stagingDir, ctx.publishDir.value, rems[|rems| - 1])]))
  }

  /**
   * With both keys present, each remainder's transfer is appended in order and
   * the earlier entries stay as they were.
   */
  lemma {:induction false} AddAllAppends(ctx: Context, transfers: seq<Transfer>, rems: seq<string>)
    requires ctx.publishDir.Some?
    ensures AddAll(ctx, Some(transfers), rems)
            == Ok(Some(transfers + TransfersFor(ctx.stagingDir, ctx.publishDir.value, rems)))
  {
    var pd := ctx.publishDir.value;
    if |rems| == 0 {
      assert transfers + TransfersFor(ctx.stagingDir, pd, rems) == transfers;
    } else {
      var init := rems[..|rems| - 1];
      var last := TransferFor(ctx.stagingDir, pd, rems[|rems| - 1]);
      var before := TransfersFor(ctx.stagingDir, pd, init);
      AddAllAppends(ctx, transfers, init);
      AppendAssociative(transfers, before, [last]);
    }
  }

  /** A missing key raises at the first remainder, before anything is appended. */
  lemma {:induction false} AddAllRaises(ctx: Context, transfers: Option<seq<Transfer>>, rems: seq<string>)
    requires |rems| > 0 && (ctx.publishDir.None? || transfers.None?)
    ensures AddAll(ctx, transfers, rems)
            == Err(KeyError(if ctx.publishDir.None? then "publishDir" else "transfers"))
  {
    if |rems| > 1 {
      AddAllRaises(ctx, transfers, rems[..|rems| - 1]);
    } else {
      assert AddAll(ctx, transfers, rems[..0]) == Ok(transfers);
    }
  }

  /** Concatenation regroups freely. */
  lemma AppendAssociative<T>(a: seq<T>, b: seq<T>, c: seq<T>)
    ensures a + b + c == a + (b + c)
  {
  }

  /* ---------- manifests ---------- */

  /** `_create_manifest_file`: `<name>.manifest` in the staging directory, the names written back to back. */
  function ManifestFor(stagingDir: string, files: seq<string>, repreName: string): (m: Manifest)
    ensures m.content == Concat(files)
  {
    Manifest(AsPosix(Div(Parse(stagingDir), repreName + ".manifest")), Concat(files))
  }

  /* ---------- normalising outputs ---------- */

  /**
   * How the mixed case tests for "more than one collection": line 97 of the
   * source compares the list itself with `1`, which Python 3 rejects with a
   * `TypeError`; the evident intent compares its length.
   */
  datatype MixedGuard = CompareList | CompareLength

  /** The effect of processing outputs: the transfers list, manifests written, and the result. */
  datatype Processed = Processed(
    transfers: Option<seq<Transfer>>, manifests: seq<Manifest>, result: Result<seq<Representation>, Error>)

  /** The decision table for one output (`process_outputs_to_representations`, loop body). */
  function ProcessOutput(o: Output, ctx: Context, naming: string -> string, assemble: seq<string> -> Assembly,
                         guard: MixedGuard, transfers: Option<seq<Transfer>>): (p: Processed)
    ensures p.result.Ok? ==> |p.result.value| <= 1
    ensures p.result.Err? ==> p.manifests == []
  {
    var name := naming(o.name);
    var a := assemble(o.files);
    var cols := a.collections;
    var rems := a.remainders;
    if |rems| > 0 && |cols| > 0 then
      if guard == CompareList then Processed(transfers, [], Err(TypeError))
      else if |cols| > 1 then Processed(transfers, [], Err(KnownPublishError(MultipleSequencesMessage)))
      else
        match AddAll(ctx, transfers, rems)
        case Err(e) => Processed(transfers, [], Err(e))
        case Ok(t) =>
          Processed(t, [], Ok([Representation(name, o.ext, Collection(cols[0]), o.stagingDir, o.outputName)]))
    else if |rems| > 1 then
      match AddAll(ctx, transfers, rems)
      case Err(e) => Processed(transfers, [], Err(e))
      case Ok(t) =>
        Processed(t, [ManifestFor(ctx.stagingDir, rems, name)],
                  Ok([Representation(name, o.ext, Single(name + ".manifest"), o.stagingDir, o.outputName)]))
    else if |rems| == 1 then
      Processed(transfers, [], Ok([Representation(name, o.ext, Single(rems[0]), o.stagingDir, o.outputName)]))
    else if |cols| > 0 then
      if |cols| > 1 then Processed(transfers, [], Err(KnownPublishError(MultipleSequencesMessage)))
      else Processed(transfers, [], Ok([Representation(name, o.ext, Listed(cols[0]), o.stagingDir, o.outputName)]))
    else
      Processed(transfers, [], Ok([]))
  }

  /** The loop body for one output, as a step from the transfers list. */
  function Step(ctx: Context, naming: string -> string, assemble: seq<string> -> Assembly, guard: MixedGuard)
    : (Output, Option<seq<Transfer>>) -> Processed
  {
    (o: Output, t: Option<seq<Transfer>>) => ProcessOutput(o, ctx, naming, assemble, guard, t)
  }

  /**
   * `process_outputs_to_representations`: the loop over the outputs in order,
   * threading the transfers list and stopping at the first error.
   */
  function ProcessOutputs(outputs: seq<Output>, step: (Output, Option<seq<Transfer>>) -> Processed,
                          transfers: Option<seq<Transfer>>): Processed
  {
    if |outputs| == 0 then Processed(transfers, [], Ok([]))
    else
      var before := ProcessOutputs(outputs[..|outputs| - 1], step, transfers);
      if before.result.Err? then before
      else
        var last := step(outputs[|outputs| - 1], before.transfers);
        Processed(last.transfers, before.manifests + last.manifests,
                  if last.result.Err? then last.result else Ok(before.result.value + last.result.value))
  }

  /**
   * The extractor's own behaviour, with the mixed case comparing the number
   * of collections and each output named through the shape table.
   */
  function Normalise(outputs: seq<Output>, ctx: Context, version: Option<string>,
                     assemble: seq<string> -> Assembly, transfers: Option<seq<Transfer>>): Processed
  {
    ProcessOutputs(outputs, Step(ctx, l => RepresentationName(version, l), assemble, CompareLength), transfers)
  }

  /**
   * Processing a list is processing its first part, then the rest from the
   * transfers the first part left: representations and manifests follow the
   * order of the outputs, and an error ends the run.
   */
  lemma {:induction false} ProcessOutputsAppend(xs: seq<Output>, ys: seq<Output>,
                                                step: (Output, Option<seq<Transfer>>) -> Processed,
                                                transfers: Option<seq<Transfer>>)
    ensures var p := ProcessOutputs(xs, step, transfers);
            var q := ProcessOutputs(ys, step, p.transfers);
            ProcessOutputs(xs + ys, step, transfers)
            == if p.result.Err? then p
               else Processed(q.transfers, p.manifests + q.manifests,
                              if q.result.Err? then q.result else Ok(p.result.value + q.result.value))
    decreases |ys|
  {
    var p := ProcessOutputs(xs, step, transfers);
    if |ys| == 0 {
      assert xs + ys == xs;
      assert p.manifests + [] == p.manifests;
      if p.result.Ok? {
        assert p.result.value + [] == p.result.value;
      }
    } else {
      var init := ys[..|ys| - 1];
      var last := ys[|ys| - 1];
      assert (xs + ys)[..|xs + ys| - 1] == xs + init;
      assert (xs + ys)[|xs + ys| - 1] == last;
      ProcessOutputsAppend(xs, init, step, transfers);
      if p.result.Ok? {
        var q0 := ProcessOutputs(init, step, p.transfers);
        if q0.result.Ok? {
          var l := step(last, q0.transfers);
          assert p.manifests + q0.manifests + l.manifests == p.manifests + (q0.manifests + l.manifests);
          if l.result.Ok? {
            assert p.result.value + q0.result.value + l.result.value
                   == p.result.value + (q0.result.value + l.result.value);
          }
        }
      }
    }
  }

  /** A list of one output is processed as that output. */
  lemma ProcessOneOutput(o: Output, step: (Output, Option<seq<Transfer>>) -> Processed,
                         transfers: Option<seq<Transfer>>)
    ensures ProcessOutputs([o], step, transfers) == step(o, transfers)
  {
    assert [o][..0] == [];
    var l := step(o, transfers);
    assert [] + l.manifests == l.manifests;
    if l.result.Ok? {
      assert [] + l.result.value == l.result.value;
    }
  }

  /** Each output adds at most one representation: never more representations than outputs. */
  lemma {:induction false} AtMostOnePerOutput(outputs: seq<Output>, ctx: Context, naming: string -> string,
                                              assemble: seq<string> -> Assembly, guard: MixedGuard,
                                              transfers: Option<seq<Transfer>>)
    ensures var p := ProcessOutputs(outputs, Step(ctx, naming, assemble, guard), transfers);
            p.result.Ok? ==> |p.result.value| <= |outputs|
  {
    if |outputs| > 0 {
      AtMostOnePerOutput(outputs[..|outputs| - 1], ctx, naming, assemble, guard, transfers);
    }
  }

  /** A lawful assembler gives nothing for no files: no collection and no remainder. */
  lemma AssembleEmpty(assemble: seq<string> -> Assembly)
    requires Assembler(assemble)
    ensures assemble([]) == Assembly([], [])
  {
    var a := assemble([]);
    assert Partitions([], a);
    assert Members(a.collections) + multiset(a.remainders) == multiset{};
    assert |Members(a.collections) + multiset(a.remainders)| == 0;
    NoMembersNoCollections(a.collections);
  }

  /** Non-empty collections with no members between them: there are none. */
  lemma NoMembersNoCollections(cs: seq<seq<string>>)
    requires forall i | 0 <= i < |cs| :: |cs[i]| > 0
    requires |Members(cs)| == 0
    ensures cs == []
  {
  }

  /** An output without files yields no representation, no transfer and no manifest. */
  lemma EmptyOutputYieldsNothing(o: Output, ctx: Context, naming: string -> string,
                                 assemble: seq<string> -> Assembly, guard: MixedGuard,
                                 transfers: Option<seq<Transfer>>)
    requires Assembler(assemble)
    requires o.files == []
    ensures ProcessOutput(o, ctx, naming, assemble, guard, transfers) == Processed(transfers, [], Ok([]))
  {
    AssembleEmpty(assemble);
  }

  /** The representation an output yields, with its name, `ext`, `stagingDir` and `outputName` copied. */
  predicate RepresentsOutput(rep: Representation, o: Output, naming: string -> string) {
    rep.name == naming(o.name) && rep.ext == o.ext
    && rep.stagingDir == o.stagingDir && rep.outputName == o.outputName
  }

  /**
   * Only collections: more than one raises; exactly one becomes a plain list
   * of its members; nothing is transferred.
   */
  lemma OnlyCollections(o: Output, ctx: Context, naming: string -> string, assemble: seq<string> -> Assembly,
                        guard: MixedGuard, transfers: Option<seq<Transfer>>)
    requires var a := assemble(o.files); |a.collections| > 0 && a.remainders == []
    ensures var a := assemble(o.files);
            var p := ProcessOutput(o, ctx, naming, assemble, guard, transfers);
            p.transfers == transfers && p.manifests == []
            && (|a.collections| > 1 ==> p.result == Err(KnownPublishError(MultipleSequencesMessage)))
            && (|a.collections| == 1 ==>
                  p.result.Ok? && |p.result.value| == 1 && RepresentsOutput(p.result.value[0], o, naming)
                  && p.result.value[0].files == Listed(a.collections[0]))
  {
  }

  /** No collection and one remainder: that name alone, nothing transferred. */
  lemma OneRemainder(o: Output, ctx: Context, naming: string -> string, assemble: seq<string> -> Assembly,
                     guard: MixedGuard, transfers: Option<seq<Transfer>>)
    requires var a := assemble(o.files); a.collections == [] && |a.remainders| == 1
    ensures var p := ProcessOutput(o, ctx, naming, assemble, guard, transfers);
            p.transfers == transfers && p.manifests == []
            && p.result.Ok? && |p.result.value| == 1 && RepresentsOutput(p.result.value[0], o, naming)
            && p.result.value[0].files == Single(assemble(o.files).remainders[0])
  {
  }

  /**
   * No collection and several remainders: every remainder is transferred in
   * order, the representation is the manifest `<name>.manifest`, and the
   * manifest holds the remainders back to back.
   */
  lemma SeveralRemainders(o: Output, ctx: Context, naming: string -> string, assemble: seq<string> -> Assembly,
                          guard: MixedGuard, transfers: Option<seq<Transfer>>)
    requires var a := assemble(o.files); a.collections == [] && |a.remainders| > 1
    requires ctx.publishDir.Some? && transfers.Some?
    ensures var rems := assemble(o.files).remainders;
            var name := naming(o.name);
            var p := ProcessOutput(o, ctx, naming, assemble, guard, transfers);
            p.transfers == Some(transfers.value + TransfersFor(ctx.stagingDir, ctx.publishDir.value, rems))
            && p.manifests == [Manifest(AsPosix(Div(Parse(ctx.stagingDir), name + ".manifest")), Concat(rems))]
            && p.result.Ok? && |p.result.value| == 1 && RepresentsOutput(p.result.value[0], o, naming)
            && p.result.value[0].files == Single(name + ".manifest")
  {
    AddAllAppends(ctx, transfers.value, assemble(o.files).remainders);
  }

  /**
   * One collection plus remainders: the collection becomes `files` and every
   * remainder is transferred; more than one collection raises.
   */
  lemma MixedOutput(o: Output, ctx: Context, naming: string -> string, assemble: seq<string> -> Assembly,
                    transfers: Option<seq<Transfer>>)
    requires var a := assemble(o.files); |a.collections| > 0 && |a.remainders| > 0
    requires ctx.publishDir.Some? && transfers.Some?
    ensures var a := assemble(o.files);
            var p := ProcessOutput(o, ctx, naming, assemble, CompareLength, transfers);
            (|a.collections| > 1 ==>
               p == Processed(transfers, [], Err(KnownPublishError(MultipleSequencesMessage))))
            && (|a.collections| == 1 ==>
                  p.transfers == Some(transfers.value + TransfersFor(ctx.stagingDir, ctx.publishDir.value, a.remainders))
                  && p.manifests == []
                  && p.result.Ok? && |p.result.value| == 1 && RepresentsOutput(p.result.value[0], o, naming)
                  && p.result.value[0].files == Collection(a.collections[0]))
  {
    AddAllAppends(ctx, transfers.value, assemble(o.files).remainders);
  }

  /**
   * As written, an output with both collections and remainders always raises
   * `TypeError`, even with a single collection, and transfers nothing.
   */
  lemma MixedOutputAsWritten(o: Output, ctx: Context, naming: string -> string,
                             assemble: seq<string> -> Assembly, transfers: Option<seq<Transfer>>)
    requires var a := assemble(o.files); |a.collections| == 1 && |a.remainders| > 0
    ensures ProcessOutput(o, ctx, naming, assemble, CompareList, transfers) == Processed(transfers, [], Err(TypeError))
    ensures ProcessOutput(o, ctx, naming, assemble, CompareLength, transfers).result != Err(TypeError)
  {
  }

  /* ---------- export ---------- */

  /** The name and abbreviation of one project view. */
  datatype ViewInfo = ViewInfo(name: string, abbr: string)

  /**
   * `views_to_export`: the views whose name or abbreviation is among the view
   * names. Every view qualifies by its own name, so all of them are exported.
   */
  function ViewsToExport(views: seq<ViewInfo>): (r: set<nat>)
    ensures forall num: nat :: num in r <==> num < |views|
  {
    var names := seq(|views|, i requires 0 <= i < |views| => views[i].name);
    assert forall num: nat | num < |views| :: views[num].name in names by {
      forall num: nat | num < |views| ensures views[num].name in names {
        assert names[num] == views[num].name;
      }
    }
    set num: nat | num < |views| && (views[num].name in names || views[num].abbr in names)
  }

  /** `int(version.split(".")[0])`: the digits before the first dot, or `ValueError`. */
  function MajorVersion(version: string): (r: Result<nat, Error>)
    ensures r.Ok? <==> ParseNat(BeforeFirst(version, '.')).Some?
  {
    var head := BeforeFirst(version, '.');
    match ParseNat(head)
    case Some(n) => Ok(n)
    case None => Err(ValueError("invalid literal for int() with base 10: '" + head + "'"))
  }

  /** The major version of a printed `major.minor` is the major number. */
  lemma MajorVersionOfRelease(major: nat, minor: string)
    ensures MajorVersion(NatToString(major) + "." + minor) == Ok(major)
  {
    var s := NatToString(major) + "." + minor;
    var head := BeforeFirst(s, '.');
    assert '.' !in NatToString(major);
    BeforeFirstAt(s, NatToString(major));
    ParseNatToString(major);
  }

  /** Text before the first `c` is `w` when `w` has no `c` and `c` follows it. */
  lemma BeforeFirstAt(s: string, w: string)
    requires |w| < |s| && s[..|w|] == w && s[|w|] == '.' && '.' !in w
    ensures BeforeFirst(s, '.') == w
  {
    var r := BeforeFirst(s, '.');
    assert forall k | 0 <= k < |w| :: s[k] == w[k] && s[k] != '.';
    assert forall k | 0 <= k < |r| :: s[k] == r[k] && r[k] != '.';
  }

  /**
   * The base file name for an exporter: `<product>_<id[:8]>`, followed by
   * `.<ext>` before Mocha 2025, where the extension comes from the label.
   */
  function FileName(productName: string, info: ExporterInfo, major: nat): (r: Result<string, Error>)
    ensures major >= Mocha2025 ==> r == Ok(productName + "_" + Take(info.id, 8))
    ensures major < Mocha2025 ==>
              (r.Err? <==> Extension(info.labelText).None?)
              && (r.Err? ==> r.error == KnownPublishError("Cannot get extension from " + info.labelText + " exporter."))
              && (r.Ok? ==> r.value == productName + "_" + Take(info.id, 8) + "." + Extension(info.labelText).value)
  {
    var stem := productName + "_" + Take(info.id, 8);
    if major < Mocha2025 then
      match Extension(info.labelText)
      case None => Err(KnownPublishError("Cannot get extension from " + info.labelText + " exporter."))
      case Some(ext) => Ok(stem + "." + ext)
    else Ok(stem)
  }

  /** Before 2025, a label `<name> (*.<ext>)` names the file `<product>_<id[:8]>.<ext>`. */
  lemma LegacyFileName(productName: string, info: ExporterInfo, major: nat, stem: string, ext: string)
    requires major < Mocha2025
    requires info.labelText == LegacyLabel(stem, ext)
    requires '\n' !in stem && |ext| >= 1 && forall i | 0 <= i < |ext| :: IsWordChar(ext[i])
    ensures FileName(productName, info, major) == Ok(productName + "_" + Take(info.id, 8) + "." + ext)
  {
    LegacyLabelExtension(stem, ext);
  }

  /** A label without `*` has no extension, so before 2025 it cannot be exported. */
  lemma StarlessLabelNeedsNewMocha(productName: string, info: ExporterInfo, major: nat)
    requires major < Mocha2025
    requires '*' !in info.labelText
    ensures FileName(productName, info, major).Err?
  {
    NoStarNoExtension(info.labelText);
  }

  /** `Path(k).suffix[1:]`: the extension of a written file, without its dot. */
  function SuffixText(key: string): (r: string)
    ensures '.' !in r
  {
    var s := Suffix(Name(Parse(key)));
    if |s| == 0 then "" else s[1..]
  }

  /** The file names of the written paths, in order. */
  function FileNames(keys: seq<string>): (r: seq<string>)
    ensures |r| == |keys| && forall i | 0 <= i < |keys| :: r[i] == Name(Parse(keys[i]))
  {
    seq(|keys|, i requires 0 <= i < |keys| => Name(Parse(keys[i])))
  }

  /**
   * `export` for one exporter. `doExport` stands for the exporter's
   * `do_export`: the paths of the files it wrote to the given target, in
   * order; no path stands for a falsy result.
   */
  function ExportOne(productName: string, info: ExporterInfo, version: Option<string>, stagingDir: string,
                     doExport: (ExporterInfo, string) -> seq<string>): (r: Result<Output, Error>)
    ensures info.labelText == "" ==> r.Err? && r.error.KnownPublishError?
    ensures r.Ok? ==>
              r.value.name == info.labelText && r.value.outputName == Take(info.id, 8)
              && r.value.stagingDir == AsPosix(Parse(stagingDir)) && |r.value.files| > 0
  {
    if info.labelText == "" then
      Err(KnownPublishError("Cannot get exporter name from " + info.labelText + " exporter."))
    else
      var short := Take(info.id, 8);
      var major :- MajorVersion(VersionText(version));
      var fileName :- FileName(productName, info, major);
      var keys := doExport(info, AsPosix(Div(Parse(stagingDir), fileName)));
      if |keys| == 0 then Err(KnownPublishError("Export failed for " + info.labelText + "."))
      else Ok(Output(info.labelText, SuffixText(keys[0]), FileNames(keys), AsPosix(Parse(stagingDir)), short))
  }

  /**
   * What the exporter is asked to write: the staging directory joined with
   * the file name, and the reported files are the names of what it wrote.
   */
  lemma ExportTarget(productName: string, info: ExporterInfo, version: Option<string>, stagingDir: string,
                     doExport: (ExporterInfo, string) -> seq<string>, major: nat, fileName: string)
    requires info.labelText != ""
    requires MajorVersion(VersionText(version)) == Ok(major)
    requires FileName(productName, info, major) == Ok(fileName)
    ensures var keys := doExport(info, AsPosix(Div(Parse(stagingDir), fileName)));
            var r := ExportOne(productName, info, version, stagingDir, doExport);
            (|keys| == 0 <==> r == Err(KnownPublishError("Export failed for " + info.labelText + ".")))
            && (|keys| > 0 ==> r.Ok? && r.value.files == FileNames(keys) && r.value.ext == SuffixText(keys[0]))
  {
  }

  /** The loop of `export`: each exporter in order, stopping at the first error. */
  function ExportAll(exporters: seq<ExporterInfo>, exportOne: ExporterInfo -> Result<Output, Error>)
    : (r: Result<seq<Output>, Error>)
    ensures r.Ok? ==> |r.value| == |exporters|
                      && forall i | 0 <= i < |exporters| :: exportOne(exporters[i]) == Ok(r.value[i])
    ensures r.Err? ==> exists i | 0 <= i < |exporters| ::
                         exportOne(exporters[i]) == Err(r.error)
                         && forall k | 0 <= k < i :: exportOne(exporters[k]).Ok?
  {
    if |exporters| == 0 then Ok([])
    else
      var init := exporters[..|exporters| - 1];
      assert forall k | 0 <= k < |init| :: init[k] == exporters[k];
      match ExportAll(init, exportOne)
      case Err(e) => Err(e)
      case Ok(outs) =>
        match exportOne(exporters[|exporters| - 1])
        case Err(e) => Err(e)
        case Ok(o) => Ok(outs + [o])
  }

  /** `export`: every exporter run against the same product, version and staging directory. */
  function Export(productName: string, exporters: seq<ExporterInfo>, version: Option<string>, stagingDir: string,
                  doExport: (ExporterInfo, string) -> seq<string>): Result<seq<Output>, Error>
  {
    ExportAll(exporters, info => ExportOne(productName, info, version, stagingDir, doExport))
  }
}
