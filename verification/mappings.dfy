/**
 * `mocha_exporter_mappings`: the representation name each exporter label maps
 * to, per exporter kind and Mocha version. Labels before 2025 end in the
 * exporter's file extension as ` (*.ext)`; they are stored split into the
 * name part and the extension so that the label is `LegacyLabel(stem, ext)`.
 */
module ExporterMappings {
  import opened Wrappers
  import opened Text
  import opened ExtensionPattern

  /** A pre-2025 entry: the label's name part, its extension, and the representation name. */
  datatype Legacy = Legacy(stem: string, ext: string, name: string)

  /** A label and the representation name it maps to. */
  datatype Entry = Entry(exporter: string, name: string)

  /** The entry a pre-2025 row stands for. */
  function LegacyEntry(e: Legacy): Entry {
    Entry(LegacyLabel(e.stem, e.ext), e.name)
  }

  /** A pre-2025 table as label/name entries. */
  function LegacyEntries(t: seq<Legacy>): (r: seq<Entry>)
    ensures |r| == |t| && forall i | 0 <= i < |t| :: r[i] == LegacyEntry(t[i])
  {
    seq(|t|, i requires 0 <= i < |t| => LegacyEntry(t[i]))
  }

  /** `TRACKING_MAPPING_2024_5`, in source order. */
  const TrackingMapping2024: seq<Legacy> := [
    Legacy("2D SynthEyes Tracker Data", "sni", "SynthEyes2DTracker"),
    Legacy("After Effects CC Power Pin", "txt", "AfxCCPowerPin"),
    Legacy("After Effects CS3 Corner Pin [supports motion blur, CS3 and older]", "txt", "AfxCS3CornerPin"),
    Legacy("After Effects Corner Pin [corner pin only, supports RG Warp and mochaImport]", "txt", "AfxCornerPin"),
    Legacy("After Effects Corner Pin [supports motion blur]", "txt", "AfxCornerPinMotionBlur"),
    Legacy("After Effects Transform Data [position, scale and rotation]", "txt", "AfxTransformData"),
    Legacy("Alembic Mesh Data", "abc", "AlembicMeshData"),
    Legacy("Alembic Vertex Transform Data", "abc", "AlembicVertexTransform"),
    Legacy("Assimilate SCRATCH Corner Pin", "txt", "AssimilateSCRATCHCornerPin"),
    Legacy("Autodesk Flame Axis", "mask", "FlameAxis"),
    Legacy("Autodesk IFFFSE Point Tracker Data", "ascii", "IFFFSEPointTracker"),
    Legacy("Autodesk IFFFSE Point Tracker Data (Flame 2014)", "ascii", "Flame2014PointTracker"),
    Legacy("Autodesk IFFFSE Stabilizer Data", "stabilizer", "IFFFSEStabilizer"),
    Legacy("Autodesk IFFFSE Stabilizer Data (Flame 2014)", "stabilizer", "Flame2014Stabilize"),
    Legacy("Avid DS Tracking Data", "fraw", "AvidDSTrackingData"),
    Legacy("Blackmagic Fusion COMP Data", "comp", "FusionCompData"),
    Legacy("Boris FX Center Point (Continuum 11 and older)", "txt", "BorisFXCenterPoint"),
    Legacy("Boris FX Corner Pin (Continuum 11 and older)", "txt", "BorisFXCornerPin"),
    Legacy("Final Cut Basic Motion [translate, rotate, scale]", "xml", "FinalCutBasicMotion"),
    Legacy("Final Cut Distort [corner pin]", "xml", "FinalCutDistort"),
    Legacy("Flowbox corner pin", "flowbox", "FlowboxCornerPin"),
    Legacy("HitFilm Corner Pin [supports motion blur]", "hfcs", "HitFilmCornerPin"),
    Legacy("HitFilm Transform Data [position, scale and rotation]", "hfcs", "HitFilmTransformData"),
    Legacy("Mistika Point Tracker File", "trk", "MistikaPointTracker"),
    Legacy("MochaBlend tracking data", "txt", "MochaBlend"),
    Legacy("Motion basic transform", "motn", "MotionBasicTransform"),
    Legacy("Motion corner pin", "motn", "MotionCornerPin"),
    Legacy("Nuke 7 Tracker", "nk", "Nuke7Tracker"),
    Legacy("Nuke Ascii", "txt", "NukeAscii"),
    Legacy("Nuke Corner Pin", "nk", "NukeCornerPin"),
    Legacy("Nuke Mesh Tracker", "nk", "NukeMeshTracker"),
    Legacy("Quantel Corner Pin Data", "xml", "QuantelCornerPin"),
    Legacy("Shake Script", "shk", "ShakeScript"),
    Legacy("Silhouette corner pin", "txt", "SilhouetteCornerPin")
  ]

  /** `SHAPE_MAPPING_2024_5`, in source order. */
  const ShapeMapping2024: seq<Legacy> := [
    Legacy("Adobe After Effects Mask Data", "shape4ae", "AfxMask"),
    Legacy("Adobe Premiere shape data", "xml", "PremiereShape"),
    Legacy("BlackMagic Fusion 19+ MultiPoly shapes", "comp", "FusionMultiPoly"),
    Legacy("BlackMagic Fusion shapes", "comp", "FusionShapes"),
    Legacy("Combustion GMask Script", "gmask", "CombustionGMask"),
    Legacy("Flame GMask Script", "gmask", "FlameGMask"),
    Legacy("Flame Tracer [Basic]", "mask", "FlameTracerBasic"),
    Legacy("Flame Tracer [Shape + Axis]", "mask", "FlameTracerShapeAxis"),
    Legacy("HitFilm [Transform & Shape]", "hfcs", "HitFilmTransformShape"),
    Legacy("Mocha shape data for Final Cut", "xml", "MochaShapeFinalCut"),
    Legacy("MochaBlend shape data", "txt", "MochaBlend"),
    Legacy("Nuke Roto [Basic]", "nk", "NukeRotoBasic"),
    Legacy("Nuke RotoPaint [Basic]", "nk", "NukeRotoPaintBasic"),
    Legacy("Nuke SplineWarp", "nk", "NukeSplineWarp"),
    Legacy("Nuke v6.2+ Roto [Transform & Shape]", "nk", "NukeRotoTransformShape"),
    Legacy("Nuke v6.2+ RotoPaint [Transform & Shape]", "nk", "NukeRotoPaint"),
    Legacy("Shake Rotoshape", "ssf", "ShapeRotoshape"),
    Legacy("Silhouette shapes", "fxs", "SilhouetteShapes")
  ]

  /** `TRACKING_MAPPING_2025`, in source order. */
  const TrackingMapping2025: seq<Entry> := [
    Entry("After Effects CC Power Pin", "AfxCCPowerPin"),
    Entry("After Effects CS3 Corner Pin", "AfxCS3CornerPin"),
    Entry("After Effects Corner Pin", "AfxCornerPin"),
    Entry("After Effects Corner Pin with Motion Blur", "AfxCornerPinMotionBlur"),
    Entry("After Effects Transform Data", "AfxTransformData"),
    Entry("Alembic 2D Mesh Data", "AlembicMeshData"),
    Entry("Alembic 2D Vertex Transform", "AlembicVertexTransform"),
    Entry("Avid DS Tracking Data", "AvidDSTrackingData"),
    Entry("Continuum Center Point - 11.0.0", "BorisFXCenterPoint"),
    Entry("Continuum Corner Pin - 11.0.0", "BorisFXCornerPin"),
    Entry("Final Cut Basic Motion - 7.0.0", "FinalCutBasicMotion"),
    Entry("Final Cut Distort - 7.0.0", "FinalCutDistort"),
    Entry("Flame Axis", "FlameAxis"),
    Entry("Flame Point Stabilizer Data - 2014.0.0", "Flame2014Stabilize"),
    Entry("Flame Point Tracker Data", "IFFFSEPointTracker"),
    Entry("Flame Point Tracker Data - 2014.0.0", "Flame2014PointTracker"),
    Entry("Flame Stabilizer Data", "IFFFSEStabilizer"),
    Entry("Flowbox Corner Pin", "FlowboxCornerPin"),
    Entry("Fusion Tracker Data", "FusionCompData"),
    Entry("HitFilm Corner Pin with Motion Blur", "HitFilmCornerPin"),
    Entry("HitFilm Transform Data", "HitFilmTransformData"),
    Entry("Mistika Point Tracker File", "MistikaPointTracker"),
    Entry("MochaBlend Tracking Data", "MochaBlend"),
    Entry("Motion Basic Transform Data", "MotionBasicTransform"),
    Entry("Motion Corner Pin", "MotionCornerPin"),
    Entry("Nuke Ascii", "NukeAscii"),
    Entry("Nuke Corner Pin", "NukeCornerPin"),
    Entry("Nuke PowerMesh to Tracker Data", "NukePowerMesh"),
    Entry("Nuke Tracker Data - 7.0+", "Nuke7Tracker"),
    Entry("Quantel Corner Pin Data", "QuantelCornerPin"),
    Entry("SCRATCH Corner Pin Data", "AssimilateSCRATCHCornerPin"),
    Entry("Shake Tracking Data", "ShakeScript"),
    Entry("Silhouette Corner Pin", "SilhouetteCornerPin"),
    Entry("SynthEyes 2D Tracker Data", "SynthEyes2DTracker")
  ]

  /** `SHAPE_MAPPING_2025`, in source order. */
  const ShapeMapping2025: seq<Entry> := [
    Entry("After Effects Mask Data", "AfxMask"),
    Entry("Combustion GMask Script", "CombustionGMask"),
    Entry("Final Cut Mocha Shape Data - 7.0.0", "FinalCutMochaShape"),
    Entry("Flame Gmask Script", "FlameGMask"),
    Entry("Flame Tracer [Basic]", "FlameTracerBasic"),
    Entry("Flame Tracer [Shape & Axis]", "FlameTracerShapeAxis"),
    Entry("Fusion MultiPoly Shape Data", "FusionMultiPoly"),
    Entry("Fusion Poly Shape Data", "FusionShapes"),
    Entry("HitFilm Mask Data", "HitFilmTransformShape"),
    Entry("MochaBlend Shape Data", "MochaBlend"),
    Entry("Nuke Roto [Basic]", "NukeRotoBasic"),
    Entry("Nuke Roto [Transform & Shape]-6.2+", "NukeRotoTransformShape"),
    Entry("Nuke RotoPaint [Basic]", "NukeRotoPaintBasic"),
    Entry("Nuke RotoPaint [Transform & Shape] - 6.2+", "NukeRotoPaint"),
    Entry("Nuke SplineWarp", "NukeSplineWarp"),
    Entry("Premiere Shape Data", "PremiereShape"),
    Entry("Shake RotoShape", "ShapeRotoshape"),
    Entry("Silhouette Shape Data", "SilhouetteShapes")
  ]

  const ShapeKind: string := "shape"
  const TrackingKind: string := "tracking"
  const Version2024: string := "2024.5"
  const Version2025: string := "2025"

  /** `EXPORTER_MAPPING`: kind, then version, then the table. */
  const ExporterMapping: map<string, map<string, seq<Entry>>> := map[
    ShapeKind := map[
      Version2024 := LegacyEntries(ShapeMapping2024),
      Version2025 := ShapeMapping2025],
    TrackingKind := map[
      Version2024 := LegacyEntries(TrackingMapping2024),
      Version2025 := TrackingMapping2025]]

  /** `EXPORTER_MAPPING` has the two kinds, each with exactly the two versions. */
  lemma MappingKeys()
    ensures ExporterMapping.Keys == {ShapeKind, TrackingKind}
    ensures forall k | k in ExporterMapping :: ExporterMapping[k].Keys == {Version2024, Version2025}
  {
  }

  /**
   * `table.get(key)` for a table written as a dict display: when a label
   * were written twice the later entry would win.
   */
  function Lookup(t: seq<Entry>, key: string): (r: Option<string>)
    ensures r.None? <==> forall i | 0 <= i < |t| :: t[i].exporter != key
    ensures r.Some? ==> exists i | 0 <= i < |t| :: t[i] == Entry(key, r.value)
                                                   && forall k | i < k < |t| :: t[k].exporter != key
  {
    if |t| == 0 then None
    else if t[|t| - 1].exporter == key then Some(t[|t| - 1].name)
    else Lookup(t[..|t| - 1], key)
  }

  /** The pre-2025 extensions are non-empty words; the tables are checked twelve rows at a time. */
  lemma TrackingMapping2024Exts0()
    ensures forall i | 0 <= i < 12 :: IsWord(TrackingMapping2024[i].ext)
  {
  }

  lemma TrackingMapping2024Exts1()
    ensures forall i | 12 <= i < 24 :: IsWord(TrackingMapping2024[i].ext)
  {
  }

  lemma TrackingMapping2024Exts2()
    ensures forall i | 24 <= i < 34 :: IsWord(TrackingMapping2024[i].ext)
  {
  }

  lemma ShapeMapping2024Exts0()
    ensures forall i | 0 <= i < 12 :: IsWord(ShapeMapping2024[i].ext)
  {
  }

  lemma ShapeMapping2024Exts1()
    ensures forall i | 12 <= i < 18 :: IsWord(ShapeMapping2024[i].ext)
  {
  }

  /** A non-empty run of word characters, as `\w+` matches it. */
  predicate IsWord(s: string) {
    |s| >= 1 && forall i | 0 <= i < |s| :: IsWordChar(s[i])
  }

  /** Every pre-2025 extension is a non-empty word. */
  lemma ExtensionsAreWords()
    ensures forall i | 0 <= i < |TrackingMapping2024| :: IsWord(TrackingMapping2024[i].ext)
    ensures forall i | 0 <= i < |ShapeMapping2024| :: IsWord(ShapeMapping2024[i].ext)
  {
    TrackingMapping2024Exts0(); TrackingMapping2024Exts1(); TrackingMapping2024Exts2();
    ShapeMapping2024Exts0(); ShapeMapping2024Exts1();
  }

  /**
   * A pre-2025 label yields its row's extension through the extension
   * pattern, provided its name part is a single line.
   */
  lemma LegacyLabelsYieldExtension()
    ensures forall i | 0 <= i < |TrackingMapping2024| && '\n' !in TrackingMapping2024[i].stem ::
              Extension(LegacyEntry(TrackingMapping2024[i]).exporter) == Some(TrackingMapping2024[i].ext)
    ensures forall i | 0 <= i < |ShapeMapping2024| && '\n' !in ShapeMapping2024[i].stem ::
              Extension(LegacyEntry(ShapeMapping2024[i]).exporter) == Some(ShapeMapping2024[i].ext)
  {
    ExtensionsAreWords();
    forall i | 0 <= i < |TrackingMapping2024| && '\n' !in TrackingMapping2024[i].stem
      ensures Extension(LegacyEntry(TrackingMapping2024[i]).exporter) == Some(TrackingMapping2024[i].ext)
    {
      LegacyLabelExtension(TrackingMapping2024[i].stem, TrackingMapping2024[i].ext);
    }
    forall i | 0 <= i < |ShapeMapping2024| && '\n' !in ShapeMapping2024[i].stem
      ensures Extension(LegacyEntry(ShapeMapping2024[i]).exporter) == Some(ShapeMapping2024[i].ext)
    {
      LegacyLabelExtension(ShapeMapping2024[i].stem, ShapeMapping2024[i].ext);
    }
  }
}
