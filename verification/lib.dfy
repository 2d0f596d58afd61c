/**
 * `ayon_mocha.api.lib`: the keyword check and command line of `run_mocha`,
 * and the order and ids of `get_exporters`. Starting the process, the Qt
 * calls and the placeholder clip are host I/O and stay outside.
 */
module MochaLib {
  import opened Wrappers
  import opened Errors
  import opened Text

  /** `ExporterInfo`: the hash id, the label, and the registered exporter as an opaque handle. */
  datatype ExporterInfo = ExporterInfo(id: string, labelText: string, exporter: nat)

  /** One keyword argument of `run_mocha`: its name and `str(value)`. */
  datatype Arg = Arg(key: string, value: string)

  /** `available_args`: keyword name to command-line option. */
  const AvailableArgs: map<string, string> := map[
    "in_point" := "in",
    "out_point" := "out",
    "frame_rate" := "frame-rate",
    "par" := "par",
    "interlace_mode" := "interlace-mode"]

  /** Keyword names are distinct, as they are in a call's `**kwargs`. */
  predicate DistinctKeys(args: seq<Arg>) {
    forall i, j | 0 <= i < j < |args| :: args[i].key != args[j].key
  }

  /** The keywords outside `available_args`, in call order. */
  function Unknown(args: seq<Arg>): (r: seq<string>)
    ensures forall k :: k in r <==> exists i | 0 <= i < |args| :: args[i].key == k && k !in AvailableArgs
  {
    if |args| == 0 then []
    else
      var rest := Unknown(args[..|args| - 1]);
      var last := args[|args| - 1];
      assert forall i | 0 <= i < |args| - 1 :: args[..|args| - 1][i] == args[i];
      if last.key in AvailableArgs then rest else rest + [last.key]
  }

  /**
   * The error text as written: two adjacent literals are one string, so the
   * whole `"No such parameters: , "` is the separator of the join.
   */
  function NoSuchParametersAsWritten(unknown: seq<string>): string {
    Join(unknown, "No such parameters: , ")
  }

  /** A single unknown keyword is reported as its bare name, without the prefix. */
  lemma NoSuchParametersDropsPrefix()
    ensures NoSuchParametersAsWritten(["foo"]) == "foo"
    ensures NoSuchParametersAsWritten(["foo"]) != NoSuchParameters(["foo"])
  {
    assert NoSuchParameters(["foo"])[..4] == "No s";
  }

  /** The intended error text: the prefix, then the unknown names joined by a comma. */
  function NoSuchParameters(unknown: seq<string>): (r: string)
    ensures |r| >= 20 && r[..20] == "No such parameters: "
  {
    "No such parameters: " + Join(unknown, ", ")
  }

  /** The option pairs: `--<option>` and the value, for each keyword in call order. */
  function Options(args: seq<Arg>): (r: seq<string>)
    requires forall i | 0 <= i < |args| :: args[i].key in AvailableArgs
    ensures |r| == 2 * |args|
    ensures forall i | 0 <= i < |args| ::
              r[2 * i] == "--" + AvailableArgs[args[i].key] && r[2 * i + 1] == args[i].value
  {
    if |args| == 0 then []
    else
      var rest := Options(args[..|args| - 1]);
      var last := args[|args| - 1];
      assert forall i | 0 <= i < |args| - 1 :: args[..|args| - 1][i] == args[i];
      rest + ["--" + AvailableArgs[last.key], last.value]
  }

  /**
   * `run_mocha` up to the process start: `None` when the executable is not a
   * file (nothing is checked then), a `ValueError` for an unknown keyword,
   * otherwise the command line.
   */
  function RunMocha(isFile: bool, mochaPath: string, footagePath: string, args: seq<Arg>)
    : (r: Result<Option<seq<string>>, Error>)
    requires DistinctKeys(args)
    ensures !isFile ==> r == Ok(None)
    ensures isFile ==> (r.Err? <==> exists i | 0 <= i < |args| :: args[i].key !in AvailableArgs)
    ensures r.Err? ==> r.error == ValueError(NoSuchParameters(Unknown(args)))
    ensures r.Ok? && r.value.Some? ==>
              var argv := r.value.value;
              |argv| == 1 + 2 * |args| + (if footagePath == "" then 0 else 1)
              && argv[0] == mochaPath
              && (forall i | 0 <= i < |args| ::
                    argv[1 + 2 * i] == "--" + AvailableArgs[args[i].key]
                    && argv[2 + 2 * i] == args[i].value)
              && (footagePath != "" ==> argv[|argv| - 1] == footagePath)
  {
    if !isFile then Ok(None)
    else
      var unknown := Unknown(args);
      if |unknown| > 0 then
        assert unknown[0] in unknown;
        Err(ValueError(NoSuchParameters(unknown)))
      else
        assert forall i | 0 <= i < |args| :: args[i].key in AvailableArgs;
        var cmd := [mochaPath] + Options(args);
        Ok(Some(if footagePath != "" then cmd + [footagePath] else cmd))
  }

  /** Python's `<=` on strings: code point by code point, a prefix first. */
  predicate LexLe(a: string, b: string) {
    |a| == 0 || (|b| > 0 && (a[0] < b[0] || (a[0] == b[0] && LexLe(a[1..], b[1..]))))
  }

  lemma {:induction false} LexLeTotal(a: string, b: string)
    ensures LexLe(a, b) || LexLe(b, a)
  {
    if |a| > 0 && |b| > 0 && a[0] == b[0] {
      LexLeTotal(a[1..], b[1..]);
    }
  }

  lemma {:induction false} LexLeTransitive(a: string, b: string, c: string)
    requires LexLe(a, b) && LexLe(b, c)
    ensures LexLe(a, c)
  {
    if |a| > 0 && a[0] == b[0] && b[0] == c[0] {
      LexLeTransitive(a[1..], b[1..], c[1..]);
    }
  }

  /** A registered exporter: its label (the registry key) and the exporter. */
  datatype Registered = Registered(labelText: string, exporter: nat)

  /** Labels in non-decreasing order. */
  predicate SortedByLabel(s: seq<Registered>) {
    forall i, j | 0 <= i < j < |s| :: LexLe(s[i].labelText, s[j].labelText)
  }

  /** Put `x` in front of the first entry whose label is not below it. */
  function Insert(x: Registered, s: seq<Registered>): (r: seq<Registered>)
    ensures multiset(r) == multiset(s) + multiset{x}
  {
    if |s| == 0 then [x]
    else if LexLe(x.labelText, s[0].labelText) then [x] + s
    else
      assert s == [s[0]] + s[1..];
      [s[0]] + Insert(x, s[1..])
  }

  /** Inserting into a sorted registry keeps it sorted. */
  lemma {:induction false} InsertSorted(x: Registered, s: seq<Registered>)
    requires SortedByLabel(s)
    ensures SortedByLabel(Insert(x, s))
  {
    if |s| == 0 {
    } else if LexLe(x.labelText, s[0].labelText) {
      forall j | 0 < j < |s| ensures LexLe(x.labelText, s[j].labelText) {
        LexLeTransitive(x.labelText, s[0].labelText, s[j].labelText);
      }
    } else {
      var rest := Insert(x, s[1..]);
      InsertSorted(x, s[1..]);
      LexLeTotal(x.labelText, s[0].labelText);
      assert s == [s[0]] + s[1..];
      forall j | 0 <= j < |rest| ensures LexLe(s[0].labelText, rest[j].labelText) {
        assert rest[j] in multiset(rest);
        assert rest[j] == x || rest[j] in s[1..];
      }
    }
  }

  /** `sorted(...)` of the registry: insertion sort by label. */
  function SortByLabel(s: seq<Registered>): (r: seq<Registered>)
    ensures multiset(r) == multiset(s)
    ensures SortedByLabel(r)
  {
    if |s| == 0 then []
    else
      assert s == [s[0]] + s[1..];
      var rest := SortByLabel(s[1..]);
      InsertSorted(s[0], rest);
      Insert(s[0], rest)
  }

  /**
   * `get_exporters`: one `ExporterInfo` per registered exporter, ordered by
   * label, with the id a fixed function (the hex SHA-256 digest) of the label.
   */
  function GetExporters(registry: seq<Registered>, digest: string -> string): (r: seq<ExporterInfo>)
    ensures |r| == |registry|
    ensures forall i | 0 <= i < |r| :: r[i].id == digest(r[i].labelText)
    ensures forall i, j | 0 <= i < j < |r| :: LexLe(r[i].labelText, r[j].labelText)
    ensures multiset(seq(|r|, i requires 0 <= i < |r| => Registered(r[i].labelText, r[i].exporter)))
            == multiset(registry)
  {
    var sorted := SortByLabel(registry);
    assert |sorted| == |multiset(sorted)| == |registry|;
    var r := seq(|sorted|, i requires 0 <= i < |sorted| => ExporterInfo(digest(sorted[i].labelText), sorted[i].labelText, sorted[i].exporter));
    assert seq(|r|, i requires 0 <= i < |r| => Registered(r[i].labelText, r[i].exporter)) == sorted;
    r
  }
}
