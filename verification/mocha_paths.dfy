/**
 * `CollectMochaPaths`: from the Mocha Pro executable, the bundled Python
 * interpreter and the export script, laid out per platform under the
 * install directory. The executable's location and `platform.system()`
 * come from the host and are parameters.
 */
module CollectMochaPaths {
  import opened Wrappers
  import opened Errors
  import opened Text
  import opened Paths

  /** The context keys `process` sets: the executable always, the other two on a known platform. */
  datatype Collected = Collected(executable: Path, python: Option<Path>, exporter: Option<Path>)

  /** What the context holds afterwards, and whether `process` raised. */
  datatype Outcome = Outcome(stored: Collected, result: Result<(), Error>)

  /** The install directory: two levels above the executable. */
  function InstallDir(exe: Path): Path {
    Parent(Parent(exe))
  }

  /** The interpreter and the export script under `install`, or `None` for an unsupported platform. */
  function Layout(install: Path, system: string): Option<(Path, Path)> {
    if system == "windows" then
      Some((Div(Div(install, "python"), "python.exe"), Div(Div(install, "python"), "mochaexport.py")))
    else if system == "darwin" then
      Some((Div(install, "python3"), Div(install, "mochaexport.py")))
    else if system == "linux" then
      Some((Div(Div(Div(install, "python"), "bin"), "python3"), Div(Div(install, "python"), "mochaexport.py")))
    else None
  }

  /**
   * `process`: the executable path is stored first; the platform, compared
   * in lower case, then picks the layout, and any other platform raises
   * `NotImplementedError` naming it as reported, before the other two
   * paths are stored.
   */
  function Process(exe: string, platform: string): (o: Outcome)
    ensures o.stored.executable == Parse(exe)
    ensures o.result.Ok? <==> Lower(platform) == "windows" || Lower(platform) == "darwin" || Lower(platform) == "linux"
    ensures o.result.Err? ==>
              && o.result.error == NotImplementedError("Unsupported platform: " + platform)
              && o.stored.python.None? && o.stored.exporter.None?
    ensures o.result.Ok? ==> o.stored.python.Some? && o.stored.exporter.Some?
  {
    var install := InstallDir(Parse(exe));
    match Layout(install, Lower(platform))
    case Some((python, exporter)) => Outcome(Collected(Parse(exe), Some(python), Some(exporter)), Ok(()))
    case None =>
      Outcome(Collected(Parse(exe), None, None), Err(NotImplementedError("Unsupported platform: " + platform)))
  }

  /** Lower-casing twice is lower-casing once. */
  lemma LowerIdempotent(s: string)
    ensures Lower(Lower(s)) == Lower(s)
  {
    forall i | 0 <= i < |s| ensures Lower(Lower(s))[i] == Lower(s)[i] {
      assert ToLower(ToLower(s[i])) == ToLower(s[i]);
    }
  }

  /** The platform name matches in any letter case: only the error text keeps the reported spelling. */
  lemma PlatformCaseInsensitive(exe: string, platform: string)
    ensures Process(exe, platform).stored == Process(exe, Lower(platform)).stored
    ensures Process(exe, platform).result.Ok? == Process(exe, Lower(platform)).result.Ok?
  {
    LowerIdempotent(platform);
  }

  /** On Windows both files sit in `python` under the install directory. */
  lemma WindowsLayout(install: Path)
    ensures var (python, exporter) := Layout(install, "windows").value;
            && Name(python) == "python.exe" && Name(exporter) == "mochaexport.py"
            && Parent(python) == Div(install, "python") && Parent(exporter) == Div(install, "python")
            && Parent(Parent(python)) == install
  {
    assert IsPart("python") && IsPart("python.exe") && IsPart("mochaexport.py");
    NameParentDiv(install, "python");
    NameParentDiv(Div(install, "python"), "python.exe");
    NameParentDiv(Div(install, "python"), "mochaexport.py");
  }

  /** On macOS both files sit directly in the install directory. */
  lemma DarwinLayout(install: Path)
    ensures var (python, exporter) := Layout(install, "darwin").value;
            && Name(python) == "python3" && Name(exporter) == "mochaexport.py"
            && Parent(python) == install && Parent(exporter) == install
  {
    assert IsPart("python3") && IsPart("mochaexport.py");
    NameParentDiv(install, "python3");
    NameParentDiv(install, "mochaexport.py");
  }

  /** On Linux the interpreter sits in `python/bin` under the install directory. */
  lemma LinuxInterpreter(install: Path)
    ensures var python := Layout(install, "linux").value.0;
            && Name(python) == "python3"
            && Parent(python) == Div(Div(install, "python"), "bin")
            && Parent(Parent(Parent(python))) == install
  {
    assert IsPart("python") && IsPart("bin") && IsPart("python3");
    NameParentDiv(install, "python");
    NameParentDiv(Div(install, "python"), "bin");
    NameParentDiv(Div(Div(install, "python"), "bin"), "python3");
  }

  /** On Linux the export script sits in `python` under the install directory. */
  lemma LinuxScript(install: Path)
    ensures var exporter := Layout(install, "linux").value.1;
            && Name(exporter) == "mochaexport.py" && Parent(exporter) == Div(install, "python")
  {
    assert IsPart("mochaexport.py");
    NameParentDiv(Div(install, "python"), "mochaexport.py");
  }
}
