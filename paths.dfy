/**
 * Paths of the installation layout.
 *
 * A path is the list of its components, `[]` being the filesystem root.
 * The installer derives every location it touches from one install root:
 * `demo/`, `core/`, `install.log` and the two launcher scripts.
 */
module Paths {

  type Path = seq<string>

  /** The host's operating-system family, as `os.name == 'nt'` tells them apart. */
  datatype OsFamily = Windows | Posix

  /** The directory the installer creates under the user's home by default. */
  const DefaultRootName: string := "anarqq-ecosystem"

  function Parent(p: Path): Path
    requires p != []
  {
    p[..|p| - 1]
  }

  /** Name of the start script for each OS family. */
  function StartScriptName(os: OsFamily): string
  {
    if os == Windows then "start-demo.bat" else "start-demo.sh"
  }

  /** Name of the stop script for each OS family. */
  function StopScriptName(os: OsFamily): string
  {
    if os == Windows then "stop-services.bat" else "stop-services.sh"
  }

  /** The locations derived from one install root. */
  datatype Layout = Layout(installDir: Path) {

    function DemoDir(): Path { installDir + ["demo"] }

    function CoreDir(): Path { installDir + ["core"] }

    function LogFile(): Path { installDir + ["install.log"] }

    function StartScript(os: OsFamily): Path { installDir + [StartScriptName(os)] }

    function StopScript(os: OsFamily): Path { installDir + [StopScriptName(os)] }
  }

  /** The layout the installer starts with: `~/anarqq-ecosystem`. */
  function DefaultLayout(home: Path): (l: Layout)
    ensures l.installDir != [] && Parent(l.installDir) == home
    ensures l.installDir[|home|] == DefaultRootName
  {
    Layout(home + [DefaultRootName])
  }

  /**
   * Every derived location is a direct child of the install root, and no two
   * of them coincide or lie one inside another.
   */
  lemma LayoutSeparated(l: Layout, os: OsFamily)
    ensures Parent(l.DemoDir()) == l.installDir && Parent(l.CoreDir()) == l.installDir
    ensures Parent(l.LogFile()) == l.installDir
    ensures Parent(l.StartScript(os)) == l.installDir && Parent(l.StopScript(os)) == l.installDir
    ensures !(l.DemoDir() <= l.CoreDir()) && !(l.CoreDir() <= l.DemoDir())
    ensures !(l.DemoDir() <= l.StartScript(os)) && !(l.DemoDir() <= l.StopScript(os))
    ensures !(l.CoreDir() <= l.StartScript(os)) && !(l.CoreDir() <= l.StopScript(os))
    ensures l.LogFile() != l.DemoDir() && l.LogFile() != l.CoreDir()
    ensures l.LogFile() != l.StartScript(os) && l.LogFile() != l.StopScript(os)
    ensures l.StartScript(os) != l.StopScript(os)
  {
    var n := |l.installDir|;
    assert l.DemoDir()[n] == "demo" && l.CoreDir()[n] == "core";
    assert l.StartScript(os)[n] == StartScriptName(os) && l.StopScript(os)[n] == StopScriptName(os);
    assert l.LogFile()[n] == "install.log";
  }
}
