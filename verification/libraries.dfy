/** Where the compile command finds the libraries it links against and the
    DLLs it ships: the prebuilt PyQt and sip trees, the Qt installation next
    to qmake, and the Python directory. */
module Libraries {
  import opened Text
  import WinPath
  import opened Options

  const PyQtDir := "PyQt5_gpl-5.9.1"
  const SipDir := "sip-4.19.5"
  const SipLibDir := "siplib"
  const ReleaseDir := "release"

  /** The module that pulls in extra Qt DLLs, and the DLL modules it needs. */
  const QtQuick := "QtQuick"
  const QtQuickCompanions: seq<string> := ["QtQuickControls2", "QtQuickTemplates2"]

  /** The PyQt module that has no Qt DLL of its own. */
  const QtPackageModule := "Qt"

  /** Import library directory of one PyQt module: `prebuilt/PyQt5_gpl-5.9.1/<module>/release`.
      With plain component names it is spelled out with backslashes. */
  function PyQtLibPath(prebuilt: string, name: string): (r: string)
    ensures WinPath.Component(prebuilt) && WinPath.Component(name) ==>
      && r == prebuilt + "\\PyQt5_gpl-5.9.1\\" + name + "\\release"
      && WinPath.Component(r)
  {
    if WinPath.Component(prebuilt) && WinPath.Component(name) then
      WinPath.JoinComponents(prebuilt, PyQtDir);
      WinPath.JoinComponents(WinPath.Join(prebuilt, PyQtDir), name);
      WinPath.JoinComponents(WinPath.Join3(prebuilt, PyQtDir, name), ReleaseDir);
      WinPath.Join(WinPath.Join3(prebuilt, PyQtDir, name), ReleaseDir)
    else
      WinPath.Join(WinPath.Join3(prebuilt, PyQtDir, name), ReleaseDir)
  }

  /** `_get_pyqt_lib_paths`: one library directory per module, in module order. */
  function PyQtLibPaths(prebuilt: string, modules: seq<string>): (r: seq<string>)
    ensures |r| == |modules|
    ensures forall i :: 0 <= i < |r| ==> r[i] == PyQtLibPath(prebuilt, modules[i])
  {
    seq(|modules|, i requires 0 <= i < |modules| => PyQtLibPath(prebuilt, modules[i]))
  }

  /** `_get_sip_lib_path`: `prebuilt/sip-4.19.5/siplib`, spelled out with
      backslashes for a plain prebuilt directory. */
  function SipLibPath(prebuilt: string): (r: string)
    ensures WinPath.Component(prebuilt) ==>
      r == prebuilt + "\\sip-4.19.5\\siplib" && WinPath.Component(r)
  {
    if WinPath.Component(prebuilt) then
      WinPath.JoinComponents(prebuilt, SipDir);
      WinPath.JoinComponents(WinPath.Join(prebuilt, SipDir), SipLibDir);
      WinPath.Join3(prebuilt, SipDir, SipLibDir)
    else
      WinPath.Join3(prebuilt, SipDir, SipLibDir)
  }

  /** The fixed file and module names contain no separator. */
  lemma FixedNamesPlain()
    ensures WinPath.NoSep("sip.pyd") && WinPath.NoSep("python3.dll") && WinPath.NoSep("python36.dll")
    ensures WinPath.NoSep(QtQuickCompanions[0]) && WinPath.NoSep(QtQuickCompanions[1])
  {
  }

  /** The module list without the `Qt` module, order and repetitions kept. */
  function DropQtModule(ms: seq<string>): (r: seq<string>)
    ensures forall m :: m in r <==> m in ms && m != QtPackageModule
    ensures |r| + multiset(ms)[QtPackageModule] == |ms|
    ensures multiset(r) == multiset(ms)[QtPackageModule := 0]
  {
    if |ms| == 0 then []
    else
      var rest := DropQtModule(ms[1..]);
      assert ms == [ms[0]] + ms[1..];
      if ms[0] == QtPackageModule then rest else [ms[0]] + rest
  }

  /** A single module is kept exactly when it is not `Qt`. */
  lemma DropQtModuleSingle(m: string)
    ensures DropQtModule([m]) == if m == QtPackageModule then [] else [m]
  {
    assert [m][1..] == [];
  }

  /** Dropping `Qt` works piecewise, so the kept modules stay in their order. */
  lemma {:induction false} DropQtModuleAppend(a: seq<string>, b: seq<string>)
    ensures DropQtModule(a + b) == DropQtModule(a) + DropQtModule(b)
    decreases |a|
  {
    if |a| == 0 {
      assert a + b == b;
    } else {
      var ab := a + b;
      assert ab[0] == a[0] && ab[1..] == a[1..] + b;
      DropQtModuleAppend(a[1..], b);
      if a[0] == QtPackageModule {
        assert DropQtModule(ab) == DropQtModule(a[1..] + b);
      } else {
        assert DropQtModule(ab) == [a[0]] + DropQtModule(a[1..] + b);
      }
    }
  }

  /** The modules whose Qt DLLs are shipped: the requested ones plus the
      QtQuick companions when QtQuick is requested, without `Qt`. */
  function QtDllModules(ms: seq<string>): (r: seq<string>)
    ensures QtPackageModule !in r
    ensures forall m :: m in ms && m != QtPackageModule ==> m in r
    ensures forall c :: c in QtQuickCompanions ==> (c in r <==> QtQuick in ms || c in ms)
    ensures forall m :: m in r ==> m in ms || (QtQuick in ms && m in QtQuickCompanions)
    ensures |r| == |ms| - multiset(ms)[QtPackageModule] + (if QtQuick in ms then 2 else 0)
    ensures multiset(r) == (multiset(ms) + multiset(if QtQuick in ms then QtQuickCompanions else []))
                             [QtPackageModule := 0]
  {
    assert multiset(WithCompanions(ms))[QtPackageModule] == multiset(ms)[QtPackageModule];
    DropQtModule(WithCompanions(ms))
  }

  /** The requested modules, followed by the QtQuick companions when QtQuick is requested. */
  function WithCompanions(ms: seq<string>): (r: seq<string>)
  {
    ms + (if QtQuick in ms then QtQuickCompanions else [])
  }

  /** File name of a Qt DLL: every "Qt" in the module name becomes "Qt5". */
  function QtDllName(m: string): (r: string)
  {
    Replace(m, "Qt", "Qt5") + ".dll"
  }

  /** Distinct modules never share a Qt DLL name. */
  lemma QtDllNamesDistinct(a: string, b: string)
    requires a != b
    ensures QtDllName(a) != QtDllName(b)
  {
    if QtDllName(a) == QtDllName(b) {
      var ra := Replace(a, "Qt", "Qt5");
      var rb := Replace(b, "Qt", "Qt5");
      assert ra == QtDllName(a)[..|ra|] && rb == QtDllName(b)[..|rb|];
      QtRenameInjective(a, b);
    }
  }

  /** A module name without "Qt" in it ships under its own name. */
  lemma QtDllNameWithoutQt(m: string)
    requires !Occurs("Qt", m)
    ensures QtDllName(m) == m + ".dll"
  {
    ReplaceAbsent(m, "Qt", "Qt5");
  }

  /** The usual module names, "Qt" followed by a name without another "Qt"
      (such as "QtCore"), ship as "Qt5" followed by that name (such as
      "Qt5Core.dll"). */
  lemma QtDllNameOfQtModule(suffix: string)
    requires !Occurs("Qt", suffix)
    ensures QtDllName("Qt" + suffix) == "Qt5" + suffix + ".dll"
  {
    var m := "Qt" + suffix;
    assert m[..2] == "Qt" && m[2..] == suffix;
    ReplaceAbsent(suffix, "Qt", "Qt5");
  }

  /** The PyQt extension DLL of each module, inside that module's library directory. */
  function PyQtDlls(prebuilt: string, ms: seq<string>): (r: seq<string>)
    ensures |r| == |ms|
    ensures forall i :: 0 <= i < |ms| ==> r[i] == WinPath.Join(PyQtLibPath(prebuilt, ms[i]), ms[i] + ".dll")
  {
    var libs := PyQtLibPaths(prebuilt, ms);
    seq(|ms|, i requires 0 <= i < |ms| => WinPath.Join(libs[i], ms[i] + ".dll"))
  }

  function SipDll(prebuilt: string): (r: string)
  {
    WinPath.Join(SipLibPath(prebuilt), "sip.pyd")
  }

  /** The Qt DLLs, in the directory that holds qmake. */
  function QtDlls(qmakePath: string, ms: seq<string>): (r: seq<string>)
    ensures |r| == |QtDllModules(ms)|
    ensures forall k :: 0 <= k < |r| ==>
      r[k] == WinPath.Join(WinPath.Dirname(qmakePath), QtDllName(QtDllModules(ms)[k]))
  {
    var mods := QtDllModules(ms);
    seq(|mods|, i requires 0 <= i < |mods| => WinPath.Join(WinPath.Dirname(qmakePath), QtDllName(mods[i])))
  }

  /** The Python runtime DLLs, `python3.dll` and `python36.dll`, in the Python directory. */
  function PythonDlls(pythonDir: string): (r: seq<string>)
    ensures |r| == 2
  {
    [WinPath.Join(pythonDir, "python3.dll"), WinPath.Join(pythonDir, "python36.dll")]
  }

  /** `_get_dll_paths`: the PyQt DLLs, then sip, then the Qt DLLs, then the
      two Python DLLs. */
  function DllPaths(o: Options): (r: seq<string>)
    ensures |r| == |o.qtModules| + 1 + |QtDllModules(o.qtModules)| + 2
    ensures forall i :: 0 <= i < |o.qtModules| ==>
      r[i] == WinPath.Join(PyQtLibPath(o.prebuiltLibrariesDir, o.qtModules[i]), o.qtModules[i] + ".dll")
    ensures r[|o.qtModules|] == WinPath.Join(SipLibPath(o.prebuiltLibrariesDir), "sip.pyd")
    ensures forall k :: 0 <= k < |QtDllModules(o.qtModules)| ==>
      r[|o.qtModules| + 1 + k] ==
        WinPath.Join(WinPath.Dirname(o.qmakePath), QtDllName(QtDllModules(o.qtModules)[k]))
    ensures r[|r| - 2] == WinPath.Join(o.pythonDir, "python3.dll")
    ensures r[|r| - 1] == WinPath.Join(o.pythonDir, "python36.dll")
  {
    PyQtDlls(o.prebuiltLibrariesDir, o.qtModules) + [SipDll(o.prebuiltLibrariesDir)]
      + QtDlls(o.qmakePath, o.qtModules) + PythonDlls(o.pythonDir)
  }

  /** One PyQt DLL per module, one for sip, one Qt DLL per module other than
      `Qt` plus two for QtQuick, and two for Python. */
  lemma DllCount(o: Options)
    ensures |DllPaths(o)| == 2 * |o.qtModules| + 3 - multiset(o.qtModules)[QtPackageModule]
                             + (if QtQuick in o.qtModules then 2 else 0)
  {
  }

  /** A name free of separators. */
  lemma DllNameNoSep(m: string)
    requires WinPath.NoSep(m)
    ensures WinPath.NoSep(m + ".dll")
    ensures WinPath.NoSep(QtDllName(m))
  {
    ReplaceChars(m, "Qt", "Qt5");
    var r := Replace(m, "Qt", "Qt5");
    assert forall i :: 0 <= i < |r| ==> r[i] in r;
    assert forall i :: 0 <= i < |m| ==> m[i] in m;
  }

  /** Plain module names: non-empty, no separator anywhere. */
  predicate PlainModules(ms: seq<string>)
  {
    forall i :: 0 <= i < |ms| ==> |ms[i]| > 0 && WinPath.NoSep(ms[i])
  }

  /** The i-th PyQt DLL is named after the i-th module and sits in that
      module's library directory. */
  lemma PyQtDllLayout(prebuilt: string, ms: seq<string>, i: nat)
    requires WinPath.Component(prebuilt) && PlainModules(ms) && i < |ms|
    ensures PyQtDlls(prebuilt, ms)[i] == WinPath.Join(PyQtLibPath(prebuilt, ms[i]), ms[i] + ".dll")
    ensures WinPath.Dirname(PyQtDlls(prebuilt, ms)[i]) == PyQtLibPath(prebuilt, ms[i])
  {
    var m := ms[i];
    assert WinPath.Component(m);
    DllNameNoSep(m);
    WinPath.DirnameOfJoin(PyQtLibPath(prebuilt, m), m + ".dll");
  }

  /** Every Qt DLL sits in the directory that holds qmake. */
  lemma QtDllLayout(qmakePath: string, ms: seq<string>, k: nat)
    requires WinPath.Component(WinPath.Dirname(qmakePath)) && PlainModules(ms)
    requires k < |QtDllModules(ms)|
    ensures WinPath.Dirname(QtDlls(qmakePath, ms)[k]) == WinPath.Dirname(qmakePath)
  {
    var mods := QtDllModules(ms);
    var m := mods[k];
    assert m in mods;
    if m in ms {
      var j :| 0 <= j < |ms| && ms[j] == m;
    } else {
      assert m == QtQuickCompanions[0] || m == QtQuickCompanions[1];
      FixedNamesPlain();
    }
    DllNameNoSep(m);
    WinPath.DirnameOfJoin(WinPath.Dirname(qmakePath), QtDllName(m));
  }

  /** Preconditions under which the shipped DLL paths are laid out plainly. */
  predicate PlainLayout(o: Options)
  {
    && WinPath.Component(o.prebuiltLibrariesDir) && WinPath.Component(o.pythonDir)
    && WinPath.Component(WinPath.Dirname(o.qmakePath))
    && PlainModules(o.qtModules)
  }

  lemma DllPathsPyQt(o: Options, i: nat)
    requires PlainLayout(o) && i < |o.qtModules|
    ensures DllPaths(o)[i] == WinPath.Join(PyQtLibPath(o.prebuiltLibrariesDir, o.qtModules[i]), o.qtModules[i] + ".dll")
    ensures WinPath.Dirname(DllPaths(o)[i]) == PyQtLibPath(o.prebuiltLibrariesDir, o.qtModules[i])
  {
    assert DllPaths(o)[i] == PyQtDlls(o.prebuiltLibrariesDir, o.qtModules)[i];
    PyQtDllLayout(o.prebuiltLibrariesDir, o.qtModules, i);
  }

  lemma DllPathsSip(o: Options)
    requires PlainLayout(o)
    ensures WinPath.Dirname(DllPaths(o)[|o.qtModules|]) == SipLibPath(o.prebuiltLibrariesDir)
  {
    assert DllPaths(o)[|o.qtModules|] == SipDll(o.prebuiltLibrariesDir);
    FixedNamesPlain();
    WinPath.DirnameOfJoin(SipLibPath(o.prebuiltLibrariesDir), "sip.pyd");
  }

  lemma DllPathsQt(o: Options, i: nat)
    requires PlainLayout(o) && |o.qtModules| < i <= |o.qtModules| + |QtDllModules(o.qtModules)|
    ensures WinPath.Dirname(DllPaths(o)[i]) == WinPath.Dirname(o.qmakePath)
  {
    var k := i - |o.qtModules| - 1;
    var qt := QtDlls(o.qmakePath, o.qtModules);
    assert i == |o.qtModules| + 1 + k && k < |qt|;
    assert DllPaths(o)[i] == qt[k];
    QtDllLayout(o.qmakePath, o.qtModules, k);
  }

  lemma PythonDllsLayout(pythonDir: string)
    requires WinPath.Component(pythonDir)
    ensures forall p :: p in PythonDlls(pythonDir) ==> WinPath.Dirname(p) == pythonDir
  {
    FixedNamesPlain();
    WinPath.DirnameOfJoin(pythonDir, "python3.dll");
    WinPath.DirnameOfJoin(pythonDir, "python36.dll");
  }

  lemma DllPathsPython(o: Options)
    requires PlainLayout(o)
    ensures var r := DllPaths(o);
      WinPath.Dirname(r[|r| - 2]) == o.pythonDir && WinPath.Dirname(r[|r| - 1]) == o.pythonDir
  {
    var r := DllPaths(o);
    var py := PythonDlls(o.pythonDir);
    assert r[|r| - 2] == py[0] && r[|r| - 1] == py[1];
    PythonDllsLayout(o.pythonDir);
  }

  /** Where each shipped DLL comes from: the i-th PyQt DLL is named after the
      i-th module and sits in that module's library directory, then comes
      sip's, then the Qt DLLs from qmake's directory, and the Python DLLs
      from the Python directory. */
  lemma DllPathsLayout(o: Options)
    requires PlainLayout(o)
    ensures var r := DllPaths(o); var n := |o.qtModules|;
      && (forall i :: 0 <= i < n ==>
            WinPath.Dirname(r[i]) == PyQtLibPath(o.prebuiltLibrariesDir, o.qtModules[i])
            && r[i] == WinPath.Join(PyQtLibPath(o.prebuiltLibrariesDir, o.qtModules[i]), o.qtModules[i] + ".dll"))
      && WinPath.Dirname(r[n]) == SipLibPath(o.prebuiltLibrariesDir)
      && (forall i :: n < i < |r| - 2 ==> WinPath.Dirname(r[i]) == WinPath.Dirname(o.qmakePath))
      && WinPath.Dirname(r[|r| - 2]) == o.pythonDir && WinPath.Dirname(r[|r| - 1]) == o.pythonDir
  {
    forall i | 0 <= i < |o.qtModules| {
      DllPathsPyQt(o, i);
    }
    DllPathsSip(o);
    forall i | |o.qtModules| < i < |DllPaths(o)| - 2 {
      DllPathsQt(o, i);
    }
    DllPathsPython(o);
  }
}
