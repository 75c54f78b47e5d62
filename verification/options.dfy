/** The normalisations at the end of `finalize_options`, the arguments of
    the generated project file, and the caching of tool locations in
    `setup.user.cfg`. */
module Options {
  import opened Wrappers
  import opened Text
  import opened Settings
  import opened Validation

  /** Values of `win-console` that switch the console on, after lower-casing. */
  const TrueWords: seq<string> := ["1", "true", "t", "yes"]

  /** The installer settings handed to the installer script. */
  datatype AppConfig = AppConfig(
    appVersion: string,
    exeFilename: string,
    platform: string,
    appName: string,
    appIcon: Option<string>,
    resourcesDir: Option<string>)

  /** The command's options once `finalize_options` has succeeded. */
  datatype Options = Options(
    qmakePath: string,
    vcDir: string,
    platform: string,
    prebuiltLibrariesDir: string,
    pythonDir: string,
    innoSetupPath: string,
    qtModules: seq<string>,
    package: string,
    appName: string,
    appIcon: Option<string>,
    buildDir: string,
    resourcesDir: Option<string>,
    winConsole: bool,
    appConfig: AppConfig)

  /** The boolean-ish `win-console` value: a non-empty value whose lower-case
      form is one of `TrueWords`. */
  function ParseWinConsole(raw: Option<string>): (r: bool)
    ensures !Given(raw) ==> !r
    ensures raw.Some? && raw.value in TrueWords ==> r
  {
    assert forall w, i :: w in TrueWords && 0 <= i < |w| ==> LowerChar(w[i]) == w[i];
    assert forall w :: w in TrueWords ==> Lower(w) == w;
    Given(raw) && Lower(raw.value) in TrueWords
  }

  /** Equal up to the case of ASCII letters. */
  predicate EqualIgnoringCase(a: string, b: string)
  {
    |a| == |b| && forall i :: 0 <= i < |a| ==> LowerChar(a[i]) == LowerChar(b[i])
  }

  /** The console is on exactly when the value spells one of the accepted
      words in any mix of letter case. */
  lemma WinConsoleIgnoresCase(raw: Option<string>)
    ensures ParseWinConsole(raw) <==>
      raw.Some? && exists w :: w in TrueWords && EqualIgnoringCase(raw.value, w)
  {
    if raw.Some? {
      var s := raw.value;
      if ParseWinConsole(raw) {
        var w := Lower(s);
        assert EqualIgnoringCase(s, w);
      }
      if w :| w in TrueWords && EqualIgnoringCase(s, w) {
        assert forall i :: 0 <= i < |w| ==> LowerChar(w[i]) == w[i];
        assert Lower(s) == w;
      }
    }
  }

  /** `s.replace(' ', '')`. */
  function RemoveSpaces(s: string): (r: string)
  {
    Replace(s, " ", "")
  }

  /** `finalize_options`: the validation chain, then splitting `qt_modules` on
      commas, parsing `win_console`, defaulting `build_dir` and building the
      installer settings. `appVersion` is what importing the package reports. */
  function Finalize(raw: RawOptions, fs: FileSystem, appVersion: string): (r: Result<Options, Check>)
    ensures r.Failure? <==> Validate(raw, fs).Fail?
    ensures r.Failure? ==> r.error == Validate(raw, fs).error
    ensures r.Success? ==> Requirements(raw, fs)
    ensures r.Success? ==>
      && r.value.qmakePath == raw.qmakePath.value && r.value.vcDir == raw.vcDir.value
      && r.value.platform == raw.platform.value
      && r.value.prebuiltLibrariesDir == raw.prebuiltLibrariesDir.value
      && r.value.pythonDir == raw.pythonDir.value && r.value.innoSetupPath == raw.innoSetupPath.value
      && r.value.package == raw.package.value && r.value.appName == raw.appName.value
      && r.value.appIcon == raw.appIcon && r.value.resourcesDir == raw.resourcesDir
      && r.value.winConsole == ParseWinConsole(raw.winConsole)
    ensures r.Success? ==>
      && r.value.appConfig.appVersion == appVersion
      && r.value.appConfig.appName == RemoveSpaces(raw.appName.value)
      && r.value.appConfig.appIcon == raw.appIcon
      && r.value.appConfig.resourcesDir == raw.resourcesDir
    ensures r.Success? ==>
      && Join(r.value.qtModules, ",") == raw.qtModules.value
      && NoneContain(r.value.qtModules, ',')
      && r.value.platform == "amd64" == r.value.appConfig.platform
      && r.value.qmakePath in fs.files && r.value.innoSetupPath in fs.files
      && r.value.vcDir in fs.dirs && r.value.prebuiltLibrariesDir in fs.dirs
      && r.value.pythonDir in fs.dirs && r.value.package in fs.dirs
      && (Given(raw.buildDir) ==> r.value.buildDir == raw.buildDir.value)
      && (!Given(raw.buildDir) ==> r.value.buildDir == "build")
      && ' ' !in r.value.appConfig.appName
      && |r.value.appConfig.appName| == |r.value.appName| - Count(r.value.appName, ' ')
      && r.value.appConfig.exeFilename == r.value.package + ".exe"
  {
    ValidateAcceptsExactly(raw, fs);
    match Validate(raw, fs)
    case Fail(c) => Failure(c)
    case Pass =>
      var modules := raw.qtModules.value;
      var name := raw.appName.value;
      JoinSplit(modules, ',');
      DeleteChar(name, ' ');
      Success(Options(
        qmakePath := raw.qmakePath.value,
        vcDir := raw.vcDir.value,
        platform := raw.platform.value,
        prebuiltLibrariesDir := raw.prebuiltLibrariesDir.value,
        pythonDir := raw.pythonDir.value,
        innoSetupPath := raw.innoSetupPath.value,
        qtModules := Split(modules, ','),
        package := raw.package.value,
        appName := name,
        appIcon := raw.appIcon,
        buildDir := if Given(raw.buildDir) then raw.buildDir.value else "build",
        resourcesDir := raw.resourcesDir,
        winConsole := ParseWinConsole(raw.winConsole),
        appConfig := AppConfig(
          appVersion := appVersion,
          exeFilename := raw.package.value + ".exe",
          platform := raw.platform.value,
          appName := RemoveSpaces(name),
          appIcon := raw.appIcon,
          resourcesDir := raw.resourcesDir)))
  }

  /** The module list is the comma-separated `qt_modules` value, in order,
      with empty entries kept: joining it back with commas gives the value,
      and there is one more module than there are commas. */
  lemma ModulesRoundTrip(raw: RawOptions, fs: FileSystem, appVersion: string)
    requires Finalize(raw, fs, appVersion).Success?
    ensures var o := Finalize(raw, fs, appVersion).value;
      && Split(Join(o.qtModules, ","), ',') == o.qtModules
      && |o.qtModules| == Count(raw.qtModules.value, ',') + 1
  {
    var o := Finalize(raw, fs, appVersion).value;
    SplitJoin(o.qtModules, ',');
    SplitCount(raw.qtModules.value, ',');
  }

  /** Python's version triple, as reported by the interpreter that compiles. */
  datatype PythonVersion = PythonVersion(major: nat, minor: nat, patch: nat)

  /** The values rendered into the package project file. */
  datatype ProjectArgs = ProjectArgs(
    appName: string,
    package: string,
    qtModules: seq<string>,
    buildDir: string,
    pythonVersion: PythonVersion,
    winConsole: string)

  /** The arguments of the package project file. The application name is
      computed separately from the installer's, with the same result. */
  function ProjectFileArgs(o: Options, python: PythonVersion): (r: ProjectArgs)
    ensures r.winConsole in {"0", "1"}
    ensures r.winConsole == "1" <==> o.winConsole
    ensures r.appName == RemoveSpaces(o.appName)
    ensures ' ' !in r.appName && |r.appName| == |o.appName| - Count(o.appName, ' ')
    ensures r.package == o.package && r.qtModules == o.qtModules
    ensures r.buildDir == o.buildDir && r.pythonVersion == python
  {
    DeleteChar(o.appName, ' ');
    ProjectArgs(
      appName := RemoveSpaces(o.appName),
      package := o.package,
      qtModules := o.qtModules,
      buildDir := o.buildDir,
      pythonVersion := python,
      winConsole := if o.winConsole then "1" else "0")
  }

  /** The project file asks for a console exactly when `win-console` spelled
      an accepted word, in any letter case; it names the application as the
      installer does. */
  lemma ProjectFileConsole(raw: RawOptions, fs: FileSystem, appVersion: string, python: PythonVersion)
    requires Finalize(raw, fs, appVersion).Success?
    ensures var o := Finalize(raw, fs, appVersion).value;
      && (ProjectFileArgs(o, python).winConsole == "1" <==>
           raw.winConsole.Some? && exists w :: w in TrueWords && EqualIgnoringCase(raw.winConsole.value, w))
      && ProjectFileArgs(o, python).appName == o.appConfig.appName
  {
    WinConsoleIgnoresCase(raw.winConsole);
  }

  /** The options cached in the user configuration. */
  const ToolKeys: set<string> :=
    {"qmake_path", "vc_dir", "prebuilt_libraries_dir", "platform", "python_dir", "inno_setup_path"}

  /** `_save_compile_user_config`: the user configuration to write back, or
      `None` when it already has a `compile` section and nothing is written. */
  function SaveUserConfig(existing: Option<Config>, o: Options): (r: Option<Config>)
    ensures r.None? <==> existing.Some? && CompileSectionName in existing.value
    ensures r.Some? ==> r.value.Keys == existing.GetOr(map[]).Keys + {CompileSectionName}
    ensures r.Some? ==> r.value[CompileSectionName].Keys == ToolKeys
    ensures r.Some? ==> forall s :: s in r.value && s != CompileSectionName ==>
      existing.Some? && s in existing.value && r.value[s] == existing.value[s]
  {
    var cfg := existing.GetOr(map[]);
    if CompileSectionName in cfg then None
    else
      Some(cfg[CompileSectionName := map[
        "qmake_path" := o.qmakePath,
        "vc_dir" := o.vcDir,
        "prebuilt_libraries_dir" := o.prebuiltLibrariesDir,
        "platform" := o.platform,
        "python_dir" := o.pythonDir,
        "inno_setup_path" := o.innoSetupPath]])
  }

  /** A freshly written user configuration supplies, on the next run, the
      same tool locations and platform the options held. */
  lemma SavedConfigRestoresTools(setupCfg: Option<Config>, existing: Option<Config>, o: Options)
    requires setupCfg.Some?
    requires SaveUserConfig(existing, o).Some?
    ensures var next := Initialize(setupCfg, SaveUserConfig(existing, o)).value;
      && next.qmakePath == Some(o.qmakePath)
      && next.vcDir == Some(o.vcDir)
      && next.platform == Some(o.platform)
      && next.prebuiltLibrariesDir == Some(o.prebuiltLibrariesDir)
      && next.pythonDir == Some(o.pythonDir)
      && next.innoSetupPath == Some(o.innoSetupPath)
  {
  }

  /** The whole of `finalize_options`: validate and normalise, then work out
      what is written to `setup.user.cfg`. On failure nothing is written. */
  function FinalizeOptions(raw: RawOptions, fs: FileSystem, appVersion: string, userCfg: Option<Config>)
    : (r: Result<(Options, Option<Config>), Check>)
    ensures r.Success? <==> Requirements(raw, fs)
    ensures r.Success? ==>
      (r.value.1.None? <==> userCfg.Some? && CompileSectionName in userCfg.value)
    ensures r.Failure? ==> Validate(raw, fs) == Fail(r.error)
    ensures r.Success? ==> Finalize(raw, fs, appVersion) == Success(r.value.0)
    ensures r.Success? && r.value.1.Some? ==>
      var saved := r.value.1.value;
      && CompileSectionName in saved && "platform" in saved[CompileSectionName]
      && saved[CompileSectionName]["platform"] == "amd64"
    ensures r.Success? && r.value.1.Some? ==>
      r.value.1.value.Keys == userCfg.GetOr(map[]).Keys + {CompileSectionName}
    ensures r.Success? && r.value.1.Some? ==>
      forall s :: s in r.value.1.value && s != CompileSectionName ==>
        userCfg.Some? && s in userCfg.value && r.value.1.value[s] == userCfg.value[s]
    ensures r.Success? && r.value.1.Some? ==>
      r.value.1.value[CompileSectionName] == map[
        "qmake_path" := raw.qmakePath.value,
        "vc_dir" := raw.vcDir.value,
        "prebuilt_libraries_dir" := raw.prebuiltLibrariesDir.value,
        "platform" := raw.platform.value,
        "python_dir" := raw.pythonDir.value,
        "inno_setup_path" := raw.innoSetupPath.value]
  {
    ValidateAcceptsExactly(raw, fs);
    match Finalize(raw, fs, appVersion)
    case Failure(c) => Failure(c)
    case Success(o) => Success((o, SaveUserConfig(userCfg, o)))
  }
}
