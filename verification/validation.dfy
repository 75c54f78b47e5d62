/** The validation chain at the start of `finalize_options`: a fixed
    sequence of checks, the first failing one deciding the error. The
    filesystem is two sets of existing paths. */
module Validation {
  import opened Wrappers
  import opened Settings

  /** The paths that exist as regular files and as directories. */
  datatype FileSystem = FileSystem(files: set<string>, dirs: set<string>)

  /** Python truthiness of an optional string: present and non-empty. */
  predicate Given(v: Option<string>)
  {
    v.Some? && |v.value| > 0
  }

  predicate IsFile(fs: FileSystem, v: Option<string>)
  {
    v.Some? && v.value in fs.files
  }

  predicate IsDir(fs: FileSystem, v: Option<string>)
  {
    v.Some? && v.value in fs.dirs
  }

  /** The platforms the command can build for. */
  const SupportedPlatforms: seq<string> := ["amd64"]

  /** One assertion of the chain, named after what it demands. */
  datatype Check =
    | QmakePathGiven
    | VcDirGiven
    | PlatformGiven
    | PrebuiltLibrariesDirGiven
    | PythonDirGiven
    | InnoSetupPathGiven
    | QmakePathIsFile
    | VcDirIsDir
    | PlatformSupported
    | PrebuiltLibrariesDirIsDir
    | PythonDirIsDir
    | InnoSetupPathIsFile
    | QtModulesGiven
    | PackageGiven
    | AppNameGiven
    | PackageIsDir
    | ResourcesDirValid

  /** Whether one check holds of the options on the given filesystem. */
  predicate Passes(c: Check, raw: RawOptions, fs: FileSystem)
  {
    match c
    case QmakePathGiven => Given(raw.qmakePath)
    case VcDirGiven => Given(raw.vcDir)
    case PlatformGiven => Given(raw.platform)
    case PrebuiltLibrariesDirGiven => Given(raw.prebuiltLibrariesDir)
    case PythonDirGiven => Given(raw.pythonDir)
    case InnoSetupPathGiven => Given(raw.innoSetupPath)
    case QmakePathIsFile => IsFile(fs, raw.qmakePath)
    case VcDirIsDir => IsDir(fs, raw.vcDir)
    case PlatformSupported => raw.platform.Some? && raw.platform.value in SupportedPlatforms
    case PrebuiltLibrariesDirIsDir => IsDir(fs, raw.prebuiltLibrariesDir)
    case PythonDirIsDir => IsDir(fs, raw.pythonDir)
    case InnoSetupPathIsFile => IsFile(fs, raw.innoSetupPath)
    case QtModulesGiven => Given(raw.qtModules)
    case PackageGiven => Given(raw.package)
    case AppNameGiven => Given(raw.appName)
    case PackageIsDir => IsDir(fs, raw.package)
    case ResourcesDirValid => !Given(raw.resourcesDir) || IsDir(fs, raw.resourcesDir)
  }

  /** The order in which the checks run. */
  const Checks: seq<Check> := [
    QmakePathGiven, VcDirGiven, PlatformGiven, PrebuiltLibrariesDirGiven, PythonDirGiven,
    InnoSetupPathGiven, QmakePathIsFile, VcDirIsDir, PlatformSupported,
    PrebuiltLibrariesDirIsDir, PythonDirIsDir, InnoSetupPathIsFile, QtModulesGiven,
    PackageGiven, AppNameGiven, PackageIsDir, ResourcesDirValid]

  /** Position of a check in `Checks`. */
  function Rank(c: Check): (n: nat)
  {
    match c
    case QmakePathGiven => 0
    case VcDirGiven => 1
    case PlatformGiven => 2
    case PrebuiltLibrariesDirGiven => 3
    case PythonDirGiven => 4
    case InnoSetupPathGiven => 5
    case QmakePathIsFile => 6
    case VcDirIsDir => 7
    case PlatformSupported => 8
    case PrebuiltLibrariesDirIsDir => 9
    case PythonDirIsDir => 10
    case InnoSetupPathIsFile => 11
    case QtModulesGiven => 12
    case PackageGiven => 13
    case AppNameGiven => 14
    case PackageIsDir => 15
    case ResourcesDirValid => 16
  }

  lemma RankIsPosition()
    ensures forall c :: Rank(c) < |Checks| && Checks[Rank(c)] == c
    ensures forall i :: 0 <= i < |Checks| ==> Rank(Checks[i]) == i
  {
  }

  /** The first check of `cs` that fails, if any. */
  function FirstFailing(cs: seq<Check>, raw: RawOptions, fs: FileSystem): (r: Option<Check>)
    ensures r.None? <==> forall i :: 0 <= i < |cs| ==> Passes(cs[i], raw, fs)
    ensures r.Some? ==> exists i ::
              && 0 <= i < |cs| && cs[i] == r.value && !Passes(cs[i], raw, fs)
              && (forall j :: 0 <= j < i ==> Passes(cs[j], raw, fs))
  {
    if |cs| == 0 then None
    else if !Passes(cs[0], raw, fs) then Some(cs[0])
    else
      var r := FirstFailing(cs[1..], raw, fs);
      assert forall i :: 0 < i < |cs| ==> cs[i] == cs[1..][i - 1];
      r
  }

  /** What `FirstFailing` says about `Checks`, in terms of check ranks. */
  lemma FirstFailingByRank(raw: RawOptions, fs: FileSystem)
    ensures FirstFailing(Checks, raw, fs).None? <==> forall c :: Passes(c, raw, fs)
    ensures FirstFailing(Checks, raw, fs).Some? ==>
      var e := FirstFailing(Checks, raw, fs).value;
      !Passes(e, raw, fs) && forall c :: Rank(c) < Rank(e) ==> Passes(c, raw, fs)
  {
    RankIsPosition();
    var r := FirstFailing(Checks, raw, fs);
    if r.None? {
      forall c ensures Passes(c, raw, fs) {
        assert Checks[Rank(c)] == c;
      }
    } else {
      var i :| 0 <= i < |Checks| && Checks[i] == r.value && !Passes(Checks[i], raw, fs)
        && (forall j :: 0 <= j < i ==> Passes(Checks[j], raw, fs));
      assert Rank(r.value) == i;
      forall c | Rank(c) < Rank(r.value) ensures Passes(c, raw, fs) {
        assert Checks[Rank(c)] == c;
      }
    }
  }

  /** Runs the checks in order and reports the first that fails. It fails
      exactly when some check fails, and then every earlier check held. */
  function Validate(raw: RawOptions, fs: FileSystem): (r: Outcome<Check>)
    ensures r.Pass? <==> forall c :: Passes(c, raw, fs)
    ensures r.Fail? ==> !Passes(r.error, raw, fs)
    ensures r.Fail? ==> forall c :: Rank(c) < Rank(r.error) ==> Passes(c, raw, fs)
  {
    FirstFailingByRank(raw, fs);
    match FirstFailing(Checks, raw, fs)
    case None => Pass
    case Some(c) => Fail(c)
  }

  /** The failing check is determined by the options: it is the one that
      fails while every earlier check holds, and no other. */
  lemma FirstFailureWins(raw: RawOptions, fs: FileSystem, c: Check)
    ensures Validate(raw, fs) == Fail(c) <==>
      !Passes(c, raw, fs) && forall d :: Rank(d) < Rank(c) ==> Passes(d, raw, fs)
  {
    var v := Validate(raw, fs);
    if !Passes(c, raw, fs) && forall d :: Rank(d) < Rank(c) ==> Passes(d, raw, fs) {
      RankIsPosition();
      assert v.Fail?;
      assert Rank(v.error) == Rank(c);
    }
  }

  /** Everything the chain demands, stated as one condition. */
  predicate Requirements(raw: RawOptions, fs: FileSystem)
  {
    && Given(raw.qmakePath) && raw.qmakePath.value in fs.files
    && Given(raw.vcDir) && raw.vcDir.value in fs.dirs
    && raw.platform == Some("amd64")
    && Given(raw.prebuiltLibrariesDir) && raw.prebuiltLibrariesDir.value in fs.dirs
    && Given(raw.pythonDir) && raw.pythonDir.value in fs.dirs
    && Given(raw.innoSetupPath) && raw.innoSetupPath.value in fs.files
    && Given(raw.qtModules)
    && Given(raw.package) && raw.package.value in fs.dirs
    && Given(raw.appName)
    && (Given(raw.resourcesDir) ==> raw.resourcesDir.value in fs.dirs)
  }

  /** The platform check admits only "amd64". */
  lemma PlatformPasses(raw: RawOptions, fs: FileSystem)
    requires Passes(PlatformSupported, raw, fs)
    ensures raw.platform == Some("amd64")
  {
    assert raw.platform.value == SupportedPlatforms[0];
  }

  lemma PassingMeetsRequirements(raw: RawOptions, fs: FileSystem)
    requires forall c :: Passes(c, raw, fs)
    ensures Requirements(raw, fs)
  {
    PlatformPasses(raw, fs);
    ToolsPass(raw, fs);
    GeneralPass(raw, fs);
  }

  /** The tool-location checks give the tool half of the requirements. */
  lemma ToolsPass(raw: RawOptions, fs: FileSystem)
    requires Passes(QmakePathGiven, raw, fs) && Passes(QmakePathIsFile, raw, fs)
    requires Passes(VcDirGiven, raw, fs) && Passes(VcDirIsDir, raw, fs)
    requires Passes(PrebuiltLibrariesDirGiven, raw, fs) && Passes(PrebuiltLibrariesDirIsDir, raw, fs)
    requires Passes(PythonDirGiven, raw, fs) && Passes(PythonDirIsDir, raw, fs)
    requires Passes(InnoSetupPathGiven, raw, fs) && Passes(InnoSetupPathIsFile, raw, fs)
    ensures Given(raw.qmakePath) && raw.qmakePath.value in fs.files
    ensures Given(raw.vcDir) && raw.vcDir.value in fs.dirs
    ensures Given(raw.prebuiltLibrariesDir) && raw.prebuiltLibrariesDir.value in fs.dirs
    ensures Given(raw.pythonDir) && raw.pythonDir.value in fs.dirs
    ensures Given(raw.innoSetupPath) && raw.innoSetupPath.value in fs.files
  {
  }

  /** The general checks give the rest of the requirements. */
  lemma GeneralPass(raw: RawOptions, fs: FileSystem)
    requires Passes(QtModulesGiven, raw, fs) && Passes(AppNameGiven, raw, fs)
    requires Passes(PackageGiven, raw, fs) && Passes(PackageIsDir, raw, fs)
    requires Passes(ResourcesDirValid, raw, fs)
    ensures Given(raw.qtModules) && Given(raw.appName)
    ensures Given(raw.package) && raw.package.value in fs.dirs
    ensures Given(raw.resourcesDir) ==> raw.resourcesDir.value in fs.dirs
  {
  }

  lemma RequirementsPass(raw: RawOptions, fs: FileSystem, c: Check)
    requires Requirements(raw, fs)
    ensures Passes(c, raw, fs)
  {
    if c == PlatformSupported {
      assert raw.platform.value == SupportedPlatforms[0];
    }
  }

  /** Validation accepts exactly the options that meet every requirement; in
      particular it fails whenever a required file or directory is missing. */
  lemma ValidateAcceptsExactly(raw: RawOptions, fs: FileSystem)
    ensures Validate(raw, fs).Pass? <==> Requirements(raw, fs)
  {
    if Validate(raw, fs).Pass? {
      PassingMeetsRequirements(raw, fs);
    }
    if Requirements(raw, fs) {
      forall c ensures Passes(c, raw, fs) {
        RequirementsPass(raw, fs, c);
      }
    }
  }

  /** Without a qmake path validation always stops at the first check,
      whatever the other options and the filesystem are. */
  lemma QmakePathRequired(raw: RawOptions, fs: FileSystem)
    requires !Given(raw.qmakePath)
    ensures Validate(raw, fs) == Fail(QmakePathGiven)
  {
    FirstFailureWins(raw, fs, QmakePathGiven);
  }

  /** The message of the platform check, which quotes the rejected platform. */
  function UnsupportedPlatformMessage(platform: string): (msg: string)
    ensures |msg| == |platform| + 36 && msg[9..|msg| - 27] == platform
  {
    "Platform " + platform + " is not currently supported"
  }

  /** The error message the assertion of each check carries. */
  function Message(c: Check, raw: RawOptions): (msg: string)
    ensures c == PlatformSupported ==> msg == UnsupportedPlatformMessage(raw.platform.GetOr("None"))
  {
    match c
    case QmakePathGiven => "qmake-path must be provided"
    case VcDirGiven => "vc-path must be provided"
    case PlatformGiven => "platform must be specified"
    case PrebuiltLibrariesDirGiven => "prebuilt-libraries-dir must be specified"
    case PythonDirGiven => "python-dir must be provided"
    case InnoSetupPathGiven => "inno-setup-path must be provided"
    case QmakePathIsFile => "qmake path does not exist"
    case VcDirIsDir => "vc directory path does not exist"
    case PlatformSupported => UnsupportedPlatformMessage(raw.platform.GetOr("None"))
    case PrebuiltLibrariesDirIsDir => "prebuilt libraries directory does not exist"
    case PythonDirIsDir => "python directory could not be found"
    case InnoSetupPathIsFile => "inno setup path does not exist"
    case QtModulesGiven => "qt-modules must be specified"
    case PackageGiven => "package must be specified"
    case AppNameGiven => "Must provide an app name"
    case PackageIsDir => "package not found"
    case ResourcesDirValid => "Resources directory provided is not a directory"
  }
}
