/** Configuration files and the defaulting done by `initialize_options`.
    A ConfigParser file is modelled as its parsed sections; a file that does
    not exist is `None`. */
module Settings {
  import opened Wrappers

  /** One section of a config file: option name to value. */
  type Section = map<string, string>

  /** A parsed config file: section name to section. */
  type Config = map<string, Section>

  const CompileSectionName := "compile"

  /** Platform used when the user configuration does not name one. */
  const DefaultPlatform := "amd64"

  /** The `compile` section of a config file, empty when the file or the
      section is missing. */
  function CompileSection(cfg: Option<Config>): (section: Section)
  {
    if cfg.Some? && CompileSectionName in cfg.value then cfg.value[CompileSectionName] else map[]
  }

  /** `compile_config.get(key, None)`. */
  function Lookup(cfg: Option<Config>, key: string): (v: Option<string>)
  {
    var section := CompileSection(cfg);
    if key in section then Some(section[key]) else None
  }

  /** The command's option attributes before validation. `None` is Python's
      `None`; `winConsole` starts out as `False`, which is falsy like `None`.
      The options `initialize_options` leaves unset are set afterwards, from
      the command line or the `compile` section of `setup.cfg`, before
      `finalize_options` runs. */
  datatype RawOptions = RawOptions(
    qtModules: Option<string>,
    qmakePath: Option<string>,
    vcDir: Option<string>,
    platform: Option<string>,
    prebuiltLibrariesDir: Option<string>,
    pythonDir: Option<string>,
    innoSetupPath: Option<string>,
    package: Option<string>,
    appName: Option<string>,
    appIcon: Option<string>,
    buildDir: Option<string>,
    resourcesDir: Option<string>,
    winConsole: Option<string>)

  /** An option read from a section: the section's value when the key is
      present, `None` when it is absent. */
  predicate ReadFrom(v: Option<string>, section: Section, key: string)
  {
    && (key in section ==> v == Some(section[key]))
    && (key !in section ==> v.None?)
  }

  /** Why initialisation fails: there is no `setup.cfg`. */
  datatype InitError = SetupCfgNotFound

  /** `initialize_options`: `qt_modules` comes from the `compile` section of
      `setup.cfg` (which must exist), the tool locations and platform from the
      `compile` section of `setup.user.cfg` (which may be missing). */
  function Initialize(setupCfg: Option<Config>, userCfg: Option<Config>): (r: Result<RawOptions, InitError>)
    ensures r.Failure? <==> setupCfg.None?
    ensures r.Success? ==> r.value.platform.Some?
    ensures r.Success? ==>
      && r.value.package.None? && r.value.appName.None? && r.value.appIcon.None?
      && r.value.buildDir.None? && r.value.resourcesDir.None? && r.value.winConsole.None?
    ensures r.Success? ==> ReadFrom(r.value.qtModules, CompileSection(setupCfg), "qt_modules")
    ensures r.Success? ==>
      var user := CompileSection(userCfg);
      && ReadFrom(r.value.qmakePath, user, "qmake_path")
      && ReadFrom(r.value.vcDir, user, "vc_dir")
      && ReadFrom(r.value.prebuiltLibrariesDir, user, "prebuilt_libraries_dir")
      && ReadFrom(r.value.pythonDir, user, "python_dir")
      && ReadFrom(r.value.innoSetupPath, user, "inno_setup_path")
  {
    if setupCfg.None? then Failure(SetupCfgNotFound)
    else
      Success(RawOptions(
        qtModules := Lookup(setupCfg, "qt_modules"),
        qmakePath := Lookup(userCfg, "qmake_path"),
        vcDir := Lookup(userCfg, "vc_dir"),
        platform := Some(Lookup(userCfg, "platform").GetOr(DefaultPlatform)),
        prebuiltLibrariesDir := Lookup(userCfg, "prebuilt_libraries_dir"),
        pythonDir := Lookup(userCfg, "python_dir"),
        innoSetupPath := Lookup(userCfg, "inno_setup_path"),
        package := None,
        appName := None,
        appIcon := None,
        buildDir := None,
        resourcesDir := None,
        winConsole := None))
  }

  /** The platform is "amd64" unless the user configuration names another one. */
  lemma PlatformDefault(setupCfg: Option<Config>, userCfg: Option<Config>)
    requires setupCfg.Some?
    ensures var p := Initialize(setupCfg, userCfg).value.platform.value;
      var configured := userCfg.Some? && CompileSectionName in userCfg.value
                        && "platform" in userCfg.value[CompileSectionName];
      && (!configured ==> p == DefaultPlatform)
      && (configured ==> p == userCfg.value[CompileSectionName]["platform"])
  {
  }

  /** `qt_modules` is read from `setup.cfg` only, and the tool locations and
      platform from `setup.user.cfg` only. */
  lemma OptionSources(s1: Option<Config>, s2: Option<Config>, u1: Option<Config>, u2: Option<Config>)
    requires s1.Some? && s2.Some?
    ensures CompileSection(s1) == CompileSection(s2) ==>
      Initialize(s1, u1).value.qtModules == Initialize(s2, u2).value.qtModules
    ensures CompileSection(u1) == CompileSection(u2) ==>
      Initialize(s1, u1).value.(qtModules := None) == Initialize(s2, u2).value.(qtModules := None)
  {
  }
}
