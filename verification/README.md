# pyqtinstaller compile command: a verified functional model

`pyqtinstaller` adds a `compile` command to setuptools. It builds a Windows
installer for a PyQt5 application by running pyqtdeploy, qmake, nmake and
Inno Setup in turn. Most of `pyqtinstaller/compile_command.py` is process
and file plumbing. The model covers the pure rules inside it:

- **Option defaulting.** `initialize_options` reads the `compile` sections of
  `setup.cfg` and `setup.user.cfg`.
- **Validation and normalisation.** `finalize_options` runs an ordered chain
  of assertions, then splits `qt_modules`, parses `win_console`, defaults
  `build_dir` and builds the installer settings (`app_config`).
- **Tool caching.** `_save_compile_user_config` writes the tool locations
  back to `setup.user.cfg`.
- **Library and DLL discovery.** `_get_pyqt_lib_paths`, `_get_sip_lib_path`
  and `_get_dll_paths` compute where the PyQt and sip libraries are and which
  DLLs ship.
- **The Visual C++ environment.** `get_vc_bin_dir` gives the compiler's
  binary directory, `get_vc_env` parses the `set` output, and `_get_vc_env`
  extends `LIB`.
- **`assert_call`.** A non-zero exit status is fatal.

Config files are maps from section name to a map from option name to value.
A missing file is `None`. The filesystem is two sets: existing files and
existing directories. Windows paths follow Python's `ntpath` for paths
without drive letters. Failures are `Result`/`Outcome` values: the assertion
that failed, or the parse error.

Modules: `Wrappers` (Option/Result/Outcome), `Text` (Python string
operations), `WinPath` (`ntpath.join`/`dirname`), `Settings`
(`initialize_options`), `Validation` (the assertion chain), `Options` (the
rest of `finalize_options`, the project-file arguments and the user-config
save), `Libraries` (library and DLL paths), `VcEnv` (the VC environment) and
`Process` (`assert_call`).

## Model

| member | source | states |
|---|---|---|
| Settings.Initialize | pyqtinstaller/compile_command.py:81-113 | Fails exactly when `setup.cfg` is missing. Otherwise `qt_modules` is the `qt_modules` value of `setup.cfg`'s `compile` section, or `None` when the section or key is absent; each of the five tool locations is the same key's value in `setup.user.cfg`'s `compile` section, or `None` when absent; the platform is always set; the options `initialize_options` leaves unset (package, app name, icon, build dir, resources dir, win_console; set afterwards from the command line or `setup.cfg`) start unset. |
| Settings.PlatformDefault | pyqtinstaller/compile_command.py:104 | The platform is "amd64" unless the user config's `compile` section names one, in which case it is that value. |
| Settings.OptionSources | pyqtinstaller/compile_command.py:90-107 | `qt_modules` depends only on `setup.cfg`'s `compile` section. Every other defaulted option depends only on `setup.user.cfg`'s `compile` section. |
| Validation.FirstFailing | pyqtinstaller/compile_command.py:122-143 | Returns no check iff every check in the list passes. Otherwise returns a check that fails while every check before it passes. |
| Validation.Validate | pyqtinstaller/compile_command.py:122-143 | Passes iff every check passes. On failure the reported check fails and every check ranked before it passes. |
| Validation.FirstFailureWins | pyqtinstaller/compile_command.py:122-143 | Validation reports check `c` iff `c` fails and all earlier checks pass, so the first failing assertion decides the error. |
| Validation.ValidateAcceptsExactly | pyqtinstaller/compile_command.py:122-143 | Validation passes iff an independently written requirement holds: all tool options given, qmake and Inno Setup are files, the VC, prebuilt, Python and package directories exist, platform is "amd64", qt_modules and app name are given, and any given resources dir exists. |
| Validation.QmakePathRequired | tests/compile_command_test.py:7-9 | Without a (non-empty) qmake path, validation fails with the qmake-path check, whatever the other options and the filesystem are. |
| Validation.UnsupportedPlatformMessage | pyqtinstaller/compile_command.py:130-131 | The message quotes the rejected platform between "Platform " and " is not currently supported", so the platform can be read back from it. |
| Validation.Message | pyqtinstaller/compile_command.py:122-143 | The platform assertion's message is the platform-quoting message below, for the configured platform (Python's "None" when unset). |
| Options.Finalize | pyqtinstaller/compile_command.py:115-159 | Fails iff validation fails, with the same check. On success: every tool path, the platform, package, app name, icon and resources dir are the raw values; `win_console` is the parsed raw value; the module list joins back with "," to `qt_modules` and no module contains a comma; the platform is "amd64" and every required path exists; `build_dir` is the given value or "build"; the installer settings carry the given version, the icon, the resources dir, `exe_filename` = package + ".exe", and the app name with every space removed (no spaces left, length reduced by the number of spaces). |
| Options.ModulesRoundTrip | pyqtinstaller/compile_command.py:144 | Splitting the joined module list gives the list back. There is one more module than there are commas in `qt_modules`. |
| Options.WinConsoleIgnoresCase | pyqtinstaller/compile_command.py:145-147 | `win_console` is true iff a value is present and equals one of "1", "true", "t", "yes" ignoring ASCII letter case. An absent or empty value gives false. |
| Options.ParseWinConsole | pyqtinstaller/compile_command.py:145-147 | An absent or empty `win_console` gives false; each accepted word as written ("1", "true", "t", "yes") gives true. |
| Options.ProjectFileArgs | pyqtinstaller/compile_command.py:195-202 | The project file's win_console argument is "1" iff the console option is on and "0" otherwise; its app name is the app name without spaces (none left, shorter by the number of spaces); package, module list, build dir and Python version are passed through unchanged. |
| Options.ProjectFileConsole | pyqtinstaller/compile_command.py:196-201 | After a successful finalize, the project file says "1" iff the raw `win_console` spells an accepted word in any case. The project file's app name equals the installer's. |
| Options.SaveUserConfig | pyqtinstaller/compile_command.py:272-288 | Nothing is written iff the user config exists and already has a `compile` section. Otherwise the written config adds exactly a `compile` section holding the six tool keys and keeps every other section unchanged. |
| Options.SavedConfigRestoresTools | pyqtinstaller/compile_command.py:279-286 | Re-reading a freshly written user config gives back the saved qmake path, VC dir, platform, prebuilt dir, Python dir and Inno Setup path. |
| Options.FinalizeOptions | pyqtinstaller/compile_command.py:115-161 | Succeeds iff the requirements hold; a failure names the check validation stops at, and nothing is written then. On success the options are those of `Finalize`, a config is written iff the user config has no `compile` section, and its `compile` section holds exactly the six raw tool values under their option names, platform "amd64", and every other section of the user config is kept unchanged, with no section added besides `compile`. |
| Libraries.PyQtLibPath | pyqtinstaller/compile_command.py:306-314 | For plain components, a module's library directory is `prebuilt\PyQt5_gpl-5.9.1\<module>\release`, itself a plain component. |
| Libraries.SipLibPath | pyqtinstaller/compile_command.py:316-317 | For a plain prebuilt dir, the sip library directory is `prebuilt\sip-4.19.5\siplib`, itself a plain component. |
| Libraries.PyQtLibPaths | pyqtinstaller/compile_command.py:306-314 | One library directory per module, in module order. |
| Libraries.DropQtModule | pyqtinstaller/compile_command.py:299-302 | Keeps exactly the names other than `Qt`, each as often as it occurred: the result's multiset is the input's with `Qt` removed, and its length plus the number of `Qt` entries is the input length. |
| Libraries.DropQtModuleAppend | pyqtinstaller/compile_command.py:299-302 | The filter works element by element: dropping `Qt` from a concatenation concatenates the filtered parts, so the kept modules keep their order. |
| Libraries.QtDllModules | pyqtinstaller/compile_command.py:296-302 | `Qt` is never included and every other requested module is; a QtQuick companion is included iff QtQuick or the companion itself is requested; nothing else is; as a multiset it is the requested modules plus the companions when QtQuick is requested, minus every `Qt`; the count follows. |
| Libraries.QtDllNamesDistinct | pyqtinstaller/compile_command.py:300 | Distinct module names never map to the same Qt DLL file name under the "Qt"→"Qt5" renaming. |
| Libraries.QtDllNameWithoutQt | pyqtinstaller/compile_command.py:300 | A module name in which "Qt" does not occur ships as `<name>.dll`. |
| Libraries.QtDllNameOfQtModule | pyqtinstaller/compile_command.py:300 | "Qt" followed by a name without another "Qt" (such as "QtCore") ships as "Qt5" followed by that name and ".dll" (such as "Qt5Core.dll"). |
| Libraries.PyQtDlls | pyqtinstaller/compile_command.py:291-293 | One PyQt DLL per module: the i-th is the i-th module's library directory joined with `<module_i>.dll`. |
| Libraries.QtDlls | pyqtinstaller/compile_command.py:295-302 | One Qt DLL per shipped Qt module, in that order: the k-th is qmake's directory joined with the k-th module's renamed DLL name. |
| Libraries.DllPaths | pyqtinstaller/compile_command.py:290-304 | `_get_dll_paths` lists, in order: for each module its library directory joined with `<module>.dll`; the sip library directory joined with `sip.pyd`; for each shipped Qt module qmake's directory joined with its "Qt"→"Qt5" DLL name; the Python directory joined with `python3.dll` and then `python36.dll`. |
| Libraries.DllCount | pyqtinstaller/compile_command.py:290-304 | The DLL list has 2·(modules) + 3 − (number of `Qt` entries) entries, plus 2 when QtQuick is requested. |
| Libraries.DllPathsLayout | pyqtinstaller/compile_command.py:290-304 | For plain components, taking `dirname` of the list recovers where each DLL comes from: the i-th PyQt DLL lies in the i-th module's library directory, sip's in the sip library directory, every Qt DLL in the directory holding qmake, and both Python DLLs in the Python directory. |
| VcEnv.VcBinDir | pyqtinstaller/compile_command.py:34-38 | The bin dir is `join(vc_dir, "bin")` for x86 and otherwise equals joining `bin` and then the platform onto `vc_dir`; for plain components that is `vc_dir\bin` and `vc_dir\bin\<platform>`. |
| VcEnv.FirstMalformed | pyqtinstaller/compile_command.py:28-29 | Finds no line iff every line has exactly one '='. Otherwise returns the first line without exactly one '='. |
| VcEnv.LineParts | pyqtinstaller/compile_command.py:29 | A line with one '=' is its name, "=", and its value. |
| VcEnv.AssignLines | pyqtinstaller/compile_command.py:28-30 | The assignment loop keeps every earlier name, sets the name of every line, and leaves the last line's value under its name. |
| VcEnv.LastAssignmentWins | pyqtinstaller/compile_command.py:28-30 | After the assignment loop, a name is present iff it was before or some line sets it. Its value is the last such line's value (a reference definition searching from the end), else the earlier value. |
| VcEnv.LastValueFound | pyqtinstaller/compile_command.py:28-30 | The reference definition finds a value for a name iff some line sets that name. |
| VcEnv.ParseVcEnv | pyqtinstaller/compile_command.py:26-32 | Succeeds iff every line of the `set` output has exactly one '=' and some line sets `Path`. Any malformed line makes it fail with a malformed-line error naming the first such line, before `Path` is looked at; well-formed output without `Path` fails with MissingPath. On success the names are exactly those some line sets, each with its last value, except that `Path` is `bin dir + ";" + its last value`. |
| VcEnv.BuildEnv | pyqtinstaller/compile_command.py:232-242 | A parse failure is returned unchanged; a parsed environment without `LIB` fails with MissingLib; otherwise it succeeds, adds exactly `PYTHON_DIR` (the Python dir), replaces `LIB` with the PyQt lib paths, the sip lib path and the old `LIB` joined by ";", and leaves every other variable unchanged. |
| VcEnv.ExtendedLib | pyqtinstaller/compile_command.py:235-239 | The extended `LIB` ends with ";" followed by the old `LIB`. |
| VcEnv.LibSearchOrder | pyqtinstaller/compile_command.py:235-239 | Split on ";", the new `LIB` lists the PyQt lib paths in module order, then the sip lib path, then the old `LIB`'s entries (for paths without ';'). |
| VcEnv.PathStartsWithBinDir | pyqtinstaller/compile_command.py:31 | In the built environment, `Path` begins with the compiler bin directory followed by ";". |
| Process.AssertCall | pyqtinstaller/compile_command.py:16-21 | Passes iff the exit status is 0. Otherwise fails with "<command joined by spaces> exited with code <status> - see output for details". |
| Process.FailureIdentifiesCall | pyqtinstaller/compile_command.py:20-21 | The failure message begins with the command line. Different exit statuses of the same command give different messages. |
| Text.JoinSplit | pyqtinstaller/compile_command.py:144 | Joining `s.split(d)` with `d` gives back `s` for every string. |
| Text.SplitJoin | pyqtinstaller/compile_command.py:144 | Splitting the join of separator-free parts (at least one) gives back the parts. |
| Text.SplitCount | pyqtinstaller/compile_command.py:144 | `s.split(d)` has one more part than `s` has occurrences of `d`. |
| Text.Split | pyqtinstaller/compile_command.py:144 | At least one part, none containing the separator. |
| Text.SplitLines | pyqtinstaller/compile_command.py:28 | No line contains a line boundary. There are no lines iff the text is empty. |
| Text.SplitLinesJoin | pyqtinstaller/compile_command.py:28 | For text whose only boundary is "\n", the lines joined by "\n" plus the final newline (if any) rebuild the text. |
| Text.SplitLinesJoinCrlf | pyqtinstaller/compile_command.py:26-28 | For text whose every line boundary is part of a "\r\n" pair (the console's line ending), the lines joined by "\r\n" plus the final "\r\n" (if any) rebuild the text. |
| Text.QtRenameUndo | pyqtinstaller/compile_command.py:300 | Replacing "Qt5" by "Qt" undoes replacing "Qt" by "Qt5" (Python's leftmost, non-overlapping `str.replace`). |
| Text.ReplaceAbsent | pyqtinstaller/compile_command.py:300 | Replacing a pattern that occurs nowhere in the text leaves the text unchanged. |
| Text.DeleteChar | pyqtinstaller/compile_command.py:156 | `s.replace(c, '')` contains no `c`, is shorter by the number of `c`s, and keeps every other character's count. |
| Text.IntToStringInjective | pyqtinstaller/compile_command.py:21 | Distinct exit statuses render as distinct decimal strings. |
| WinPath.JoinAssociative | pyqtinstaller/compile_command.py:37-38 | `join(a, join(b, c)) == join(join(a, b), c)` when `b` is non-empty and relative. |
| WinPath.DirnameOfJoin | pyqtinstaller/compile_command.py:295 | `dirname(join(dir, name)) == dir` for a plain directory and a name without separators. |

## Left out

- Running external programs (`call`, `check_output`, pyqtdeploy, qmake, nmake, Inno Setup) is not modelled. The `set` output and exit statuses are parameters.
- Template rendering (`get_template`, `.render`) is not modelled, because the templates are not part of this model. `ProjectFileArgs` stops at the values handed to the template.
- File I/O is not modelled: `_create_app_resources`, `_copy_binaries`, `_build_installer`, and reading and writing config files. Config files are parsed maps, and `SaveUserConfig` returns the config to write.
- ConfigParser behaviour beyond section lookup is not modelled: `%` interpolation (and its errors), the `DEFAULT` section, option-name lower-casing, and file syntax.
- `get_version` and `get_python_version` are parameters (`appVersion`, `PythonVersion`), because they import the package or run the interpreter.
- `run` is not modelled, because it only calls the modelled helpers and the I/O steps in a fixed order.
- How setuptools injects command-line and `setup.cfg` options between `initialize_options` and `finalize_options` is not modelled. `Finalize` accepts any `RawOptions`.
- Running Python with `-O` strips `assert` statements, which would skip every check. The model always runs the checks.
- WinPath.Join: drive letters and UNC prefixes are not modelled. Only drive-less paths are modelled, where an absolute second component replaces the first.
- WinPath.Dirname: a drive prefix such as `C:` is not split off first, so `dirname("C:qmake.exe")` gives "" rather than "C:".
- Text.Lower: lowers ASCII letters only. No other character lowers to a character of "1", "true", "t" or "yes", so the `win_console` test gives the same answer as Python's Unicode `str.lower`.
- Text.SplitLinesJoin, Text.SplitLinesJoinCrlf: reconstruction is stated for text whose boundaries are all "\n" or all "\r\n". Text mixing them, or using the other Unicode boundaries, is covered only by `SplitLines`' own contract: no line holds a boundary.
- Validation.Message: states only that the platform message quotes the platform. It does not state that no two checks share a message, because comparing the seventeen long message literals pairwise is beyond the solver's resource limit.
- Text.Replace: requires a non-empty pattern. The source only replaces "Qt" and " ".
- VcEnv.LibSearchOrder: assumes at least one module. Every finalized module list has at least one entry, because `split` never returns an empty list.
- The text of the `setup.cfg not found` assertion is not modelled. Initialisation fails with the `SetupCfgNotFound` error instead.
- `setup.py` and `pyqtinstaller/__init__.py` are not modelled, because they contain no logic.
