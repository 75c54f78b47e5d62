/** The Visual C++ build environment: the compiler's binary directory, the
    parsing of the `set` output printed after `vcvarsall.bat`, and the
    extension of `LIB` with the PyQt and sip libraries. The output text is a
    parameter; running the batch file is not modelled. */
module VcEnv {
  import opened Wrappers
  import opened Text
  import WinPath
  import opened Options
  import opened Libraries

  /** Environment variables, by exact (case-sensitive) name. */
  type Env = map<string, string>

  const PathVar := "Path"
  const LibVar := "LIB"
  const PythonDirVar := "PYTHON_DIR"

  datatype EnvError =
    | MalformedLine(line: string)  // a line that does not split into exactly two parts on '='
    | MissingPath                  // no `Path` variable was printed
    | MissingLib                   // no `LIB` variable was printed

  /** `get_vc_bin_dir`: `vc_dir\bin` for x86, `vc_dir\bin\<platform>` otherwise.
      Joining `bin\<platform>` onto the VC directory is joining `bin` and
      then the platform. */
  function VcBinDir(vcDir: string, platform: string): (r: string)
    ensures platform == "x86" ==> r == WinPath.Join(vcDir, "bin")
    ensures platform != "x86" ==> r == WinPath.Join(WinPath.Join(vcDir, "bin"), platform)
    ensures WinPath.Component(vcDir) && platform == "x86" ==> r == vcDir + "\\bin"
    ensures WinPath.Component(vcDir) && WinPath.Component(platform) && platform != "x86" ==>
      r == vcDir + "\\bin\\" + platform
  {
    var dir := WinPath.Join(vcDir, if platform == "x86" then "bin" else WinPath.Join("bin", platform));
    WinPath.JoinAssociative(vcDir, "bin", platform);
    if WinPath.Component(vcDir) && WinPath.Component(platform) then
      WinPath.JoinComponents(vcDir, "bin");
      WinPath.JoinComponents(vcDir + "\\bin", platform);
      dir
    else if WinPath.Component(vcDir) then
      WinPath.JoinComponents(vcDir, "bin");
      dir
    else
      dir
  }

  /** `line.split('=')` unpacks into a name and a value: exactly one '='. */
  predicate WellFormed(line: string)
  {
    Count(line, '=') == 1
  }

  predicate AllWellFormed(lines: seq<string>)
  {
    forall i :: 0 <= i < |lines| ==> WellFormed(lines[i])
  }

  function NameOf(line: string): (n: string)
    requires WellFormed(line)
    ensures '=' !in n
  {
    SplitCount(line, '=');
    Split(line, '=')[0]
  }

  function ValueOf(line: string): (v: string)
    requires WellFormed(line)
    ensures '=' !in v
  {
    SplitCount(line, '=');
    Split(line, '=')[1]
  }

  /** A well-formed line is its name, '=', and its value. */
  lemma LineParts(line: string)
    requires WellFormed(line)
    ensures NameOf(line) + "=" + ValueOf(line) == line
  {
    SplitCount(line, '=');
    JoinSplit(line, '=');
    var parts := Split(line, '=');
    assert parts[1..] == [parts[1]];
  }

  /** Index of the first line that does not unpack, if any. */
  function FirstMalformed(lines: seq<string>): (r: Option<nat>)
    ensures r.None? <==> AllWellFormed(lines)
    ensures r.Some? ==>
              && r.value < |lines| && !WellFormed(lines[r.value])
              && (forall j :: 0 <= j < r.value ==> WellFormed(lines[j]))
  {
    if |lines| == 0 then None
    else if !WellFormed(lines[0]) then Some(0)
    else
      match FirstMalformed(lines[1..])
      case None => None
      case Some(i) => Some(i + 1)
  }

  /** The loop `vc_env[name] = value` over the lines, in order: earlier
      names stay, every line's name is set, and the last line's value stands. */
  function AssignLines(env: Env, lines: seq<string>): (r: Env)
    requires AllWellFormed(lines)
    ensures env.Keys <= r.Keys
    ensures forall i :: 0 <= i < |lines| ==> NameOf(lines[i]) in r
    ensures |lines| > 0 ==> r[NameOf(lines[|lines| - 1])] == ValueOf(lines[|lines| - 1])
    decreases |lines|
  {
    if |lines| == 0 then env
    else AssignLines(env[NameOf(lines[0]) := ValueOf(lines[0])], lines[1..])
  }

  /** Reference definition: the value given to `name` by the last line that sets it. */
  function LastValue(lines: seq<string>, name: string): (v: Option<string>)
    requires AllWellFormed(lines)
  {
    if |lines| == 0 then None
    else
      var last := lines[|lines| - 1];
      if NameOf(last) == name then Some(ValueOf(last)) else LastValue(lines[..|lines| - 1], name)
  }

  /** Some line sets `name`. */
  predicate Sets(lines: seq<string>, name: string)
  {
    exists i :: 0 <= i < |lines| && WellFormed(lines[i]) && NameOf(lines[i]) == name
  }

  lemma {:induction false} LastValueFound(lines: seq<string>, name: string)
    requires AllWellFormed(lines)
    ensures LastValue(lines, name).Some? <==> Sets(lines, name)
  {
    if |lines| > 0 {
      var init := lines[..|lines| - 1];
      LastValueFound(init, name);
      if Sets(lines, name) && NameOf(lines[|lines| - 1]) != name {
        var i :| 0 <= i < |lines| && WellFormed(lines[i]) && NameOf(lines[i]) == name;
        assert init[i] == lines[i];
      }
      if Sets(init, name) {
        var i :| 0 <= i < |init| && WellFormed(init[i]) && NameOf(init[i]) == name;
        assert lines[i] == init[i];
      }
    }
  }

  /** Looking from the front: a later line's value wins over the first line's. */
  lemma {:induction false} LastValueCons(lines: seq<string>, name: string)
    requires |lines| > 0 && AllWellFormed(lines)
    ensures LastValue(lines, name) ==
      if LastValue(lines[1..], name).Some? then LastValue(lines[1..], name)
      else if NameOf(lines[0]) == name then Some(ValueOf(lines[0])) else None
    decreases |lines|
  {
    if |lines| > 1 {
      var init := lines[..|lines| - 1];
      assert init[1..] == lines[1..][..|lines[1..]| - 1];
      assert lines[1..][|lines[1..]| - 1] == lines[|lines| - 1];
      LastValueCons(init, name);
    }
  }

  /** Later lines overwrite earlier ones: after the loop each name holds the
      value of the last line that sets it, and names no line sets keep their
      earlier value. */
  lemma {:induction false} LastAssignmentWins(env: Env, lines: seq<string>, name: string)
    requires AllWellFormed(lines)
    ensures name in AssignLines(env, lines) <==> name in env || LastValue(lines, name).Some?
    ensures name in AssignLines(env, lines) ==>
              AssignLines(env, lines)[name] ==
              (if LastValue(lines, name).Some? then LastValue(lines, name).value else env[name])
    decreases |lines|
  {
    if |lines| > 0 {
      var env' := env[NameOf(lines[0]) := ValueOf(lines[0])];
      LastAssignmentWins(env', lines[1..], name);
      LastValueCons(lines, name);
    }
  }

  lemma AssignedNames(lines: seq<string>)
    requires AllWellFormed(lines)
    ensures forall name :: name in AssignLines(map[], lines) <==> Sets(lines, name)
    ensures forall name :: name in AssignLines(map[], lines) ==>
      LastValue(lines, name) == Some(AssignLines(map[], lines)[name])
  {
    forall name
      ensures name in AssignLines(map[], lines) <==> Sets(lines, name)
      ensures name in AssignLines(map[], lines) ==> LastValue(lines, name) == Some(AssignLines(map[], lines)[name])
    {
      LastAssignmentWins(map[], lines, name);
      LastValueFound(lines, name);
    }
  }

  /** `get_vc_env` from the `set` output on: every line must unpack into a
      name and a value; the last value of each name is kept; `Path` must be
      present and gets the compiler's binary directory in front. */
  function ParseVcEnv(output: string, vcDir: string, platform: string): (r: Result<Env, EnvError>)
    ensures r.Success? <==> AllWellFormed(SplitLines(output)) && Sets(SplitLines(output), PathVar)
    ensures !AllWellFormed(SplitLines(output)) ==> r.Failure? && r.error.MalformedLine?
    ensures AllWellFormed(SplitLines(output)) && !Sets(SplitLines(output), PathVar) ==>
      r == Failure(MissingPath)
    ensures r.Failure? && r.error.MalformedLine? ==> exists i ::
      && 0 <= i < |SplitLines(output)| && r.error.line == SplitLines(output)[i]
      && !WellFormed(SplitLines(output)[i])
      && (forall j :: 0 <= j < i ==> WellFormed(SplitLines(output)[j]))
    ensures r.Success? ==> forall name :: name in r.value <==> Sets(SplitLines(output), name)
    ensures r.Success? ==> forall name :: name in r.value && name != PathVar ==>
      LastValue(SplitLines(output), name) == Some(r.value[name])
    ensures r.Success? ==>
      && LastValue(SplitLines(output), PathVar).Some?
      && r.value[PathVar] == VcBinDir(vcDir, platform) + ";" + LastValue(SplitLines(output), PathVar).value
  {
    var lines := SplitLines(output);
    match FirstMalformed(lines)
    case Some(i) => Failure(MalformedLine(lines[i]))
    case None =>
      var env := AssignLines(map[], lines);
      AssignedNames(lines);
      if PathVar !in env then Failure(MissingPath)
      else Success(env[PathVar := VcBinDir(vcDir, platform) + ";" + env[PathVar]])
  }

  /** The value of `LIB` handed to the build: the PyQt library directories,
      then sip's, then the original value, separated by ';'. */
  function ExtendedLib(o: Options, lib: string): (r: string)
    ensures |r| > |lib| && r[|r| - |lib| - 1..] == ";" + lib
  {
    Text.Join(PyQtLibPaths(o.prebuiltLibrariesDir, o.qtModules), ";") + ";"
      + SipLibPath(o.prebuiltLibrariesDir) + ";" + lib
  }

  /** `_get_vc_env`: the parsed environment with `LIB` extended and
      `PYTHON_DIR` set; `LIB` must have been printed. */
  function BuildEnv(output: string, o: Options): (r: Result<Env, EnvError>)
    ensures r.Success? <==> ParseVcEnv(output, o.vcDir, o.platform).Success?
                            && LibVar in ParseVcEnv(output, o.vcDir, o.platform).value
    ensures ParseVcEnv(output, o.vcDir, o.platform).Failure? ==>
      r == Failure(ParseVcEnv(output, o.vcDir, o.platform).error)
    ensures ParseVcEnv(output, o.vcDir, o.platform).Success?
            && LibVar !in ParseVcEnv(output, o.vcDir, o.platform).value ==>
      r == Failure(MissingLib)
    ensures r.Success? ==>
      var parsed := ParseVcEnv(output, o.vcDir, o.platform).value;
      && r.value.Keys == parsed.Keys + {PythonDirVar}
      && r.value[PythonDirVar] == o.pythonDir
      && r.value[LibVar] == ExtendedLib(o, parsed[LibVar])
      && forall k :: k in parsed && k != LibVar && k != PythonDirVar ==> r.value[k] == parsed[k]
  {
    var env :- ParseVcEnv(output, o.vcDir, o.platform);
    if LibVar !in env then Failure(MissingLib)
    else Success(env[LibVar := ExtendedLib(o, env[LibVar])][PythonDirVar := o.pythonDir])
  }

  /** Read as a ';'-separated search list, the extended `LIB` searches the
      PyQt library directories (in module order), then sip's, then the
      original entries. */
  lemma LibSearchOrder(o: Options, lib: string)
    requires |o.qtModules| >= 1
    requires forall p :: p in PyQtLibPaths(o.prebuiltLibrariesDir, o.qtModules) ==> ';' !in p
    requires ';' !in SipLibPath(o.prebuiltLibrariesDir)
    ensures Split(ExtendedLib(o, lib), ';') ==
      PyQtLibPaths(o.prebuiltLibrariesDir, o.qtModules) + [SipLibPath(o.prebuiltLibrariesDir)] + Split(lib, ';')
  {
    var paths := PyQtLibPaths(o.prebuiltLibrariesDir, o.qtModules);
    var sip := SipLibPath(o.prebuiltLibrariesDir);
    var parts := paths + [sip];
    assert NoneContain(parts, ';') by {
      forall i | 0 <= i < |parts| ensures ';' !in parts[i] {
        if i < |paths| { assert parts[i] in paths; }
      }
    }
    JoinAppend(paths, sip, ";");
    assert ExtendedLib(o, lib) == Text.Join(parts, [';']) + [';'] + lib;
    SplitJoinThen(parts, ';', lib);
  }

  lemma {:induction false} JoinAppend(xs: seq<string>, x: string, sep: string)
    requires |xs| >= 1
    ensures Text.Join(xs + [x], sep) == Text.Join(xs, sep) + sep + x
    decreases |xs|
  {
    if |xs| > 1 {
      JoinAppend(xs[1..], x, sep);
      assert (xs + [x])[1..] == xs[1..] + [x];
    } else {
      assert (xs + [x])[1..] == [x];
    }
  }

  /** In the built environment `Path` starts with the compiler's binary
      directory, ahead of everything the batch file put there. */
  lemma PathStartsWithBinDir(output: string, o: Options)
    requires BuildEnv(output, o).Success?
    ensures var bin := VcBinDir(o.vcDir, o.platform); var path := BuildEnv(output, o).value[PathVar];
      |path| > |bin| && path[..|bin| + 1] == bin + ";"
  {
  }
}
