/** The rule `assert_call` applies to a finished external command: a
    non-zero exit status is fatal and reported with the command line. The
    command itself is not run here; its exit status is a parameter. */
module Process {
  import opened Wrappers
  import opened Text

  /** The message of a failed command. */
  function FailureMessage(cmd: seq<string>, exitCode: int): (msg: string)
  {
    Join(cmd, " ") + " exited with code " + IntToString(exitCode) + " - see output for details"
  }

  /** `assert_call` once the command has exited with `exitCode`. */
  function AssertCall(cmd: seq<string>, exitCode: int): (r: Outcome<string>)
    ensures r.Pass? <==> exitCode == 0
    ensures r.Fail? ==> r.error == FailureMessage(cmd, exitCode)
  {
    if exitCode == 0 then Pass else Fail(FailureMessage(cmd, exitCode))
  }

  /** A failure message starts with the command line, space-separated, and
      the exit status can be read back from it: two failures of the same
      command with different statuses never read the same. */
  lemma FailureIdentifiesCall(cmd: seq<string>, a: int, b: int)
    ensures var line := Join(cmd, " ");
      FailureMessage(cmd, a)[..|line|] == line
    ensures FailureMessage(cmd, a) == FailureMessage(cmd, b) ==> a == b
  {
    var prefix := Join(cmd, " ") + " exited with code ";
    var suffix := " - see output for details";
    if FailureMessage(cmd, a) == FailureMessage(cmd, b) {
      var ma := FailureMessage(cmd, a);
      assert ma == prefix + IntToString(a) + suffix;
      var sa := IntToString(a);
      var sb := IntToString(b);
      assert |sa| == |sb|;
      assert sa == ma[|prefix|..|prefix| + |sa|];
      assert sb == ma[|prefix|..|prefix| + |sb|];
      IntToStringInjective(a, b);
    }
  }
}
