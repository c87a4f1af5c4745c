/**
 * The repository's integration tests, restated over the default configuration.
 * The process is left abstract: each scenario fixes only what `run` returns.
 * Where a scenario names its command through a parameter fixed by `requires`, that keeps
 * the verifier from unfolding the blocklist check character by character on a literal.
 */
module Scenarios {
  import opened Wrappers
  import opened Text
  import opened ServerConfig
  import opened Validation
  import opened Report
  import opened Gateway

  /** The default blocklist blocks exactly the commands containing "rm -rf", "shutdown" or "reboot". */
  lemma DefaultBlocklist(cwd: string, command: string)
    ensures RequiresValidation(DefaultConfig(cwd).forbiddenWords, command) <==>
            IsSubstring("rm -rf", command) || IsSubstring("shutdown", command) || IsSubstring("reboot", command)
  {
    var words := DefaultConfig(cwd).forbiddenWords;
    RequiresValidationSpec(words, command);
    assert words[0] == "rm -rf" && words[1] == "shutdown" && words[2] == "reboot";
    assert forall w :: w in words ==> w == "rm -rf" || w == "shutdown" || w == "reboot";
  }

  /** "sleep 3" contains no default forbidden word; "shutdown" is longer than the command. */
  lemma SleepAllowed(cwd: string)
    ensures !RequiresValidation(DefaultConfig(cwd).forbiddenWords, "sleep 3")
  {
    CharAbsent("rm -rf", "sleep 3", 0);
    ContainsIsSubstring("sleep 3", "shutdown");
    CharAbsent("reboot", "sleep 3", 0);
    assert !RequiresValidation(["reboot"], "sleep 3");
    assert !RequiresValidation(["shutdown", "reboot"], "sleep 3");
  }

  /** With the defaults, "rm -rf /" is answered with the warning echoing it. */
  lemma DefaultBlocksRmRf(cwd: string, run: Runner, decode: Decoder)
    ensures HandleCallTool(DefaultConfig(cwd), "exec", Some(map["input" := Str("rm -rf /")]), run, decode)
         == Success(Reply(WarningText("rm -rf /")))
  {
    var c := DefaultConfig(cwd);
    assert OccursAt("rm -rf", "rm -rf /", 0);
    assert "rm -rf" in c.forbiddenWords;
    BlockedCommand(c, Some(map["input" := Str("rm -rf /")]), "rm -rf /", run, decode);
  }

  /**
   * A blocklist overwritten with ["test_dangerous"] blocks "echo test_dangerous": the reply
   * carries the warning glyph and the word.
   */
  lemma OverwrittenWordBlocks(cwd: string, run: Runner, decode: Decoder)
    ensures var c := DefaultConfig(cwd).(forbiddenWords := ["test_dangerous"]);
            var r := HandleCallTool(c, "exec", Some(map["input" := Str("echo test_dangerous")]), run, decode);
            && r.Success?
            && IsSubstring(WarningGlyph, r.value[0].text)
            && IsSubstring("test_dangerous", r.value[0].text)
  {
    var c := DefaultConfig(cwd).(forbiddenWords := ["test_dangerous"]);
    var command := "echo test_dangerous";
    assert command[5..5 + |"test_dangerous"|] == "test_dangerous";
    assert OccursAt("test_dangerous", command, 5);
    assert "test_dangerous" in c.forbiddenWords;
    BlockedCommand(c, Some(map["input" := Str(command)]), command, run, decode);
    var text := WarningText(command);
    WarningEchoesCommand(command);
    assert OccursAt(WarningGlyph, text, 0);
    var i :| OccursAt(command, text, i);
    assert text[i + 5..i + 5 + |"test_dangerous"|] == command[5..5 + |"test_dangerous"|];
    assert OccursAt("test_dangerous", text, i + 5);
  }

  lemma TimeoutMessageForOne()
    ensures TimedOutLabel + Show(Num(1)) + " seconds" == "The command timed out after 1 seconds"
  {
    DecimalDigit(1);
  }

  /** "sleep 3" with timeout 1 is launched behind the prefix, and a timeout names 1 second. */
  lemma SleepTimesOut(cwd: string, command: string, run: Runner, decode: Decoder)
    requires command == "sleep 3"
    requires run("wsl.exe --cd " + cwd + " " + command, Num(1)) == TimedOut
    ensures HandleCallTool(DefaultConfig(cwd), "exec", Some(map["input" := Str(command), "timeout" := Num(1)]), run, decode)
         == Success(Reply("The command timed out after 1 seconds"))
  {
    var c := DefaultConfig(cwd);
    var args := map["input" := Str(command), "timeout" := Num(1)];
    SleepAllowed(cwd);
    assert EffectiveTimeout(c, args) == Num(1);
    LaunchesCommand(c, args, command, run, decode);
    TimeoutMessageForOne();
  }

  /** The report of a run that exits 0 with output only on stdout. */
  lemma SuccessfulReport(out: seq<byte>, decode: Decoder)
    requires |out| > 0
    ensures StartsWith(CompletedReport(0, out, [], decode), "return code: 0\n")
    ensures IsSubstring(StdoutMarker + decode(out) + "\n", CompletedReport(0, out, [], decode))
  {
    DecimalDigit(0);
    var text := CompletedReport(0, out, [], decode);
    var header := "return code: 0\n";
    var section := StdoutMarker + decode(out) + "\n";
    assert text == header + section;
    assert text[..|header|] == header;
    assert text[|header|..|header| + |section|] == section;
    assert OccursAt(section, text, |header|);
  }

  /**
   * A command without `-`, `u` and `b` passes the default blocklist: each default word
   * holds one of them.
   */
  lemma DefaultAllowsWithout(cwd: string, command: string)
    requires '-' !in command && 'u' !in command && 'b' !in command
    ensures !RequiresValidation(DefaultConfig(cwd).forbiddenWords, command)
  {
    CharAbsent("rm -rf", command, 3);
    CharAbsent("shutdown", command, 2);
    CharAbsent("reboot", command, 2);
    assert !RequiresValidation(["reboot"], command);
    assert !RequiresValidation(["shutdown", "reboot"], command);
  }

  /** The test's command `echo "Hello from WSL test"` passes the default blocklist. */
  lemma EchoMessageAllowed(cwd: string, command: string)
    requires command == "echo \"Hello from WSL test\""
    ensures !RequiresValidation(DefaultConfig(cwd).forbiddenWords, command)
  {
    assert '-' !in command && 'u' !in command && 'b' !in command;
    DefaultAllowsWithout(cwd, command);
  }

  /**
   * `echo "Hello from WSL test"` is launched behind the default prefix with the default
   * 60 seconds. When it completes with stdout whose decoded text holds the message, the
   * reply is one text item that contains "STDOUT" and the message, whatever the exit
   * code and stderr.
   */
  lemma EchoCompletes(cwd: string, message: string, command: string,
                      code: int, out: seq<byte>, err: seq<byte>, run: Runner, decode: Decoder)
    requires message == "Hello from WSL test"
    requires command == "echo \"Hello from WSL test\""
    requires run("wsl.exe --cd " + cwd + " " + command, Num(60)) == Completed(code, out, err)
    requires |out| > 0 && IsSubstring(message, decode(out))
    ensures var r := HandleCallTool(DefaultConfig(cwd), "exec", Some(map["input" := Str(command)]), run, decode);
            && r == Success(Reply(CompletedReport(code, out, err, decode)))
            && |r.value| == 1
            && IsSubstring("STDOUT", r.value[0].text)
            && IsSubstring(message, r.value[0].text)
  {
    var c := DefaultConfig(cwd);
    var args := map["input" := Str(command)];
    EchoMessageAllowed(cwd, command);
    assert EffectiveTimeout(c, args) == Num(60);
    LaunchesCommand(c, args, command, run, decode);
    StdoutShown(code, out, err, message, decode);
  }
}
