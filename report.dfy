/**
 * The text reported for one execution attempt. The process launch itself is not
 * modelled: its result arrives as an `Outcome`, and the UTF-8 decoding with
 * replacement (`bytes.decode('utf-8', errors='replace')`) arrives as a total
 * `Decoder`, since all the renderer relies on is that decoding never fails.
 */
module Report {
  import opened Wrappers
  import opened Text
  import opened ServerConfig

  newtype byte = x: int | 0 <= x < 256

  type Decoder = seq<byte> -> string

  /** What `subprocess.run` does: returns a completed process, raises `TimeoutExpired`, or raises anything else. */
  datatype Outcome =
    | Completed(code: int, stdout: seq<byte>, stderr: seq<byte>)
    | TimedOut
    | SpawnFailed(message: string)

  const ReturnCodeLabel := "return code: "
  const StdoutMarker := "STDOUT:\n"
  const StderrMarker := "STDERR:\n"
  const TimedOutLabel := "The command timed out after "
  const ExecErrorLabel := "Error executing the command: "

  function HeaderLine(code: int): string
  {
    ReturnCodeLabel + Decimal(code) + "\n"
  }

  function Section(marker: string, text: string): string
  {
    marker + text + "\n"
  }

  /** The report of a completed run: the header, then each non-empty stream's section, stdout first. */
  function CompletedReport(code: int, stdout: seq<byte>, stderr: seq<byte>, decode: Decoder): string
  {
    HeaderLine(code)
    + (if |stdout| > 0 then Section(StdoutMarker, decode(stdout)) else "")
    + (if |stderr| > 0 then Section(StderrMarker, decode(stderr)) else "")
  }

  /** The `output += ...` steps of the completed-run branch. */
  method FormatCompleted(code: int, stdout: seq<byte>, stderr: seq<byte>, decode: Decoder) returns (output: string)
    ensures output == CompletedReport(code, stdout, stderr, decode)
  {
    output := ReturnCodeLabel + Decimal(code) + "\n";
    if |stdout| > 0 {
      output := output + StdoutMarker + decode(stdout) + "\n";
    }
    if |stderr| > 0 {
      output := output + StderrMarker + decode(stderr) + "\n";
    }
  }

  /** The reply for each outcome; `timeout` is the effective timeout value the run was given. */
  function RenderOutcome(timeout: ArgValue, outcome: Outcome, decode: Decoder): string
  {
    match outcome
    case Completed(code, out, err) => CompletedReport(code, out, err, decode)
    case TimedOut => TimedOutLabel + Show(timeout) + " seconds"
    case SpawnFailed(message) => ExecErrorLabel + message
  }

  /** Reads the exit code back from the first line of a report, as a caller matching `return code: N` would. */
  function ReadReturnCode(text: string): Option<int>
  {
    if StartsWith(text, ReturnCodeLabel) then
      var rest := text[|ReturnCodeLabel|..];
      var k := FirstNewline(rest);
      if k < |rest| then ParseDecimal(rest[..k]) else None
    else None
  }

  lemma FirstNewlineAfter(a: string, b: string)
    requires forall i :: 0 <= i < |a| ==> a[i] != '\n'
    ensures FirstNewline(a + "\n" + b) == |a|
  {
    var s := a + "\n" + b;
    assert s[|a|] == '\n';
    assert forall j :: 0 <= j < |a| ==> s[j] == a[j];
  }

  /** The exit code can be read back from any text that begins with its header line. */
  lemma HeaderReadBack(code: int, tail: string)
    ensures ReadReturnCode(HeaderLine(code) + tail) == Some(code)
  {
    var digits := Decimal(code);
    var rest := digits + "\n" + tail;
    var text := HeaderLine(code) + tail;
    assert text == ReturnCodeLabel + rest;
    assert text[..|ReturnCodeLabel|] == ReturnCodeLabel;
    assert text[|ReturnCodeLabel|..] == rest;
    FirstNewlineAfter(digits, tail);
    assert rest[..|digits|] == digits;
    DecimalRoundTrip(code);
  }

  /** What follows the header line: the sections of the non-empty streams, stdout first. */
  function Sections(stdout: seq<byte>, stderr: seq<byte>, decode: Decoder): string
  {
    (if |stdout| > 0 then Section(StdoutMarker, decode(stdout)) else "")
    + (if |stderr| > 0 then Section(StderrMarker, decode(stderr)) else "")
  }

  lemma ReportSplits(code: int, stdout: seq<byte>, stderr: seq<byte>, decode: Decoder)
    ensures CompletedReport(code, stdout, stderr, decode) == HeaderLine(code) + Sections(stdout, stderr, decode)
  {
  }

  /** The exit code can always be read back from a completed run's report. */
  lemma ReturnCodeReadBack(code: int, stdout: seq<byte>, stderr: seq<byte>, decode: Decoder)
    ensures ReadReturnCode(CompletedReport(code, stdout, stderr, decode)) == Some(code)
  {
    ReportSplits(code, stdout, stderr, decode);
    HeaderReadBack(code, Sections(stdout, stderr, decode));
  }

  /**
   * Layout of the text after the header line: it begins with the STDOUT section exactly
   * when stdout is non-empty, and otherwise with the STDERR marker exactly when stderr is
   * non-empty; without stderr it is the STDOUT section alone, if any.
   */
  lemma SectionsLayout(stdout: seq<byte>, stderr: seq<byte>, decode: Decoder)
    ensures StartsWith(Sections(stdout, stderr, decode), StdoutMarker) <==> |stdout| > 0
    ensures |stdout| == 0 ==> (StartsWith(Sections(stdout, stderr, decode), StderrMarker) <==> |stderr| > 0)
    ensures |stdout| > 0 ==> StartsWith(Sections(stdout, stderr, decode), Section(StdoutMarker, decode(stdout)))
    ensures |stderr| == 0 ==>
            Sections(stdout, stderr, decode) == (if |stdout| > 0 then Section(StdoutMarker, decode(stdout)) else "")
  {
    var tail := Sections(stdout, stderr, decode);
    var outPart := if |stdout| > 0 then Section(StdoutMarker, decode(stdout)) else "";
    var errPart := if |stderr| > 0 then Section(StderrMarker, decode(stderr)) else "";
    assert tail == outPart + errPart;
    if |stdout| > 0 {
      assert tail[..|StdoutMarker|] == StdoutMarker;
      assert tail[..|outPart|] == outPart;
    } else {
      assert tail == errPart;
      if |stderr| > 0 {
        assert tail[..|StderrMarker|] == StderrMarker;
        assert tail[3] == 'E';
      } else {
        assert tail == "";
      }
    }
  }

  /**
   * Layout of a completed run's report: it begins with the header line; what follows
   * begins with the STDOUT section exactly when stdout is non-empty, and otherwise with
   * the STDERR section exactly when stderr is non-empty; with both streams empty the
   * report is the header line alone.
   */
  lemma CompletedLayout(code: int, stdout: seq<byte>, stderr: seq<byte>, decode: Decoder)
    ensures StartsWith(CompletedReport(code, stdout, stderr, decode), HeaderLine(code))
    ensures StartsWith(Sections(stdout, stderr, decode), StdoutMarker) <==> |stdout| > 0
    ensures |stdout| == 0 ==> (StartsWith(Sections(stdout, stderr, decode), StderrMarker) <==> |stderr| > 0)
    ensures |stdout| > 0 ==> StartsWith(Sections(stdout, stderr, decode), Section(StdoutMarker, decode(stdout)))
    ensures |stderr| == 0 ==>
            Sections(stdout, stderr, decode) == (if |stdout| > 0 then Section(StdoutMarker, decode(stdout)) else "")
    ensures |stdout| == 0 && |stderr| == 0 ==> CompletedReport(code, stdout, stderr, decode) == HeaderLine(code)
  {
    var header := HeaderLine(code);
    ReportSplits(code, stdout, stderr, decode);
    assert (header + Sections(stdout, stderr, decode))[..|header|] == header;
    SectionsLayout(stdout, stderr, decode);
    if |stdout| == 0 && |stderr| == 0 {
      assert header + Sections(stdout, stderr, decode) == header;
    }
  }

  /** A non-empty stderr always closes the report with its own section. */
  lemma StderrSectionLast(code: int, stdout: seq<byte>, stderr: seq<byte>, decode: Decoder)
    requires |stderr| > 0
    ensures var report := CompletedReport(code, stdout, stderr, decode);
            var section := Section(StderrMarker, decode(stderr));
            |section| <= |report| && report[|report| - |section|..] == section
  {
    var report := CompletedReport(code, stdout, stderr, decode);
    var section := Section(StderrMarker, decode(stderr));
    var front := HeaderLine(code) + (if |stdout| > 0 then Section(StdoutMarker, decode(stdout)) else "");
    assert report == front + section;
  }

  /**
   * A non-empty stdout is always shown: the report contains the `STDOUT` label and
   * every text that occurs in the decoded stdout.
   */
  lemma StdoutShown(code: int, stdout: seq<byte>, stderr: seq<byte>, text: string, decode: Decoder)
    requires |stdout| > 0 && IsSubstring(text, decode(stdout))
    ensures IsSubstring("STDOUT", CompletedReport(code, stdout, stderr, decode))
    ensures IsSubstring(text, CompletedReport(code, stdout, stderr, decode))
  {
    var header := HeaderLine(code);
    var section := Section(StdoutMarker, decode(stdout));
    var errPart := if |stderr| > 0 then Section(StderrMarker, decode(stderr)) else "";
    assert CompletedReport(code, stdout, stderr, decode) == header + section + errPart;
    assert section == "" + StdoutMarker + (decode(stdout) + "\n");
    assert OccursAt("STDOUT", StdoutMarker, 0);
    SubstringOfMiddle("STDOUT", "", StdoutMarker, decode(stdout) + "\n");
    SubstringOfMiddle("STDOUT", header, section, errPart);
    assert section == StdoutMarker + decode(stdout) + "\n";
    SubstringOfMiddle(text, StdoutMarker, decode(stdout), "\n");
    SubstringOfMiddle(text, header, section, errPart);
  }

  /**
   * The sections cannot always be told apart: a stdout whose decoded text is some
   * stdout text, a newline, the STDERR marker and some stderr text renders exactly
   * like that shorter stdout followed by a real stderr section.
   */
  lemma SectionsAmbiguous(code: int, stdout1: seq<byte>, stdout2: seq<byte>, stderr2: seq<byte>, decode: Decoder)
    requires |stdout1| > 0 && |stdout2| > 0 && |stderr2| > 0
    requires decode(stdout1) == decode(stdout2) + "\n" + StderrMarker + decode(stderr2)
    ensures CompletedReport(code, stdout1, [], decode) == CompletedReport(code, stdout2, stderr2, decode)
  {
    var out2 := decode(stdout2);
    var err2 := decode(stderr2);
    assert Section(StdoutMarker, decode(stdout1)) == Section(StdoutMarker, out2) + Section(StderrMarker, err2);
    ReportSplits(code, stdout1, [], decode);
    ReportSplits(code, stdout2, stderr2, decode);
  }
}
