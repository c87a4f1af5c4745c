/**
 * The command-execution gateway, `handle_call_tool`: a call is rejected (unknown tool,
 * missing arguments), answered without launching anything (no command, blocked
 * command), or launched as `prefix + " " + command` with the effective timeout, and
 * the launch's outcome is rendered as the reply text. Launching is the parameter
 * `run`, standing for `subprocess.run` with `shell=False` and captured output.
 */
module Gateway {
  import opened Wrappers
  import opened Text
  import opened ServerConfig
  import opened Validation
  import opened Report

  /** What `handle_call_tool` raises instead of returning a reply. */
  datatype Raised =
    | UnknownTool(name: string)  // ValueError("Unknown tool: <name>")
    | MissingArguments           // ValueError("Missing arguments")
    | NotIterable                // TypeError from `cmd in command` when the input is an integer

  /** The `arguments` dictionary of a call. */
  type Arguments = map<string, ArgValue>

  /** `subprocess.run(command_line, timeout=...)`, seen from outside. */
  type Runner = (string, ArgValue) -> Outcome

  /** The content item every reply is wrapped in. */
  datatype TextContent = TextContent(kind: string, text: string)

  /** The terminal states of a call that is not raised. */
  datatype Stage =
    | EmptyCommand
    | Blocked(command: string)
    | Launched(commandLine: string, timeout: ArgValue)

  const EmptyCommandText := "Error: Command not specified."
  const WarningGlyph := "\U{26A0}\U{FE0F}"

  function WarningText(command: string): string
  {
    WarningGlyph + " This command contains a potentially dangerous operation: " + command + "\n"
    + "Please reformulate it or explicitly confirm that you want to execute it."
  }

  /** The launched command line: the prefix and the command joined by one space, nothing escaped. */
  function CommandLine(prefix: string, command: string): string
  {
    prefix + " " + command
  }

  /** `arguments.get("timeout", config["exec_timeout"])`. */
  function EffectiveTimeout(c: Config, args: Arguments): ArgValue
  {
    if "timeout" in args then args["timeout"] else Num(c.execTimeout)
  }

  /** `not arguments`: absent or an empty dictionary. */
  predicate NoArguments(arguments: Option<Arguments>)
  {
    arguments.None? || |arguments.value| == 0
  }

  /** `not arguments.get("input")`: missing, empty string or zero. */
  predicate NoCommand(args: Arguments)
  {
    "input" !in args || Falsy(args["input"])
  }

  /** The decisions of `handle_call_tool` up to the launch, in the source's order. */
  function Classify(c: Config, name: string, arguments: Option<Arguments>): Result<Stage, Raised>
  {
    if name != c.execName then Failure(UnknownTool(name))
    else if NoArguments(arguments) then Failure(MissingArguments)
    else
      var args := arguments.value;
      var timeout := EffectiveTimeout(c, args);
      if NoCommand(args) then Success(EmptyCommand)
      else
        var command := args["input"];
        match CheckArgument(c.forbiddenWords, command)
        case None => Failure(NotIterable)
        case Some(true) => Success(Blocked(Show(command)))
        case Some(false) => Success(Launched(CommandLine(c.prefix, Show(command)), timeout))
  }

  /** The reply text of each terminal state; only a launched call consults `run`. */
  function ReplyText(stage: Stage, run: Runner, decode: Decoder): string
  {
    match stage
    case EmptyCommand => EmptyCommandText
    case Blocked(command) => WarningText(command)
    case Launched(line, timeout) => RenderOutcome(timeout, run(line, timeout), decode)
  }

  function Reply(text: string): seq<TextContent>
  {
    [TextContent("text", text)]
  }

  function HandleCallTool(c: Config, name: string, arguments: Option<Arguments>, run: Runner, decode: Decoder)
    : Result<seq<TextContent>, Raised>
  {
    match Classify(c, name, arguments)
    case Failure(e) => Failure(e)
    case Success(stage) => Success(Reply(ReplyText(stage, run, decode)))
  }

  // ---------------------------------------------------------------- properties

  /**
   * A call raises exactly for an unknown tool name, for missing or empty arguments, and
   * for an integer command checked against a non-empty blocklist; every other case,
   * including a timeout or a failed launch, is an ordinary one-item reply.
   */
  lemma RaisesExactly(c: Config, name: string, arguments: Option<Arguments>, run: Runner, decode: Decoder)
    ensures HandleCallTool(c, name, arguments, run, decode).Failure? <==>
            || name != c.execName
            || NoArguments(arguments)
            || (!NoCommand(arguments.value) && arguments.value["input"].Num? && |c.forbiddenWords| > 0)
    ensures name != c.execName ==> HandleCallTool(c, name, arguments, run, decode) == Failure(UnknownTool(name))
    ensures name == c.execName && NoArguments(arguments) ==>
            HandleCallTool(c, name, arguments, run, decode) == Failure(MissingArguments)
    ensures HandleCallTool(c, name, arguments, run, decode).Success? ==>
            |HandleCallTool(c, name, arguments, run, decode).value| == 1
  {
  }

  /**
   * A missing or empty command is answered with the fixed error text, before the
   * blocklist is consulted (whatever it holds) and without launching anything.
   */
  lemma EmptyCommandFirst(c: Config, arguments: Option<Arguments>, run: Runner, decode: Decoder)
    requires !NoArguments(arguments) && NoCommand(arguments.value)
    ensures Classify(c, c.execName, arguments) == Success(EmptyCommand)
    ensures HandleCallTool(c, c.execName, arguments, run, decode) == Success(Reply("Error: Command not specified."))
  {
  }

  /** The warning starts with the warning glyph and echoes the command verbatim. */
  lemma WarningEchoesCommand(command: string)
    ensures StartsWith(WarningText(command), WarningGlyph)
    ensures IsSubstring(command, WarningText(command))
  {
    var text := WarningText(command);
    var lead := WarningGlyph + " This command contains a potentially dangerous operation: ";
    assert text == lead + command + ("\n" + "Please reformulate it or explicitly confirm that you want to execute it.");
    assert text[|lead|..|lead| + |command|] == command;
    assert OccursAt(command, text, |lead|);
  }

  /**
   * A non-empty string command containing a forbidden word is blocked: the reply is the
   * warning echoing it, whatever `run` would have done, so nothing is launched.
   */
  lemma BlockedCommand(c: Config, arguments: Option<Arguments>, command: string, run: Runner, decode: Decoder)
    requires !NoArguments(arguments) && "input" in arguments.value && arguments.value["input"] == Str(command)
    requires command != ""
    requires exists w :: w in c.forbiddenWords && IsSubstring(w, command)
    ensures Classify(c, c.execName, arguments) == Success(Blocked(command))
    ensures HandleCallTool(c, c.execName, arguments, run, decode) == Success(Reply(WarningText(command)))
    ensures IsSubstring(command, WarningText(command))
  {
    RequiresValidationSpec(c.forbiddenWords, command);
    WarningEchoesCommand(command);
  }

  /**
   * A call launches exactly when its command is present and passes the blocklist; the
   * command line is then the prefix, one space and the command, and the timeout is the
   * call's own or else the configured default. A launched string command contains no
   * forbidden word.
   */
  lemma LaunchedExactly(c: Config, name: string, arguments: Option<Arguments>)
    ensures (Classify(c, name, arguments).Success? && Classify(c, name, arguments).value.Launched?) <==>
            && name == c.execName
            && !NoArguments(arguments)
            && !NoCommand(arguments.value)
            && CheckArgument(c.forbiddenWords, arguments.value["input"]) == Some(false)
    ensures Classify(c, name, arguments).Success? && Classify(c, name, arguments).value.Launched? ==>
            var args := arguments.value;
            && Classify(c, name, arguments).value.commandLine == c.prefix + " " + Show(args["input"])
            && Classify(c, name, arguments).value.timeout ==
               (if "timeout" in args then args["timeout"] else Num(c.execTimeout))
            && forall w :: w in c.forbiddenWords ==> !IsSubstring(w, Show(args["input"]))
  {
    var r := Classify(c, name, arguments);
    if r.Success? && r.value.Launched? {
      var command := arguments.value["input"];
      if command.Str? {
        RequiresValidationSpec(c.forbiddenWords, command.text);
      }
    }
  }

  /**
   * A present string command that passes the blocklist is launched behind the prefix,
   * and the reply renders what that launch did.
   */
  lemma LaunchesCommand(c: Config, args: Arguments, command: string, run: Runner, decode: Decoder)
    requires "input" in args && args["input"] == Str(command) && command != ""
    requires !RequiresValidation(c.forbiddenWords, command)
    ensures Classify(c, c.execName, Some(args)) ==
            Success(Launched(CommandLine(c.prefix, command), EffectiveTimeout(c, args)))
    ensures HandleCallTool(c, c.execName, Some(args), run, decode) ==
            Success(Reply(RenderOutcome(EffectiveTimeout(c, args),
                                        run(CommandLine(c.prefix, command), EffectiveTimeout(c, args)),
                                        decode)))
  {
  }

  /** Only a launched call looks at what the process did: the other replies are the same for every `run`. */
  lemma NotLaunchedIgnoresRun(c: Config, name: string, arguments: Option<Arguments>, run1: Runner, run2: Runner, decode: Decoder)
    requires !(Classify(c, name, arguments).Success? && Classify(c, name, arguments).value.Launched?)
    ensures HandleCallTool(c, name, arguments, run1, decode) == HandleCallTool(c, name, arguments, run2, decode)
  {
  }

  /**
   * The outcome of a launch becomes the reply: the completed-run report, the timeout
   * message naming the effective timeout, or the execution error carrying the message.
   */
  lemma LaunchedReply(c: Config, name: string, arguments: Option<Arguments>, run: Runner, decode: Decoder)
    requires Classify(c, name, arguments).Success? && Classify(c, name, arguments).value.Launched?
    ensures var stage := Classify(c, name, arguments).value;
            var outcome := run(stage.commandLine, stage.timeout);
            var text := HandleCallTool(c, name, arguments, run, decode).value[0].text;
            && HandleCallTool(c, name, arguments, run, decode).Success?
            && (outcome.Completed? ==> ReadReturnCode(text) == Some(outcome.code))
            && (outcome.TimedOut? ==>
                text == "The command timed out after " + Show(EffectiveTimeout(c, arguments.value)) + " seconds")
            && (outcome.SpawnFailed? ==> text == "Error executing the command: " + outcome.message)
  {
    var stage := Classify(c, name, arguments).value;
    var outcome := run(stage.commandLine, stage.timeout);
    if outcome.Completed? {
      ReturnCodeReadBack(outcome.code, outcome.stdout, outcome.stderr, decode);
    }
  }

  /** The output-filter patterns and the tool description never influence a call. */
  lemma ConfigFieldsUnused(c: Config, patterns: seq<string>, description: string,
                           name: string, arguments: Option<Arguments>, run: Runner, decode: Decoder)
    ensures HandleCallTool(c.(filterPatterns := patterns, execDescription := description), name, arguments, run, decode)
         == HandleCallTool(c, name, arguments, run, decode)
  {
  }

  /** With an empty exec name no tool is listed, yet a call named "" is still dispatched. */
  lemma UnlistedNameStillCalled(c: Config, arguments: Option<Arguments>, run: Runner, decode: Decoder)
    requires c.execName == ""
    ensures !HandleCallTool(c, "", arguments, run, decode).Failure?
            || !HandleCallTool(c, "", arguments, run, decode).error.UnknownTool?
  {
  }

  // ---------------------------------------------------------------- reading replies

  /** The kind of reply a caller can recognise from the text alone. */
  datatype ReplyKind = NotSpecified | Warning | ReturnCode | TimeoutKind | ExecutionError

  /** How a caller tells replies apart: by the exact error text or by the leading marker. */
  function KindOf(text: string): Option<ReplyKind>
  {
    if text == EmptyCommandText then Some(NotSpecified)
    else if StartsWith(text, WarningGlyph) then Some(Warning)
    else if StartsWith(text, ReturnCodeLabel) then Some(ReturnCode)
    else if StartsWith(text, TimedOutLabel) then Some(TimeoutKind)
    else if StartsWith(text, ExecErrorLabel) then Some(ExecutionError)
    else None
  }

  function ExpectedKind(stage: Stage, run: Runner): ReplyKind
  {
    match stage
    case EmptyCommand => NotSpecified
    case Blocked(_) => Warning
    case Launched(line, timeout) =>
      match run(line, timeout)
      case Completed(_, _, _) => ReturnCode
      case TimedOut => TimeoutKind
      case SpawnFailed(_) => ExecutionError
  }

  lemma WarningKind(text: string)
    requires StartsWith(text, WarningGlyph)
    ensures KindOf(text) == Some(Warning)
  {
    assert text[0] == WarningGlyph[0];
  }

  lemma ReturnCodeKind(text: string)
    requires StartsWith(text, ReturnCodeLabel)
    ensures KindOf(text) == Some(ReturnCode)
  {
    assert text[0] == ReturnCodeLabel[0];
  }

  lemma TimeoutKindOf(text: string)
    requires StartsWith(text, TimedOutLabel)
    ensures KindOf(text) == Some(TimeoutKind)
  {
    assert text[0] == TimedOutLabel[0];
  }

  lemma ExecutionErrorKind(text: string)
    requires StartsWith(text, ExecErrorLabel)
    ensures KindOf(text) == Some(ExecutionError)
  {
    assert text[0] == ExecErrorLabel[0] && text[5] == ExecErrorLabel[5];
  }

  /** Every reply text identifies the terminal state (and the launch outcome) it came from. */
  lemma RepliesAreReadable(stage: Stage, run: Runner, decode: Decoder)
    ensures KindOf(ReplyText(stage, run, decode)) == Some(ExpectedKind(stage, run))
  {
    var text := ReplyText(stage, run, decode);
    match stage
    case EmptyCommand =>
    case Blocked(command) =>
      WarningEchoesCommand(command);
      WarningKind(text);
    case Launched(line, timeout) =>
      match run(line, timeout)
      case Completed(code, out, err) =>
        CompletedLayout(code, out, err, decode);
        ReturnCodeKind(text);
      case TimedOut =>
        assert text == TimedOutLabel + (Show(timeout) + " seconds");
        TimeoutKindOf(text);
      case SpawnFailed(message) =>
        assert text == ExecErrorLabel + message;
        ExecutionErrorKind(text);
  }
}
