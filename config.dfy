/**
 * The server's configuration record and the values a tool call carries.
 * The source keeps configuration in a module-level dictionary built once from the
 * command line; here it is an immutable record passed to every operation, so the
 * tests' overwrite-and-restore of `forbidden_words` is simply a call with another record.
 */
module ServerConfig {
  import opened Text

  /**
   * The configuration dictionary: launcher prefix (`process_path_args`), forbidden
   * substrings, regular-expression sources of the output filters, the exec tool's
   * name and description, and the default timeout in seconds.
   */
  datatype Config = Config(
    prefix: string,
    forbiddenWords: seq<string>,
    filterPatterns: seq<string>,
    execName: string,
    execDescription: string,
    execTimeout: int)

  /** The command-line defaults; `cwd` stands for the working directory read at start-up. */
  function DefaultConfig(cwd: string): Config
  {
    Config(
      "wsl.exe --cd " + cwd,
      ["rm -rf", "shutdown", "reboot"],
      ["\\x07", "\\x1b\\[25l"],
      "exec",
      "Executes a static command (ls pwd cat echo ps mkdir cp grep find git sed ...) and returns its result",
      60)
  }

  /** A JSON value in the `arguments` dictionary of a tool call: a string or an integer. */
  datatype ArgValue = Str(text: string) | Num(number: int)

  /** Python truthiness: the empty string and zero are false. */
  predicate Falsy(v: ArgValue)
  {
    v == Str("") || v == Num(0)
  }

  /** How an f-string renders the value: a string as itself, an integer in decimal. */
  function Show(v: ArgValue): string
  {
    match v
    case Str(s) => s
    case Num(n) => Decimal(n)
  }
}
