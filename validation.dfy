/** The blocklist check `requires_validation`. */
module Validation {
  import opened Wrappers
  import opened Text
  import opened ServerConfig

  /**
   * `any(cmd in command for cmd in forbidden_words)`: some forbidden word is a
   * substring of the command, tried in list order.
   */
  function RequiresValidation(forbiddenWords: seq<string>, command: string): bool
  {
    |forbiddenWords| > 0 &&
    (Contains(command, forbiddenWords[0]) || RequiresValidation(forbiddenWords[1..], command))
  }

  lemma {:induction false} RequiresValidationSpec(forbiddenWords: seq<string>, command: string)
    ensures RequiresValidation(forbiddenWords, command) <==>
            exists w :: w in forbiddenWords && IsSubstring(w, command)
  {
    if |forbiddenWords| > 0 {
      var w0 := forbiddenWords[0];
      RequiresValidationSpec(forbiddenWords[1..], command);
      ContainsIsSubstring(command, w0);
      if exists w :: w in forbiddenWords && IsSubstring(w, command) {
        var w :| w in forbiddenWords && IsSubstring(w, command);
        if w != w0 {
          assert w in forbiddenWords[1..];
        }
      }
    }
  }

  /** An empty blocklist blocks nothing. */
  lemma NoWordsNeverBlock(command: string)
    ensures !RequiresValidation([], command)
  {
  }

  /** An empty-string entry blocks every command, because `"" in s` always holds. */
  lemma EmptyWordBlocksAll(forbiddenWords: seq<string>, command: string)
    requires "" in forbiddenWords
    ensures RequiresValidation(forbiddenWords, command)
  {
    RequiresValidationSpec(forbiddenWords, command);
    assert OccursAt("", command, 0);
  }

  /** Matching is on raw substrings, not on words: a forbidden word inside a longer word still blocks. */
  lemma SubstringNotToken(forbiddenWords: seq<string>, prefix: string, word: string, suffix: string)
    requires word in forbiddenWords
    ensures RequiresValidation(forbiddenWords, prefix + word + suffix)
  {
    var command := prefix + word + suffix;
    RequiresValidationSpec(forbiddenWords, command);
    assert command[|prefix|..|prefix| + |word|] == word;
    assert OccursAt(word, command, |prefix|);
  }

  /**
   * `requires_validation` applied to an argument value. For a string this is the check
   * above. For an integer, `cmd in command` raises `TypeError` on the first forbidden word,
   * so the answer is `None` (raised) unless the list is empty and `any` never evaluates `in`.
   */
  function CheckArgument(forbiddenWords: seq<string>, command: ArgValue): (r: Option<bool>)
    ensures r.None? <==> command.Num? && |forbiddenWords| > 0
    ensures command.Str? ==> r == Some(RequiresValidation(forbiddenWords, command.text))
    ensures r == Some(true) ==> exists w :: w in forbiddenWords && IsSubstring(w, Show(command))
  {
    match command
    case Str(s) =>
      RequiresValidationSpec(forbiddenWords, s);
      Some(RequiresValidation(forbiddenWords, s))
    case Num(_) =>
      if |forbiddenWords| == 0 then Some(false) else None
  }
}
