/** The decision of `createImportFile` in main.ts: when the destination
    already exists the operator is asked whether to replace it, and the
    answer decides whether the run goes on. The answer is what `prompt`
    returns: absent (null) when there is no input to read, and the default
    "yes/no" when the operator just presses Enter. */
module Sink {
  import opened Wrappers

  /** The answers that count as agreement, compared exactly as typed. */
  const Affirmatives: seq<string> := ["yes", "y"]

  /** Whether to (re)create the destination file or to end the run. */
  datatype Preparation = Proceed | Abort

  /** The abort condition: an answer that is present, not empty and not
      one of the affirmatives. */
  predicate Declines(answer: Option<string>)
  {
    answer.Some? && answer.value != "" && answer.value !in Affirmatives
  }

  /** A missing destination is created without asking; an existing one is
      recreated unless the answer declines. */
  function PrepareDestination(fileExists: bool, answer: Option<string>): (r: Preparation)
    ensures r == Abort <==> fileExists && Declines(answer)
    ensures r == Abort <==> fileExists && answer !in {None, Some(""), Some("yes"), Some("y")}
    ensures !fileExists ==> r == Proceed
  {
    ProceedingAnswers(answer);
    if fileExists && Declines(answer) then Abort else Proceed
  }

  /** Exactly four answers let the run go on: no answer, the empty
      answer, "yes" and "y". */
  lemma ProceedingAnswers(answer: Option<string>)
    ensures !Declines(answer) <==> answer in {None, Some(""), Some("yes"), Some("y")}
  {
    if answer.Some? && answer.value !in ["", "yes", "y"] {
      assert answer != None && answer != Some("") && answer != Some("yes") && answer != Some("y");
    }
  }

  /** The comparison is case-sensitive: capitalised agreement declines.
      So does the prompt's default "yes/no", returned when the operator
      just presses Enter. */
  lemma CaseSensitive()
    ensures Declines(Some("Yes")) && Declines(Some("Y")) && Declines(Some("YES"))
    ensures Declines(Some("no")) && Declines(Some("n"))
    ensures Declines(Some("yes/no"))
  {
  }
}
