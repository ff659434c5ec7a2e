/**
 * Identifier checks of the older package: `re.match` with the patterns
 * STEP_ID = '^[a-z-A-Z][a-zA-Z0-9]*$' and OBJ_ID = RES_ID = '^[a-zA-Z0-9_]*$'.
 * The patterns as written are modelled exactly, together with the checks
 * the rest of the model uses (see Findings in README.md).
 */
module Ids {
  import opened Wrappers

  predicate IsLetter(c: char) { 'a' <= c <= 'z' || 'A' <= c <= 'Z' }
  predicate IsDigit(c: char) { '0' <= c <= '9' }
  predicate IsAlnum(c: char) { IsLetter(c) || IsDigit(c) }
  predicate IsWordChar(c: char) { IsAlnum(c) || c == '_' }

  /** `[a-z-A-Z][a-zA-Z0-9]*`: the class `[a-z-A-Z]` is a-z, a literal '-', and A-Z. */
  predicate StepIdBody(s: string)
  {
    |s| >= 1 && (IsLetter(s[0]) || s[0] == '-') && forall i :: 1 <= i < |s| ==> IsAlnum(s[i])
  }

  /** `[a-zA-Z0-9_]*` */
  predicate ObjIdBody(s: string)
  {
    forall i :: 0 <= i < |s| ==> IsWordChar(s[i])
  }

  /** `re.match('^' + body + '$', s)`: `$` also matches just before a final newline. */
  predicate MatchesStepIdAsWritten(s: string)
  {
    StepIdBody(s) || (|s| > 0 && s[|s| - 1] == '\n' && StepIdBody(s[..|s| - 1]))
  }

  predicate MatchesObjIdAsWritten(s: string)
  {
    ObjIdBody(s) || (|s| > 0 && s[|s| - 1] == '\n' && ObjIdBody(s[..|s| - 1]))
  }

  /** A step id: a letter, then letters and digits. */
  predicate ValidStepId(s: string)
  {
    |s| >= 1 && IsLetter(s[0]) && forall i :: 1 <= i < |s| ==> IsAlnum(s[i])
  }

  /** An object or resource id: letters, digits and underscores, possibly none. */
  predicate ValidObjId(s: string)
  {
    ObjIdBody(s)
  }

  /** `StepBase.__init__`: a bad step id raises ValueError. */
  function CheckStepId(s: string): (r: Result<string>)
    ensures r.Success? ==> r.value == s && |s| >= 1 && IsLetter(s[0]) && '\n' !in s
    ensures r.Success? <==> MatchesStepIdAsWritten(s) && s[0] != '-' && s[|s| - 1] != '\n'
    ensures r.Failure? ==> r.error == ValueError
  {
    if ValidStepId(s) then Success(s) else Failure(ValueError)
  }

  /** The id checks of `Resource`, `ResourceReference`, `Object`, `ObjectReference` and `BOMReference`. */
  function CheckObjId(s: string): (r: Result<string>)
    ensures r.Success? ==> r.value == s && '\n' !in s && '-' !in s
    ensures r.Success? <==> MatchesObjIdAsWritten(s) && '\n' !in s
    ensures r.Failure? ==> r.error == ValueError
  {
    if ValidObjId(s) then Success(s) else Failure(ValueError)
  }

  /**
   * The pattern as written accepts every intended step id, and accepts
   * more only through a leading '-' or a trailing newline.
   */
  lemma StepIdAsWrittenDiffers(s: string)
    ensures ValidStepId(s) ==> MatchesStepIdAsWritten(s)
    ensures MatchesStepIdAsWritten(s) && s[0] != '-' && s[|s| - 1] != '\n' ==> ValidStepId(s)
  {
  }

  /** Inputs on which the patterns as written and the intended checks part. */
  lemma IdPatternCounterexamples()
    ensures MatchesStepIdAsWritten("-a") && !ValidStepId("-a")
    ensures MatchesStepIdAsWritten("a\n") && !ValidStepId("a\n")
    ensures MatchesObjIdAsWritten("nut\n") && !ValidObjId("nut\n")
  {
    assert "a\n"[..1] == "a";
    assert "nut\n"[..3] == "nut";
    assert "nut\n"[3] == '\n';
  }

  /** The object-id pattern as written accepts every intended id, and more only through a trailing newline. */
  lemma ObjIdAsWrittenDiffers(s: string)
    ensures ValidObjId(s) ==> MatchesObjIdAsWritten(s)
    ensures MatchesObjIdAsWritten(s) && (s == [] || s[|s| - 1] != '\n') ==> ValidObjId(s)
  {
  }
}
