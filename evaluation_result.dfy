/**
 * The three-valued result of an eligibility check or benefit, and its
 * case-insensitive lookup by name.
 */
module Evaluation {
  import opened Wrappers

  /** The enum constants, in declaration order. */
  datatype EvaluationResult = TRUE | FALSE | UNABLE_TO_DETERMINE

  /** `values()`. */
  const Values: seq<EvaluationResult> := [TRUE, FALSE, UNABLE_TO_DETERMINE]

  /** `name()`. */
  function Name(r: EvaluationResult): string {
    match r
    case TRUE => "TRUE"
    case FALSE => "FALSE"
    case UNABLE_TO_DETERMINE => "UNABLE_TO_DETERMINE"
  }

  /** The `label` field each constant is constructed with. */
  function Label(r: EvaluationResult): string {
    match r
    case TRUE => "TRUE"
    case FALSE => "FALSE"
    case UNABLE_TO_DETERMINE => "UNABLE_TO_DETERMINE"
  }

  /**
   * `Character.toUpperCase` on the characters that matter here: ASCII
   * letters, and the dotless i and the long s, whose upper case is an ASCII
   * letter.
   */
  function JavaUpper(c: char): char {
    if 'a' <= c <= 'z' then (c as int - 32) as char
    else if c == '\U{0131}' then 'I'
    else if c == '\U{017F}' then 'S'
    else c
  }

  /**
   * `Character.toLowerCase` on the characters that matter here: ASCII
   * letters, and the capital I with dot and the Kelvin sign, whose lower
   * case is an ASCII letter.
   */
  function JavaLower(c: char): char {
    if 'A' <= c <= 'Z' then (c as int + 32) as char
    else if c == '\U{0130}' then 'i'
    else if c == '\U{212A}' then 'k'
    else c
  }

  /** The per-character test of `String.regionMatches(true, …)`. */
  predicate CharsMatchIgnoreCase(a: char, b: char) {
    a == b || JavaUpper(a) == JavaUpper(b) || JavaLower(JavaUpper(a)) == JavaLower(JavaUpper(b))
  }

  /** `s.equalsIgnoreCase(other)`; a null `other` never matches. */
  predicate EqualsIgnoreCase(s: string, other: Option<string>) {
    other.Some? && |s| == |other.value|
    && forall i :: 0 <= i < |s| ==> CharsMatchIgnoreCase(s[i], other.value[i])
  }

  /** The search loop of `fromStringIgnoreCase` over `candidates`. */
  function FirstMatch(candidates: seq<EvaluationResult>, value: Option<string>): (r: Option<EvaluationResult>)
    ensures r.None? <==> forall i :: 0 <= i < |candidates| ==> !EqualsIgnoreCase(Name(candidates[i]), value)
    ensures r.Some? ==> exists i :: 0 <= i < |candidates| && candidates[i] == r.value
                          && EqualsIgnoreCase(Name(r.value), value)
                          && forall j :: 0 <= j < i ==> !EqualsIgnoreCase(Name(candidates[j]), value)
  {
    if candidates == [] then None
    else if EqualsIgnoreCase(Name(candidates[0]), value) then Some(candidates[0])
    else
      var r := FirstMatch(candidates[1..], value);
      assert forall i :: 1 <= i < |candidates| ==> candidates[i] == candidates[1..][i - 1];
      if r.Some? then
        var i :| 0 <= i < |candidates[1..]| && candidates[1..][i] == r.value
                 && forall j :: 0 <= j < i ==> !EqualsIgnoreCase(Name(candidates[1..][j]), value);
        assert candidates[i + 1] == r.value;
        r
      else r
  }

  /** `EvaluationResult.fromStringIgnoreCase(value)`. */
  function FromStringIgnoreCase(value: Option<string>): EvaluationResult {
    match FirstMatch(Values, value)
    case Some(r) => r
    case None => UNABLE_TO_DETERMINE
  }

  /** Each constant's label is its name. */
  lemma LabelIsName(r: EvaluationResult)
    ensures Label(r) == Name(r)
  {
  }

  /** The only constant a string can match: the names have different lengths. */
  function ByLength(v: string): EvaluationResult {
    if |v| == 4 then TRUE else if |v| == 5 then FALSE else UNABLE_TO_DETERMINE
  }

  lemma MatchByLength(r: EvaluationResult, value: Option<string>)
    requires EqualsIgnoreCase(Name(r), value)
    ensures r == ByLength(value.value)
  {
  }

  /** Two constants whose names both equal a string ignoring case are the same constant. */
  lemma NamesDistinct(r: EvaluationResult, s: EvaluationResult, value: Option<string>)
    requires EqualsIgnoreCase(Name(r), value) && EqualsIgnoreCase(Name(s), value)
    ensures r == s
  {
    MatchByLength(r, value);
    MatchByLength(s, value);
  }

  /**
   * The lookup returns the constant whose name equals the input ignoring
   * case, and UNABLE_TO_DETERMINE when there is none (or the input is
   * null); it never fails.
   */
  lemma FromStringIgnoreCaseSpec(value: Option<string>, r: EvaluationResult)
    ensures EqualsIgnoreCase(Name(r), value) ==> FromStringIgnoreCase(value) == r
    ensures (forall s :: !EqualsIgnoreCase(Name(s), value)) ==> FromStringIgnoreCase(value) == UNABLE_TO_DETERMINE
  {
    if EqualsIgnoreCase(Name(r), value) {
      assert Values[0] == TRUE && Values[1] == FALSE && Values[2] == UNABLE_TO_DETERMINE;
      assert r in Values;
      var found := FirstMatch(Values, value);
      assert found.Some?;
      NamesDistinct(found.value, r, value);
    }
  }

  /** Round trip: looking a constant's label up gives the constant back. */
  lemma LabelRoundTrip(r: EvaluationResult)
    ensures FromStringIgnoreCase(Some(Label(r))) == r
  {
    assert EqualsIgnoreCase(Name(r), Some(Label(r)));
    FromStringIgnoreCaseSpec(Some(Label(r)), r);
  }

  /** Lower-case spellings are found too. */
  lemma LowerCaseTrueFound()
    ensures FromStringIgnoreCase(Some("true")) == TRUE
  {
    var v := "true";
    assert EqualsIgnoreCase(Name(TRUE), Some(v));
    FromStringIgnoreCaseSpec(Some(v), TRUE);
  }

  lemma LowerCaseFalseFound()
    ensures FromStringIgnoreCase(Some("false")) == FALSE
  {
    var v := "false";
    assert EqualsIgnoreCase(Name(FALSE), Some(v));
    FromStringIgnoreCaseSpec(Some(v), FALSE);
  }

  lemma LowerCaseUnableFound()
    ensures FromStringIgnoreCase(Some("unable_to_determine")) == UNABLE_TO_DETERMINE
  {
    var v := "unable_to_determine";
    assert EqualsIgnoreCase(Name(UNABLE_TO_DETERMINE), Some(v));
    FromStringIgnoreCaseSpec(Some(v), UNABLE_TO_DETERMINE);
  }
}
