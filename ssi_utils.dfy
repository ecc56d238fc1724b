/**
 * The SSI screener's conversions: its form data into the situation the
 * library service evaluates, and the service's eligibility answer into
 * the screener result format the results page shows.
 */
module SsiUtils {
  import opened Ordered
  import opened JsValue
  import opened Wrappers
  import opened Evaluation

  /** `SSIFormData`: every field is optional. */
  datatype SsiFormData = SsiFormData(
    dateOfBirth: Value,
    isBlindOrDisabled: Value,
    citizenshipStatus: Value,
    residenceState: Value,
    refugeeAdmissionDate: Value,
    asylumGrantDate: Value,
    withheldDeportationGrantDate: Value,
    cubanHaitianEntryDate: Value,
    amerasianAdmissionDate: Value)

  /** A date that is set only when it has a value: present exactly when the input is truthy. */
  predicate SetWhenGiven(out: Value, given: Value) {
    (out != Undefined <==> Truthy(given)) && (Truthy(given) ==> out == given)
  }

  /** A field that falls back to `fallback` when the input is falsy. */
  predicate Defaulted(out: Value, given: Value, fallback: Value) {
    (Truthy(given) ==> out == given) && (!Truthy(given) ==> out == fallback)
  }

  /** One `if (formData.x) { person.x = formData.x; }` of the date fields. */
  method CopyIfGiven(current: Value, given: Value) returns (r: Value)
    ensures Truthy(given) ==> r == given
    ensures !Truthy(given) ==> r == current
  {
    r := current;
    if Truthy(given) {
      r := given;
    }
  }

  /**
   * `formDataToSituation(formData)`, with today's ISO date as a parameter:
   * exactly one person, `p1`, who is the primary person; the text fields
   * default to `""` and the blind-or-disabled answer to `false`; each of the
   * five dates is on the person only when it was given; nothing else.
   */
  method FormDataToSituation(formData: SsiFormData, today: string) returns (s: Situation)
    ensures s.evaluationDate == today && s.primaryPersonId == "p1"
    ensures |s.people| == 1 && s.people[0].id == "p1"
    ensures Defaulted(s.people[0].dateOfBirth, formData.dateOfBirth, Str(""))
    ensures Defaulted(s.people[0].citizenshipStatus, formData.citizenshipStatus, Str(""))
    ensures Defaulted(s.people[0].residenceState, formData.residenceState, Str(""))
    ensures Defaulted(s.people[0].isBlindOrDisabled, formData.isBlindOrDisabled, Bool(false))
    ensures SetWhenGiven(s.people[0].refugeeAdmissionDate, formData.refugeeAdmissionDate)
    ensures SetWhenGiven(s.people[0].asylumGrantDate, formData.asylumGrantDate)
    ensures SetWhenGiven(s.people[0].withheldDeportationGrantDate, formData.withheldDeportationGrantDate)
    ensures SetWhenGiven(s.people[0].cubanHaitianEntryDate, formData.cubanHaitianEntryDate)
    ensures SetWhenGiven(s.people[0].amerasianAdmissionDate, formData.amerasianAdmissionDate)
    ensures s.enrollments == [] && s.relationships == [] && s.simpleChecks == []
  {
    var person := Person(
      "p1",
      Or(formData.dateOfBirth, Str("")),
      Or(formData.citizenshipStatus, Str("")),
      Or(formData.residenceState, Str("")),
      Or(formData.isBlindOrDisabled, Bool(false)),
      Undefined, Undefined, Undefined, Undefined, Undefined);
    var refugee := CopyIfGiven(person.refugeeAdmissionDate, formData.refugeeAdmissionDate);
    var asylum := CopyIfGiven(person.asylumGrantDate, formData.asylumGrantDate);
    var withheld := CopyIfGiven(person.withheldDeportationGrantDate, formData.withheldDeportationGrantDate);
    var entrant := CopyIfGiven(person.cubanHaitianEntryDate, formData.cubanHaitianEntryDate);
    var amerasian := CopyIfGiven(person.amerasianAdmissionDate, formData.amerasianAdmissionDate);
    person := person.(refugeeAdmissionDate := refugee, asylumGrantDate := asylum,
                      withheldDeportationGrantDate := withheld, cubanHaitianEntryDate := entrant,
                      amerasianAdmissionDate := amerasian);
    s := Situation(today, "p1", [person], [], [], []);
  }

  /** `toOptionalBoolean(value)`: only the booleans themselves are decided. */
  function ToOptionalBoolean(value: Value): (r: string)
    ensures r == "TRUE" <==> value == Bool(true)
    ensures r == "FALSE" <==> value == Bool(false)
    ensures r == "UNABLE_TO_DETERMINE" <==> !value.Bool?
  {
    if value == Bool(true) then "TRUE"
    else if value == Bool(false) then "FALSE"
    else "UNABLE_TO_DETERMINE"
  }

  /** The three-valued reading of an optional boolean. */
  function Decided(value: Value): EvaluationResult {
    match value
    case Bool(b) => if b then TRUE else FALSE
    case _ => UNABLE_TO_DETERMINE
  }

  /** The string is the label of the decided result, so the backend reads it back unchanged. */
  lemma OptionalBooleanReadsBack(value: Value)
    ensures ToOptionalBoolean(value) == Label(Decided(value))
    ensures FromStringIgnoreCase(Some(ToOptionalBoolean(value))) == Decided(value)
  {
    LabelRoundTrip(Decided(value));
  }

  /** The checks of `SSIEligibilityResult`, each an optional boolean. */
  datatype SsiChecks = SsiChecks(categoricalEligible: Value, citizenshipEligible: Value, residenceEligible: Value)

  datatype SsiEligibilityResult = SsiEligibilityResult(checks: SsiChecks, isEligible: Value)

  /** `{name, result}` of one check, and `{name, result, check_results}` of a benefit. */
  datatype CheckView = CheckView(name: string, result: string)

  datatype BenefitView = BenefitView(name: string, result: string, checkResults: seq<Entry<CheckView>>)

  const SsiName := "Supplemental Security Income (SSI)"
  const CategoricalName := "Categorical Eligibility (Age 65+ OR Blind OR Disabled)"
  const CitizenshipName := "Citizenship Eligibility (U.S. Citizen OR Qualified Alien)"
  const ResidenceName := "Residence Requirement (50 States, DC, or Northern Mariana Islands)"

  /**
   * `eligibilityToScreenerResult(result)`: the single benefit `ssi`, whose
   * result and three checks are the optional booleans of the answer.
   */
  function EligibilityToScreenerResult(result: SsiEligibilityResult): (r: seq<Entry<BenefitView>>)
    ensures Keys(r) == ["ssi"]
    ensures r[0].value.name == SsiName
    ensures r[0].value.result == ToOptionalBoolean(result.isEligible)
    ensures Keys(r[0].value.checkResults) == ["categoricalEligible", "citizenshipEligible", "residenceEligible"]
    ensures r[0].value.checkResults[0].value == CheckView(CategoricalName, ToOptionalBoolean(result.checks.categoricalEligible))
    ensures r[0].value.checkResults[1].value == CheckView(CitizenshipName, ToOptionalBoolean(result.checks.citizenshipEligible))
    ensures r[0].value.checkResults[2].value == CheckView(ResidenceName, ToOptionalBoolean(result.checks.residenceEligible))
  {
    [Entry("ssi", BenefitView(
       SsiName,
       ToOptionalBoolean(result.isEligible),
       [Entry("categoricalEligible", CheckView(CategoricalName, ToOptionalBoolean(result.checks.categoricalEligible))),
        Entry("citizenshipEligible", CheckView(CitizenshipName, ToOptionalBoolean(result.checks.citizenshipEligible))),
        Entry("residenceEligible", CheckView(ResidenceName, ToOptionalBoolean(result.checks.residenceEligible)))]))]
  }

  /**
   * Every result string of the screener result reads back, in the backend,
   * as the three-valued reading of the answer it came from.
   */
  lemma ScreenerResultReadsBack(result: SsiEligibilityResult)
    ensures var b := EligibilityToScreenerResult(result)[0].value;
            FromStringIgnoreCase(Some(b.result)) == Decided(result.isEligible)
            && FromStringIgnoreCase(Some(b.checkResults[0].value.result)) == Decided(result.checks.categoricalEligible)
            && FromStringIgnoreCase(Some(b.checkResults[1].value.result)) == Decided(result.checks.citizenshipEligible)
            && FromStringIgnoreCase(Some(b.checkResults[2].value.result)) == Decided(result.checks.residenceEligible)
  {
    OptionalBooleanReadsBack(result.isEligible);
    OptionalBooleanReadsBack(result.checks.categoricalEligible);
    OptionalBooleanReadsBack(result.checks.citizenshipEligible);
    OptionalBooleanReadsBack(result.checks.residenceEligible);
  }
}
