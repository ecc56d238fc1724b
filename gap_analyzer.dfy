/**
 * The SSI screener's gap analysis: which of the fields SSI needs are still
 * missing from what is known about the person, given that some fields are
 * needed only in some circumstances.  The current date and the `Date`
 * constructor are parameters.
 */
module GapAnalyzer {
  import opened Wrappers
  import opened Ordered
  import opened JsValue

  /** The keys of `PersonaContext`. */
  datatype Field =
    | DateOfBirth
    | CitizenshipStatus
    | IsBlindOrDisabled
    | RefugeeAdmissionDate
    | AsylumGrantDate
    | WithheldDeportationGrantDate
    | CubanHaitianEntryDate
    | AmerasianAdmissionDate

  function FieldName(f: Field): string {
    match f
    case DateOfBirth => "dateOfBirth"
    case CitizenshipStatus => "citizenshipStatus"
    case IsBlindOrDisabled => "isBlindOrDisabled"
    case RefugeeAdmissionDate => "refugeeAdmissionDate"
    case AsylumGrantDate => "asylumGrantDate"
    case WithheldDeportationGrantDate => "withheldDeportationGrantDate"
    case CubanHaitianEntryDate => "cubanHaitianEntryDate"
    case AmerasianAdmissionDate => "amerasianAdmissionDate"
  }

  /** What the conversation has gathered about the person; every field is optional. */
  datatype PersonaContext = PersonaContext(
    dateOfBirth: Value,
    citizenshipStatus: Value,
    isBlindOrDisabled: Value,
    refugeeAdmissionDate: Value,
    asylumGrantDate: Value,
    withheldDeportationGrantDate: Value,
    cubanHaitianEntryDate: Value,
    amerasianAdmissionDate: Value)

  /** `context[field]`. */
  function ValueOf(ctx: PersonaContext, f: Field): Value {
    match f
    case DateOfBirth => ctx.dateOfBirth
    case CitizenshipStatus => ctx.citizenshipStatus
    case IsBlindOrDisabled => ctx.isBlindOrDisabled
    case RefugeeAdmissionDate => ctx.refugeeAdmissionDate
    case AsylumGrantDate => ctx.asylumGrantDate
    case WithheldDeportationGrantDate => ctx.withheldDeportationGrantDate
    case CubanHaitianEntryDate => ctx.cubanHaitianEntryDate
    case AmerasianAdmissionDate => ctx.amerasianAdmissionDate
  }

  /** When a field is needed: always, only while the person is under 65, or only for one status. */
  datatype Condition = Always | UnderSixtyFive | StatusIs(status: string)

  datatype RequiredField = RequiredField(field: Field, condition: Condition, description: string)

  /** `SSI_REQUIRED_FIELDS`, in order. */
  const SsiRequiredFields: seq<RequiredField> := [
    RequiredField(DateOfBirth, Always, "Date of birth (needed to check if you're 65 or older)"),
    RequiredField(IsBlindOrDisabled, UnderSixtyFive, "Whether you are blind or disabled (needed if under 65)"),
    RequiredField(CitizenshipStatus, Always, "Citizenship or immigration status"),
    RequiredField(RefugeeAdmissionDate, StatusIs("REFUGEE"), "Date you were admitted as a refugee"),
    RequiredField(AsylumGrantDate, StatusIs("ASYLEE"), "Date your asylum was granted"),
    RequiredField(WithheldDeportationGrantDate, StatusIs("WITHHOLDING_DEPORTATION"), "Date deportation was withheld"),
    RequiredField(CubanHaitianEntryDate, StatusIs("CUBAN_HAITIAN_ENTRANT"), "Date of entry to the United States"),
    RequiredField(AmerasianAdmissionDate, StatusIs("VIETNAMESE_AMERASIAN"), "Date you were admitted to the United States")
  ]

  /** A calendar date as `getFullYear`, `getMonth` and `getDate` report it. */
  datatype Date = Date(year: int, month: int, day: int)

  /** `new Date(value)`: None for an invalid date, whose fields are all NaN. */
  type DateParser = Value -> Option<Date>

  /** `a` is strictly earlier than `b`. */
  predicate Before(a: Date, b: Date) {
    a.year < b.year || (a.year == b.year && (a.month < b.month || (a.month == b.month && a.day < b.day)))
  }

  /** The `n`-th anniversary of `birth`. */
  function Anniversary(birth: Date, n: int): Date {
    Date(birth.year + n, birth.month, birth.day)
  }

  /** The age `calculateAge` computes. */
  function Age(birth: Date, today: Date): int {
    var monthDiff := today.month - birth.month;
    if monthDiff < 0 || (monthDiff == 0 && today.day < birth.day) then today.year - birth.year - 1
    else today.year - birth.year
  }

  /**
   * `calculateAge`: the number of anniversaries of the birth date reached by
   * today; that number is unique (AgeUnique).
   */
  method CalculateAge(birthDate: Date, today: Date) returns (age: int)
    ensures !Before(today, Anniversary(birthDate, age))
    ensures Before(today, Anniversary(birthDate, age + 1))
    ensures age == Age(birthDate, today)
  {
    age := today.year - birthDate.year;
    var monthDiff := today.month - birthDate.month;
    if monthDiff < 0 || (monthDiff == 0 && today.day < birthDate.day) {
      age := age - 1;
    }
  }

  /** Only one count of anniversaries fits between the last one reached and the next. */
  lemma AgeUnique(birth: Date, today: Date, n: int)
    requires !Before(today, Anniversary(birth, n)) && Before(today, Anniversary(birth, n + 1))
    ensures n == Age(birth, today)
  {
  }

  /** A condition, evaluated on the context with the given clock and date parser. */
  predicate Holds(c: Condition, ctx: PersonaContext, parse: DateParser, today: Date) {
    match c
    case Always => true
    case UnderSixtyFive =>
      if !Truthy(ctx.dateOfBirth) then true
      else (
        match parse(ctx.dateOfBirth)
        case None => false
        case Some(birth) => Age(birth, today) < 65)
    case StatusIs(s) => ctx.citizenshipStatus == Str(s)
  }

  /** `undefined`, `null` and `""` count as missing; `false` and `0` do not. */
  predicate IsMissing(v: Value) {
    v == Undefined || v == Null || v == Str("")
  }

  /** A table row is reported: its condition holds and its value is missing. */
  predicate Reported(row: RequiredField, ctx: PersonaContext, parse: DateParser, today: Date) {
    Holds(row.condition, ctx, parse, today) && IsMissing(ValueOf(ctx, row.field))
  }

  /** The names reported for the first `n` rows of the table. */
  function Gaps(ctx: PersonaContext, parse: DateParser, today: Date, n: nat): seq<string>
    requires n <= |SsiRequiredFields|
  {
    if n == 0 then []
    else
      var row := SsiRequiredFields[n - 1];
      Gaps(ctx, parse, today, n - 1) + if Reported(row, ctx, parse, today) then [FieldName(row.field)] else []
  }

  /** The table positions reported among the first `n` rows. */
  function ReportedRows(ctx: PersonaContext, parse: DateParser, today: Date, n: nat): seq<nat>
    requires n <= |SsiRequiredFields|
  {
    if n == 0 then []
    else
      ReportedRows(ctx, parse, today, n - 1) + if Reported(SsiRequiredFields[n - 1], ctx, parse, today) then [n - 1] else []
  }

  /** A condition of the table, evaluated as the source does: the age is computed only when needed. */
  method EvaluateCondition(c: Condition, ctx: PersonaContext, parse: DateParser, today: Date) returns (holds: bool)
    ensures holds == Holds(c, ctx, parse, today)
  {
    match c
    case Always =>
      holds := true;
    case UnderSixtyFive =>
      if !Truthy(ctx.dateOfBirth) {
        return true;
      }
      match parse(ctx.dateOfBirth) {
        case None =>
          holds := false;
        case Some(birth) =>
          var age := CalculateAge(birth, today);
          holds := age < 65;
      }
    case StatusIs(s) =>
      holds := ctx.citizenshipStatus == Str(s);
  }

  /** `analyzeGaps(context)`. */
  method AnalyzeGaps(ctx: PersonaContext, parse: DateParser, today: Date) returns (missingFields: seq<string>)
    ensures missingFields == Gaps(ctx, parse, today, |SsiRequiredFields|)
  {
    missingFields := [];
    for i := 0 to |SsiRequiredFields|
      invariant missingFields == Gaps(ctx, parse, today, i)
    {
      var requiredField := SsiRequiredFields[i];
      var value := ValueOf(ctx, requiredField.field);
      var isMissing := value == Undefined || value == Null || value == Str("");
      if requiredField.condition != Always {
        var holds := EvaluateCondition(requiredField.condition, ctx, parse, today);
        if !holds {
          continue;
        }
      }
      if isMissing {
        missingFields := missingFields + [FieldName(requiredField.field)];
      }
    }
  }

  /**
   * The reported names are the names of the reported rows, in table order:
   * a subsequence of the table.
   */
  lemma {:induction false} GapsInTableOrder(ctx: PersonaContext, parse: DateParser, today: Date, n: nat)
    requires n <= |SsiRequiredFields|
    ensures var r := Gaps(ctx, parse, today, n);
            var rows := ReportedRows(ctx, parse, today, n);
            |rows| == |r|
            && (forall k :: 0 <= k < |r| ==> rows[k] < n && r[k] == FieldName(SsiRequiredFields[rows[k]].field)
                                              && Reported(SsiRequiredFields[rows[k]], ctx, parse, today))
            && (forall k, l :: 0 <= k < l < |rows| ==> rows[k] < rows[l])
  {
    if n > 0 {
      GapsInTableOrder(ctx, parse, today, n - 1);
    }
  }

  /** A row's name is reported exactly when some row with that field among the first `n` is reported. */
  lemma {:induction false} GapsMembers(ctx: PersonaContext, parse: DateParser, today: Date, n: nat, f: Field)
    requires n <= |SsiRequiredFields|
    ensures FieldName(f) in Gaps(ctx, parse, today, n) <==>
              exists i :: 0 <= i < n && SsiRequiredFields[i].field == f && Reported(SsiRequiredFields[i], ctx, parse, today)
  {
    if n > 0 {
      var row := SsiRequiredFields[n - 1];
      GapsMembers(ctx, parse, today, n - 1, f);
      FieldNameInjective(f, row.field);
      var prev := Gaps(ctx, parse, today, n - 1);
      assert Gaps(ctx, parse, today, n) == prev + if Reported(row, ctx, parse, today) then [FieldName(row.field)] else [];
      if exists i :: 0 <= i < n && SsiRequiredFields[i].field == f && Reported(SsiRequiredFields[i], ctx, parse, today) {
        var i :| 0 <= i < n && SsiRequiredFields[i].field == f && Reported(SsiRequiredFields[i], ctx, parse, today);
        if i < n - 1 {
          assert FieldName(f) in prev;
        } else {
          assert FieldName(f) == FieldName(row.field);
        }
      }
    }
  }

  lemma FieldNameInjective(f: Field, g: Field)
    ensures FieldName(f) == FieldName(g) <==> f == g
  {
  }

  /**
   * When each field is needed, field by field: the date of birth and the
   * citizenship status always; the blind-or-disabled answer when the date of
   * birth is missing or the age is below 65; each date only for its status.
   */
  predicate Needed(f: Field, ctx: PersonaContext, parse: DateParser, today: Date) {
    match f
    case DateOfBirth => true
    case CitizenshipStatus => true
    case IsBlindOrDisabled =>
      !Truthy(ctx.dateOfBirth) || (parse(ctx.dateOfBirth).Some? && Age(parse(ctx.dateOfBirth).value, today) < 65)
    case RefugeeAdmissionDate => ctx.citizenshipStatus == Str("REFUGEE")
    case AsylumGrantDate => ctx.citizenshipStatus == Str("ASYLEE")
    case WithheldDeportationGrantDate => ctx.citizenshipStatus == Str("WITHHOLDING_DEPORTATION")
    case CubanHaitianEntryDate => ctx.citizenshipStatus == Str("CUBAN_HAITIAN_ENTRANT")
    case AmerasianAdmissionDate => ctx.citizenshipStatus == Str("VIETNAMESE_AMERASIAN")
  }

  /** The table position of each field. */
  function RowOf(f: Field): (i: nat)
    ensures i < |SsiRequiredFields| && SsiRequiredFields[i].field == f
  {
    match f
    case DateOfBirth => 0
    case IsBlindOrDisabled => 1
    case CitizenshipStatus => 2
    case RefugeeAdmissionDate => 3
    case AsylumGrantDate => 4
    case WithheldDeportationGrantDate => 5
    case CubanHaitianEntryDate => 6
    case AmerasianAdmissionDate => 7
  }

  /** Each field has one row in the table. */
  lemma RowUnique(f: Field, j: nat)
    requires j < |SsiRequiredFields| && SsiRequiredFields[j].field == f
    ensures j == RowOf(f)
  {
  }

  lemma ReportedRow(ctx: PersonaContext, parse: DateParser, today: Date, f: Field)
    ensures Reported(SsiRequiredFields[RowOf(f)], ctx, parse, today) <==> IsMissing(ValueOf(ctx, f)) && Needed(f, ctx, parse, today)
  {
  }

  /** A field is reported exactly when it is missing and needed. */
  lemma AnalyzeGapsSpec(ctx: PersonaContext, parse: DateParser, today: Date, f: Field)
    ensures FieldName(f) in Gaps(ctx, parse, today, |SsiRequiredFields|) <==>
              IsMissing(ValueOf(ctx, f)) && Needed(f, ctx, parse, today)
  {
    GapsMembers(ctx, parse, today, |SsiRequiredFields|, f);
    ReportedRow(ctx, parse, today, f);
    forall j | 0 <= j < |SsiRequiredFields| && SsiRequiredFields[j].field == f
      ensures j == RowOf(f)
    {
      RowUnique(f, j);
    }
  }


  /** The five dates are tied to five different statuses, so at most one is reported. */
  lemma AtMostOneDate(ctx: PersonaContext, parse: DateParser, today: Date, f: Field, g: Field)
    requires f !in {DateOfBirth, CitizenshipStatus, IsBlindOrDisabled}
    requires g !in {DateOfBirth, CitizenshipStatus, IsBlindOrDisabled}
    requires FieldName(f) in Gaps(ctx, parse, today, |SsiRequiredFields|)
    requires FieldName(g) in Gaps(ctx, parse, today, |SsiRequiredFields|)
    ensures f == g
  {
    AnalyzeGapsSpec(ctx, parse, today, f);
    AnalyzeGapsSpec(ctx, parse, today, g);
  }

  /** An answered `false` is an answer: the blind-or-disabled question is not asked again. */
  lemma FalseIsAnswer(ctx: PersonaContext, parse: DateParser, today: Date)
    requires ctx.isBlindOrDisabled == Bool(false)
    ensures FieldName(IsBlindOrDisabled) !in Gaps(ctx, parse, today, |SsiRequiredFields|)
  {
    AnalyzeGapsSpec(ctx, parse, today, IsBlindOrDisabled);
  }

  /** The first row of `rows` whose field has the given name. */
  function FindRow(rows: seq<RequiredField>, fieldName: string): (r: Option<RequiredField>)
    ensures r.Some? ==> r.value in rows && FieldName(r.value.field) == fieldName
    ensures r.None? <==> forall i :: 0 <= i < |rows| ==> FieldName(rows[i].field) != fieldName
  {
    if rows == [] then None
    else if FieldName(rows[0].field) == fieldName then Some(rows[0])
    else FindRow(rows[1..], fieldName)
  }

  /** `getFieldDescription(fieldName)`: `field?.description || fieldName`. */
  function FieldDescription(fieldName: string): string {
    match FindRow(SsiRequiredFields, fieldName)
    case Some(row) => if row.description != "" then row.description else fieldName
    case None => fieldName
  }

  /** The first row for a field is the only one, when no two rows share a field. */
  lemma {:induction false} FindRowUnique(rows: seq<RequiredField>, i: nat)
    requires i < |rows|
    requires forall j :: 0 <= j < |rows| && j != i ==> rows[j].field != rows[i].field
    ensures FindRow(rows, FieldName(rows[i].field)) == Some(rows[i])
  {
    FieldNameInjective(rows[0].field, rows[i].field);
    if i > 0 {
      FindRowUnique(rows[1..], i - 1);
    }
  }

  /**
   * Every field of the table is described by its row; any other name is its
   * own description.
   */
  lemma FieldDescriptionSpec(fieldName: string)
    ensures forall i :: 0 <= i < |SsiRequiredFields| && FieldName(SsiRequiredFields[i].field) == fieldName ==>
              FieldDescription(fieldName) == SsiRequiredFields[i].description
    ensures (forall f :: FieldName(f) != fieldName) ==> FieldDescription(fieldName) == fieldName
  {
    forall i | 0 <= i < |SsiRequiredFields| && FieldName(SsiRequiredFields[i].field) == fieldName
      ensures FieldDescription(fieldName) == SsiRequiredFields[i].description
    {
      assert SsiRequiredFields[i].description != "";
      FindRowUnique(SsiRequiredFields, i);
    }
  }

  /**
   * `buildSituation(context)`, with today's ISO date as a parameter: one
   * person, `p1`, who is also the primary person; the date of birth and
   * status default to `""` and the blind-or-disabled answer to `false`; the
   * five dates are passed through; the lists and the checks are empty.
   */
  function BuildSituation(ctx: PersonaContext, today: string): (s: Situation)
    ensures s.evaluationDate == today && s.primaryPersonId == "p1"
    ensures |s.people| == 1 && s.people[0].id == s.primaryPersonId
    ensures Truthy(ctx.dateOfBirth) ==> s.people[0].dateOfBirth == ctx.dateOfBirth
    ensures !Truthy(ctx.dateOfBirth) ==> s.people[0].dateOfBirth == Str("")
    ensures Truthy(ctx.citizenshipStatus) ==> s.people[0].citizenshipStatus == ctx.citizenshipStatus
    ensures !Truthy(ctx.citizenshipStatus) ==> s.people[0].citizenshipStatus == Str("")
    ensures Truthy(ctx.isBlindOrDisabled) ==> s.people[0].isBlindOrDisabled == ctx.isBlindOrDisabled
    ensures !Truthy(ctx.isBlindOrDisabled) ==> s.people[0].isBlindOrDisabled == Bool(false)
    ensures s.people[0].residenceState == Undefined
    ensures forall f :: f !in {DateOfBirth, CitizenshipStatus, IsBlindOrDisabled} ==>
              PersonDate(s.people[0], f) == ValueOf(ctx, f)
    ensures s.enrollments == [] && s.relationships == [] && s.simpleChecks == []
  {
    Situation(
      today,
      "p1",
      [Person("p1",
              Or(ctx.dateOfBirth, Str("")),
              Or(ctx.citizenshipStatus, Str("")),
              Undefined,
              Or(ctx.isBlindOrDisabled, Bool(false)),
              ctx.refugeeAdmissionDate,
              ctx.asylumGrantDate,
              ctx.withheldDeportationGrantDate,
              ctx.cubanHaitianEntryDate,
              ctx.amerasianAdmissionDate)],
      [], [], [])
  }

  /** The person's property named by `f`, for the five date fields. */
  function PersonDate(p: Person, f: Field): Value {
    match f
    case RefugeeAdmissionDate => p.refugeeAdmissionDate
    case AsylumGrantDate => p.asylumGrantDate
    case WithheldDeportationGrantDate => p.withheldDeportationGrantDate
    case CubanHaitianEntryDate => p.cubanHaitianEntryDate
    case AmerasianAdmissionDate => p.amerasianAdmissionDate
    case _ => Undefined
  }
}
