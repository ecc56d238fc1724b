/**
 * The Markdown documentation generator: a table of every schema field, an
 * example request built from per-type sample values, and the overview
 * counts.  JSON serialisation of the example and the date of the footer are
 * parameters.
 */
module DocGenerator {
  import opened Wrappers
  import opened Text
  import opened Ordered
  import opened InputSchema

  /** A JSON value, as `generateExample` builds it; object members keep insertion order. */
  datatype Json =
    | JNull
    | JBool(b: bool)
    | JNum(n: int)
    | JStr(s: string)
    | JArr(items: seq<Json>)
    | JObj(members: seq<Entry<Json>>)

  /** An entry of the schema's optional `dmnModels` list. */
  datatype DmnModel = DmnModel(name: string, path: string, inputData: seq<string>)

  /** `getTypeDisplay(fieldInfo)`. */
  function TypeDisplay(spec: FieldSpec): (r: string)
    ensures spec.isCollection ==> r == "List of " + ListedType(spec)
    ensures !spec.isCollection && spec.typeName != "" ==> r == spec.typeName
    ensures !spec.isCollection && spec.typeName == "" ==> r == (if spec.primitive == Some(true) then "" else "object")
  {
    if spec.isCollection then "List of " + ListedType(spec)
    else if spec.primitive == Some(true) then spec.typeName
    else if spec.typeName != "" then spec.typeName
    else "object"
  }

  /** The sample value of a primitive field whose type the `switch` knows. */
  function PrimitiveExample(name: string, typeName: string): (j: Json)
    requires typeName in {"date", "boolean", "number", "string"}
    ensures typeName == "date" ==> j == JStr("2024-01-15")
    ensures typeName == "boolean" ==> j == JBool(false)
    ensures typeName == "number" ==>
              && j.JNum? && j.n in {0, 1500}
              && (j.n == 1500 <==> Contains(Lower(name), "amount") || Contains(Lower(name), "income"))
    ensures typeName == "string" ==>
              var id, state, status := Contains(Lower(name), "id"), Contains(Lower(name), "state"),
                                       Contains(Lower(name), "status");
              && j.JStr?
              && (j.s == "person-123" <==> id)
              && (j.s == "PA" <==> !id && state)
              && (j.s == "US_CITIZEN" <==> !id && !state && status)
              && (j.s == "" <==> !id && !state && !status)
  {
    var lower := Lower(name);
    if typeName == "date" then JStr("2024-01-15")
    else if typeName == "boolean" then JBool(false)
    else if typeName == "number" then
      if Contains(lower, "amount") || Contains(lower, "income") then JNum(1500) else JNum(0)
    else if Contains(lower, "id") then JStr("person-123")
    else if Contains(lower, "state") then JStr("PA")
    else if Contains(lower, "status") then JStr("US_CITIZEN")
    else JStr("")
  }

  /**
   * `generateExample(fieldName, fieldInfo)`.  A primitive of a type the
   * `switch` does not list falls through to the complex-type case.
   */
  function Example(name: string, spec: FieldSpec): Json
    decreases spec
  {
    if spec.isCollection then
      if spec.fields.Fields? then JArr([JObj(ExamplesInto([], spec.fields.entries))]) else JArr([])
    else if spec.primitive == Some(true) && spec.typeName in {"date", "boolean", "number", "string"} then
      PrimitiveExample(name, spec.typeName)
    else if spec.fields.Fields? then JObj(ExamplesInto([], spec.fields.entries))
    else JNull
  }

  /** `obj[name] = generateExample(name, info)` for every entry, in order. */
  function ExamplesInto(obj: seq<Entry<Json>>, fields: seq<Entry<FieldSpec>>): seq<Entry<Json>>
    decreases fields
  {
    if fields == [] then obj
    else
      var last := fields[|fields| - 1];
      Put(ExamplesInto(obj, fields[..|fields| - 1]), last.key, Example(last.key, last.value))
  }

  /** Lines 37-89. */
  method GenerateExample(fieldName: string, fieldInfo: FieldSpec) returns (example: Json)
    ensures example == Example(fieldName, fieldInfo)
    decreases fieldInfo
  {
    if fieldInfo.isCollection {
      if fieldInfo.fields.Fields? {
        var exampleItem := FillExamples([], fieldInfo.fields.entries);
        return JArr([JObj(exampleItem)]);
      }
      return JArr([]);
    }
    if fieldInfo.primitive == Some(true) && fieldInfo.typeName in {"date", "boolean", "number", "string"} {
      return PrimitiveExample(fieldName, fieldInfo.typeName);
    }
    if fieldInfo.fields.Fields? {
      var members := FillExamples([], fieldInfo.fields.entries);
      return JObj(members);
    }
    return JNull;
  }

  /** The loops of lines 44-46, 82-84, 207-209 and 216-218. */
  method FillExamples(obj: seq<Entry<Json>>, fields: seq<Entry<FieldSpec>>) returns (r: seq<Entry<Json>>)
    ensures r == ExamplesInto(obj, fields)
    decreases fields
  {
    r := obj;
    for i := 0 to |fields|
      invariant r == ExamplesInto(obj, fields[..i])
    {
      assert fields[..i + 1][..i] == fields[..i];
      var value := GenerateExample(fields[i].key, fields[i].value);
      r := Put(r, fields[i].key, value);
    }
    assert fields[..|fields|] == fields;
  }

  /** The example object has exactly the keys of `obj` followed by the new field names. */
  lemma {:induction false} ExamplesIntoKeys(obj: seq<Entry<Json>>, fields: seq<Entry<FieldSpec>>)
    ensures Keys(ExamplesInto(obj, fields)) == AddAll(Keys(obj), Keys(fields))
  {
    if fields != [] {
      var init, last := fields[..|fields| - 1], fields[|fields| - 1];
      assert fields == init + [last];
      var prev := ExamplesInto(obj, init);
      assert ExamplesInto(obj, fields) == Put(prev, last.key, Example(last.key, last.value));
      ExamplesIntoKeys(obj, init);
      KeysSnoc(init, last);
      AddAllConcat(Keys(obj), Keys(init), [last.key]);
      assert [last.key][..0] == [];
    }
  }

  lemma KeysSnoc<V>(m: seq<Entry<V>>, e: Entry<V>)
    ensures Keys(m + [e]) == Keys(m) + [e.key]
  {
    var l, r := Keys(m + [e]), Keys(m) + [e.key];
    assert |l| == |r|;
    forall i | 0 <= i < |l| ensures l[i] == r[i] {
      if i < |m| { assert (m + [e])[i] == m[i]; }
    }
  }

  /** A prefix of a map with unique keys has unique keys. */
  lemma UniqueKeysInit<V>(m: seq<Entry<V>>)
    requires m != [] && UniqueKeys(m)
    ensures UniqueKeys(m[..|m| - 1]) && m[|m| - 1].key !in Keys(m[..|m| - 1])
  {
    var init := m[..|m| - 1];
    var ks, ki := Keys(m), Keys(init);
    forall i, j | 0 <= i < j < |ki| ensures ki[i] != ki[j] {
      assert ki[i] == ks[i] && ki[j] == ks[j];
    }
    forall i | 0 <= i < |ki| ensures ki[i] != m[|m| - 1].key {
      assert ki[i] == ks[i] && ks[|m| - 1] == m[|m| - 1].key;
    }
  }

  /**
   * With unique field names, each field's member is its own example, and a
   * member of `obj` no field names is kept.
   */
  lemma {:induction false} ExamplesIntoGet(obj: seq<Entry<Json>>, fields: seq<Entry<FieldSpec>>, k: string)
    requires UniqueKeys(fields)
    ensures Get(ExamplesInto(obj, fields), k) ==
            if k in Keys(fields) then Some(Example(k, Get(fields, k).value)) else Get(obj, k)
  {
    if fields != [] {
      var init, last := fields[..|fields| - 1], fields[|fields| - 1];
      assert fields == init + [last];
      var prev := ExamplesInto(obj, init);
      assert ExamplesInto(obj, fields) == Put(prev, last.key, Example(last.key, last.value));
      KeysSnoc(init, last);
      UniqueKeysInit(fields);
      ExamplesIntoGet(obj, init, k);
      GetSnoc(init, last, k);
    }
  }

  /** Looking a key up after appending an entry with a fresh key. */
  lemma {:induction false} GetSnoc<V>(m: seq<Entry<V>>, e: Entry<V>, k: string)
    requires e.key !in Keys(m)
    ensures Get(m + [e], k) == if k == e.key then Some(e.value) else Get(m, k)
  {
    if m != [] {
      assert (m + [e])[1..] == m[1..] + [e];
      assert Keys(m)[1..] == Keys(m[1..]);
      GetSnoc(m[1..], e, k);
    } else {
      assert [e][1..] == [];
    }
  }

  /**
   * A collection's example is a one-element list when it has sub-fields and
   * an empty list otherwise; a complex field's example object has exactly
   * one member per sub-field, holding that sub-field's example.
   */
  lemma ExampleShape(name: string, spec: FieldSpec, k: string)
    requires spec.fields.Fields? ==> UniqueKeys(spec.fields.entries)
    ensures spec.isCollection ==> Example(name, spec).JArr?
                                  && |Example(name, spec).items| == (if spec.fields.Fields? then 1 else 0)
    ensures !spec.isCollection && spec.primitive != Some(true) ==>
              if spec.fields.Fields? then
                var j := Example(name, spec);
                j.JObj? && Keys(j.members) == Keys(spec.fields.entries)
                && (k in Keys(spec.fields.entries) ==> Get(j.members, k) == Some(Example(k, Get(spec.fields.entries, k).value)))
              else Example(name, spec) == JNull
  {
    if spec.fields.Fields? && !spec.isCollection && spec.primitive != Some(true) {
      ExamplesIntoKeys([], spec.fields.entries);
      AddAllOfNoDup(Keys(spec.fields.entries));
      ExamplesIntoGet([], spec.fields.entries, k);
    }
  }

  /** Adding the elements of a duplicate-free sequence to nothing gives the sequence back. */
  lemma {:induction false} AddAllOfNoDup(xs: seq<string>)
    requires NoDup(xs)
    ensures AddAll([], xs) == xs
  {
    if xs != [] {
      var init := xs[..|xs| - 1];
      assert NoDup(init) by {
        forall i, j | 0 <= i < j < |init| ensures init[i] != init[j] {
          assert init[i] == xs[i] && init[j] == xs[j];
        }
      }
      AddAllOfNoDup(init);
      assert xs[|xs| - 1] !in init by {
        forall i | 0 <= i < |init| ensures init[i] != xs[|xs| - 1] {
          assert init[i] == xs[i];
        }
      }
      assert init + [xs[|xs| - 1]] == xs;
    }
  }

  /** `prefix ? ${prefix}.${fieldName} : fieldName`. */
  function FullName(prefix: string, name: string): string {
    if prefix == "" then name else prefix + "." + name
  }

  function RequiredText(spec: FieldSpec): string {
    if Required(spec) then "Yes" else "No"
  }

  /**
   * One table row.  No FieldSpec carries a `description`, so that column is
   * always empty.
   */
  function Row(fullName: string, name: string, spec: FieldSpec): string {
    "| " + fullName + " | " + Humanize(name) + " | " + TypeDisplay(spec) + " | " + RequiredText(spec) + " | " + "" + " |"
  }

  /** Whether a field's sub-fields get rows of their own: complex, not a collection. */
  predicate Nests(spec: FieldSpec) {
    spec.fields.Fields? && !spec.isCollection
  }

  /** The rows of one field: its own row, then its sub-fields' under its full name. */
  function FieldRows(name: string, spec: FieldSpec, prefix: string): seq<string>
    decreases spec
  {
    var fullName := FullName(prefix, name);
    [Row(fullName, name, spec)] + (if Nests(spec) then FieldsTable(spec.fields.entries, fullName) else [])
  }

  /** `generateFieldsTable(fields, prefix)`. */
  function FieldsTable(fields: seq<Entry<FieldSpec>>, prefix: string): seq<string>
    decreases fields
  {
    if fields == [] then []
    else
      var last := fields[|fields| - 1];
      FieldsTable(fields[..|fields| - 1], prefix) + FieldRows(last.key, last.value, prefix)
  }

  /** Lines 94-114. */
  method GenerateFieldsTable(fields: seq<Entry<FieldSpec>>, prefix: string) returns (rows: seq<string>)
    ensures rows == FieldsTable(fields, prefix)
    decreases fields
  {
    rows := [];
    for i := 0 to |fields|
      invariant rows == FieldsTable(fields[..i], prefix)
    {
      assert fields[..i + 1][..i] == fields[..i];
      var fieldRows := GenerateFieldRows(fields[i].key, fields[i].value, prefix);
      rows := rows + fieldRows;
    }
    assert fields[..|fields|] == fields;
  }

  /** The body of the loop of lines 97-111. */
  method GenerateFieldRows(fieldName: string, fieldInfo: FieldSpec, prefix: string) returns (rows: seq<string>)
    ensures rows == FieldRows(fieldName, fieldInfo, prefix)
    decreases fieldInfo
  {
    var fullName := if prefix != "" then prefix + "." + fieldName else fieldName;
    rows := [Row(fullName, fieldName, fieldInfo)];
    if fieldInfo.fields.Fields? && !fieldInfo.isCollection {
      var nestedRows := GenerateFieldsTable(fieldInfo.fields.entries, fullName);
      rows := rows + nestedRows;
    }
  }

  /** There is at least one row per field. */
  lemma {:induction false} FieldsTableLength(fields: seq<Entry<FieldSpec>>, prefix: string)
    ensures |FieldsTable(fields, prefix)| >= |fields|
  {
    if fields != [] {
      FieldsTableLength(fields[..|fields| - 1], prefix);
    }
  }

  /**
   * Every field has its row, and every sub-field of a nesting field has its
   * row under the dotted name.
   */
  lemma {:induction false} FieldsTableHasRows(fields: seq<Entry<FieldSpec>>, prefix: string, i: nat)
    requires i < |fields|
    ensures var e := fields[i];
            var fullName := FullName(prefix, e.key);
            Row(fullName, e.key, e.value) in FieldsTable(fields, prefix)
            && (Nests(e.value) ==> forall j :: 0 <= j < |e.value.fields.entries| ==>
                  var sub := e.value.fields.entries[j];
                  Row(FullName(fullName, sub.key), sub.key, sub.value) in FieldsTable(fields, prefix))
  {
    var init, last := fields[..|fields| - 1], fields[|fields| - 1];
    if i < |fields| - 1 {
      assert fields[i] == init[i];
      FieldsTableHasRows(init, prefix, i);
    } else {
      var fullName := FullName(prefix, last.key);
      if Nests(last.value) {
        var subs := last.value.fields.entries;
        forall j | 0 <= j < |subs|
          ensures Row(FullName(fullName, subs[j].key), subs[j].key, subs[j].value) in FieldsTable(subs, fullName)
        {
          FieldsTableHasRows(subs, fullName, j);
        }
      }
    }
  }

  /** One row per field, in order, with no sub-field rows: the table of a schema whose fields do not nest. */
  function FlatRows(fields: seq<Entry<FieldSpec>>, prefix: string): (rows: seq<string>)
    ensures |rows| == |fields|
  {
    if fields == [] then []
    else
      var last := fields[|fields| - 1];
      FlatRows(fields[..|fields| - 1], prefix) + [Row(FullName(prefix, last.key), last.key, last.value)]
  }

  /** The i-th flat row is the i-th field's row. */
  lemma {:induction false} FlatRowsAt(fields: seq<Entry<FieldSpec>>, prefix: string, i: nat)
    requires i < |fields|
    ensures FlatRows(fields, prefix)[i] == Row(FullName(prefix, fields[i].key), fields[i].key, fields[i].value)
  {
    var init, last := fields[..|fields| - 1], fields[|fields| - 1];
    var front := FlatRows(init, prefix);
    var row := Row(FullName(prefix, last.key), last.key, last.value);
    assert FlatRows(fields, prefix) == front + [row];
    if i < |init| {
      FlatRowsAt(init, prefix, i);
      assert init[i] == fields[i];
      assert (front + [row])[i] == front[i];
    } else {
      assert fields[i] == last;
      assert (front + [row])[i] == row;
    }
  }

  /**
   * Where no field nests (as for the schemas `derive-inputs` writes, whose
   * sub-fields are leaves), the table is exactly one row per field, in order.
   */
  lemma {:induction false} FieldsTableFlat(fields: seq<Entry<FieldSpec>>, prefix: string)
    requires forall i :: 0 <= i < |fields| ==> !Nests(fields[i].value)
    ensures FieldsTable(fields, prefix) == FlatRows(fields, prefix)
  {
    if fields != [] {
      var init, last := fields[..|fields| - 1], fields[|fields| - 1];
      assert forall i :: 0 <= i < |init| ==> init[i] == fields[i];
      FieldsTableFlat(init, prefix);
      assert !Nests(last.value);
    }
  }

  /** `getBenefitFolderName(benefit)`: kebab case. */
  function FolderName(benefit: string): string {
    var marked := Lower(MarkCapitals(benefit, '-'));
    if |marked| > 0 && marked[0] == '-' then marked[1..] else marked
  }

  /**
   * For a name without dashes the folder name is its lower-cased letters
   * with dashes between the words: it has no capital, does not start with a
   * dash, and dropping its dashes gives the lower-cased name.
   */
  lemma FolderNameKebab(benefit: string)
    requires '-' !in benefit
    ensures var f := FolderName(benefit);
            (forall i :: 0 <= i < |f| ==> !IsUpper(f[i]))
            && (f == [] || f[0] != '-')
            && Without(f, '-') == Lower(benefit)
  {
    var lower := Lower(MarkCapitals(benefit, '-'));
    LowerMarkedWithout(benefit);
    NoCapitalAfterLower(MarkCapitals(benefit, '-'));
    if |lower| > 0 && lower[0] == '-' {
      DropFirstDash(lower);
      MarkCapitalsNoDoubleDash(benefit);
    } else if |lower| > 0 {
      MarkCapitalsFirst(benefit);
    }
  }

  lemma LowerMarkedWithout(benefit: string)
    requires '-' !in benefit
    ensures Without(Lower(MarkCapitals(benefit, '-')), '-') == Lower(benefit)
  {
    MarkCapitalsWithout(benefit, '-');
    LowerWithout(MarkCapitals(benefit, '-'), '-');
  }

  lemma NoCapitalAfterLower(s: string)
    ensures forall i :: 0 <= i < |Lower(s)| ==> !IsUpper(Lower(s)[i])
  {
  }

  lemma DropFirstDash(l: string)
    requires |l| > 0 && l[0] == '-'
    ensures Without(l[1..], '-') == Without(l, '-')
  {
  }

  /** Lower-casing commutes with dropping a character that is not a letter. */
  lemma {:induction false} LowerWithout(s: string, c: char)
    requires !IsUpper(c) && !IsLower(c)
    ensures Without(Lower(s), c) == Lower(Without(s, c))
  {
    if s != [] {
      var head := if s[0] == c then [] else [s[0]];
      assert Lower(s) == [ToLower(s[0])] + Lower(s[1..]);
      assert Without(s, c) == head + Without(s[1..], c);
      LowerWithout(s[1..], c);
      WithoutAppend([ToLower(s[0])], Lower(s[1..]), c);
      LowerAppend(head, Without(s[1..], c));
      assert [ToLower(s[0])][1..] == [];
      assert Without([ToLower(s[0])], c) == Lower(head);
    }
  }

  lemma {:induction false} LowerAppend(a: string, b: string)
    ensures Lower(a + b) == Lower(a) + Lower(b)
  {
    var whole, parts := Lower(a + b), Lower(a) + Lower(b);
    assert |whole| == |parts|;
    forall i | 0 <= i < |a + b| ensures whole[i] == parts[i] {
      if i < |a| {
        assert (a + b)[i] == a[i] && parts[i] == Lower(a)[i];
      } else {
        assert (a + b)[i] == b[i - |a|] && parts[i] == Lower(b)[i - |a|];
      }
    }
    assert whole == parts;
  }

  /** A marked name starts with a dash only when it started with a capital, which then follows. */
  lemma MarkCapitalsNoDoubleDash(benefit: string)
    requires '-' !in benefit
    requires var l := Lower(MarkCapitals(benefit, '-')); |l| > 0 && l[0] == '-'
    ensures var l := Lower(MarkCapitals(benefit, '-')); |l| > 1 && l[1] != '-'
  {
    MarkCapitalsFirst(benefit);
  }

  lemma MarkCapitalsFirst(benefit: string)
    requires '-' !in benefit && |benefit| > 0
    ensures var l := Lower(MarkCapitals(benefit, '-')); |l| > 0 && (l[0] == '-' <==> IsUpper(benefit[0]))
  {
  }

  /** The header and rule of a field table. */
  const TableHeader := "| Field ID | Display Name | Type | Required | Description |"
  const TableRule := "|----------|--------------|------|----------|-------------|"

  /** What `formatFieldName(null)` throws when the schema names no benefit. */
  const NullBenefit := "Cannot read properties of null (reading 'replace')"

  /** Fixed text of the document. */
  const TitleSuffix := " - Required Inputs"
  const Intro := "This document describes all required inputs for the eligibility screener."
  const AutoGenerated := "> **Auto-generated** from DMN files - do not edit manually."
  const Regenerate := "> Run `npm run derive-inputs` to regenerate."
  const BenefitLabel := "- **Benefit**: "
  const TotalLabel := "- **Total required inputs**: "
  const PersonCountLabel := "- **Person fields**: "
  const SituationCountLabel := "- **Situation fields**: "
  const ChecksCountLabel := "- **DMN checks**: "
  const ChecksHeading := "## DMN Checks"
  const ChecksIntro := "The following DMN models are used in this eligibility determination:"
  const ExampleHeading := "## Example Request"

  function TitleLines(title: string): seq<string> {
    ["# " + title + TitleSuffix, "",
     Intro, "",
     AutoGenerated,
     Regenerate, ""]
  }

  function OverviewLines(title: string, personCount: nat, situationCount: nat, modelCount: nat): seq<string> {
    ["## Overview", "", BenefitLabel + title,
     TotalLabel + NatToString(personCount + situationCount),
     PersonCountLabel + NatToString(personCount),
     SituationCountLabel + NatToString(situationCount)]
    + (if modelCount > 0 then [ChecksCountLabel + NatToString(modelCount)] else [])
    + [""]
  }

  function SectionLines(heading: string, blurb: string, fieldCount: nat, rows: seq<string>): seq<string> {
    if fieldCount > 0 then [heading, "", blurb, "", TableHeader, TableRule] + rows + [""] else []
  }

  const PersonHeading := "## Person Fields"
  const PersonBlurb := "Information about the individual being evaluated for eligibility."
  const SituationHeading := "## Situation Fields"
  const SituationBlurb := "Information about the household or circumstances."

  function ModelLines(m: DmnModel): seq<string> {
    ["- **" + m.name + "** (" + m.path + ")"]
    + (if |m.inputData| > 0 then ["  - Inputs: " + Join(m.inputData, ", ")] else [])
  }

  function ModelsLines(models: seq<DmnModel>): seq<string> {
    if models == [] then [] else ModelsLines(models[..|models| - 1]) + ModelLines(models[|models| - 1])
  }

  function ChecksLines(models: seq<DmnModel>): seq<string> {
    if |models| > 0 then
      [ChecksHeading, "", ChecksIntro, ""]
      + ModelsLines(models) + [""]
    else []
  }

  /** The `situation` object of the example request. */
  function ExampleSituation(schema: Schema): seq<Entry<Json>> {
    var withPeople :=
      if |schema.person| > 0 then
        [Entry("people", JArr([JObj(ExamplesInto([Entry("id", JStr("person-1"))], schema.person))])),
         Entry("primaryPersonId", JStr("person-1"))]
      else [];
    ExamplesInto(withPeople, schema.situation)
  }

  function ExampleRequest(schema: Schema): Json {
    JObj([Entry("situation", JObj(ExampleSituation(schema)))])
  }

  /** The example section around the serialised example request. */
  function ExampleLines(example: string): seq<string> {
    [ExampleHeading, "", "```json", example, "```", ""]
  }

  function FooterLines(date: string): seq<string> {
    ["---", "", "*Generated: " + date + "*", ""]
  }

  /**
   * The document laid out from its title, the two field counts and tables,
   * the DMN models, the serialised example and the footer date.
   */
  function Layout(title: string, personCount: nat, situationCount: nat, personRows: seq<string>,
                  situationRows: seq<string>, models: seq<DmnModel>, example: string, date: string): seq<string>
  {
    HeadLines(title, personCount, situationCount, |models|)
    + SectionLines(PersonHeading, PersonBlurb, personCount, personRows)
    + SectionLines(SituationHeading, SituationBlurb, situationCount, situationRows)
    + (ChecksLines(models) + (ExampleLines(example) + FooterLines(date)))
  }

  /**
   * The lines of `generateDocumentation`, before they are joined; an error
   * when the schema names no benefit.
   */
  function DocLines(schema: Schema, models: seq<DmnModel>, example: string, date: string)
    : Result<seq<string>, string>
  {
    match schema.benefit
    case None => Err(NullBenefit)
    case Some(b) =>
      Ok(Layout(Humanize(b), |schema.person|, |schema.situation|,
                FieldsTable(schema.person, ""), FieldsTable(schema.situation, ""), models, example, date))
  }

  /** Lines 149-174: one field section, when its map is non-empty. */
  method PushSection(lines: seq<string>, heading: string, blurb: string, fields: seq<Entry<FieldSpec>>)
    returns (r: seq<string>)
    ensures r == lines + SectionLines(heading, blurb, |fields|, FieldsTable(fields, ""))
  {
    r := lines;
    if |fields| > 0 {
      r := r + [heading, "", blurb, "", TableHeader, TableRule];
      var rows := GenerateFieldsTable(fields, "");
      r := r + rows + [""];
    }
  }

  /** Lines 183-188: one line per model, and one for its inputs when it has any. */
  method PushModels(lines: seq<string>, dmnModels: seq<DmnModel>) returns (r: seq<string>)
    ensures r == lines + ModelsLines(dmnModels)
  {
    r := lines;
    for i := 0 to |dmnModels|
      invariant r == lines + ModelsLines(dmnModels[..i])
    {
      assert dmnModels[..i + 1][..i] == dmnModels[..i];
      var model := dmnModels[i];
      var before := r;
      r := r + ["- **" + model.name + "** (" + model.path + ")"];
      if |model.inputData| > 0 {
        r := r + ["  - Inputs: " + Join(model.inputData, ", ")];
      }
      assert r == before + ModelLines(model);
    }
    assert dmnModels[..|dmnModels|] == dmnModels;
  }

  /** Lines 177-190. */
  method PushChecks(lines: seq<string>, dmnModels: seq<DmnModel>) returns (r: seq<string>)
    ensures r == lines + ChecksLines(dmnModels)
  {
    r := lines;
    if |dmnModels| > 0 {
      var top := [ChecksHeading, "", ChecksIntro, ""];
      r := PushModels(r + top, dmnModels);
      r := r + [""];
      assert r == lines + (top + ModelsLines(dmnModels) + [""]);
    }
  }

  /** Lines 197-219. */
  method BuildExampleRequest(schema: Schema) returns (request: Json)
    ensures request == ExampleRequest(schema)
  {
    var situation := [];
    if |schema.person| > 0 {
      var person := FillExamples([Entry("id", JStr("person-1"))], schema.person);
      // The two keys are assigned to a still empty object, so they are appended in order.
      situation := [Entry("people", JArr([JObj(person)])), Entry("primaryPersonId", JStr("person-1"))];
    }
    if |schema.situation| > 0 {
      situation := FillExamples(situation, schema.situation);
    } else {
      assert ExamplesInto(situation, schema.situation) == situation;
    }
    request := JObj([Entry("situation", JObj(situation))]);
  }

  /** Lines 119-232; `stringify` stands for `JSON.stringify(_, null, 2)` and `date` for the footer's date. */
  method GenerateDocumentation(inputSchema: Schema, dmnModels: seq<DmnModel>, stringify: Json -> string, date: string)
    returns (doc: Result<string, string>)
    ensures var lines := DocLines(inputSchema, dmnModels, stringify(ExampleRequest(inputSchema)), date);
            doc == if lines.Ok? then Ok(Join(lines.value, "\n")) else Err(NullBenefit)
  {
    if inputSchema.benefit.None? {
      return Err(NullBenefit);
    }
    var title := Humanize(inputSchema.benefit.value);
    var head := TitleLines(title) + OverviewLines(title, |inputSchema.person|, |inputSchema.situation|, |dmnModels|);
    var lines := PushSection(head, PersonHeading, PersonBlurb, inputSchema.person);
    lines := PushSection(lines, SituationHeading, SituationBlurb, inputSchema.situation);
    var body := lines;
    lines := PushChecks(lines, dmnModels);
    var exampleRequest := BuildExampleRequest(inputSchema);
    var tail := [ExampleHeading, "", "```json", stringify(exampleRequest), "```", ""] + FooterLines(date);
    lines := lines + tail;
    Associative(body, ChecksLines(dmnModels), tail);
    assert lines == Layout(title, |inputSchema.person|, |inputSchema.situation|, FieldsTable(inputSchema.person, ""),
                           FieldsTable(inputSchema.situation, ""), dmnModels, stringify(exampleRequest), date);
    return Ok(Join(lines, "\n"));
  }

  lemma Associative<T>(a: seq<T>, b: seq<T>, c: seq<T>)
    ensures a + b + c == a + (b + c)
  {
  }

  /** The documentation fails exactly when there is no benefit name. */
  lemma DocFails(schema: Schema, models: seq<DmnModel>, example: string, date: string)
    ensures DocLines(schema, models, example, date).Err? <==> schema.benefit.None?
  {
  }

  function HeadLines(title: string, personCount: nat, situationCount: nat, modelCount: nat): seq<string> {
    TitleLines(title) + OverviewLines(title, personCount, situationCount, modelCount)
  }

  /**
   * The overview states the benefit's display name and the three counts,
   * the total being the person count plus the situation count.
   */
  lemma LayoutOverview(title: string, personCount: nat, situationCount: nat, personRows: seq<string>,
                       situationRows: seq<string>, models: seq<DmnModel>, example: string, date: string)
    ensures var lines := Layout(title, personCount, situationCount, personRows, situationRows, models, example, date);
            |lines| > 14
            && lines[0] == "# " + title + TitleSuffix
            && lines[9] == BenefitLabel + title
            && lines[10] == TotalLabel + NatToString(personCount + situationCount)
            && lines[11] == PersonCountLabel + NatToString(personCount)
            && lines[12] == SituationCountLabel + NatToString(situationCount)
            && lines[13] == (if |models| > 0 then ChecksCountLabel + NatToString(|models|) else "")
  {
    assert |TitleLines(title)| == 7;
  }

  /** The overview of the generated documentation, in terms of the schema. */
  lemma DocOverview(schema: Schema, models: seq<DmnModel>, example: string, date: string)
    requires schema.benefit.Some?
    ensures var lines := DocLines(schema, models, example, date).value;
            var title := Humanize(schema.benefit.value);
            |lines| > 14
            && lines[0] == "# " + title + TitleSuffix
            && lines[10] == TotalLabel + NatToString(|schema.person| + |schema.situation|)
            && lines[11] == PersonCountLabel + NatToString(|schema.person|)
            && lines[12] == SituationCountLabel + NatToString(|schema.situation|)
  {
    LayoutOverview(Humanize(schema.benefit.value), |schema.person|, |schema.situation|,
                   FieldsTable(schema.person, ""), FieldsTable(schema.situation, ""), models, example, date);
  }

  /** A run inside the middle part of a concatenation, located in the whole. */
  lemma Nested<T>(lines: seq<T>, pre: seq<T>, sec: seq<T>, post: seq<T>, t: seq<T>, off: nat)
    requires lines == pre + sec + post && off + |t| <= |sec| && sec[off..off + |t|] == t
    ensures lines[|pre| + off..|pre| + off + |t|] == t
  {
    assert lines[|pre| + off..|pre| + off + |t|] == sec[off..off + |t|];
  }

  /** A present field section holds the heading and then, after five lines, the rows. */
  lemma SectionRows(heading: string, blurb: string, fieldCount: nat, rows: seq<string>)
    requires fieldCount > 0
    ensures var sec := SectionLines(heading, blurb, fieldCount, rows);
            |sec| == 7 + |rows| && sec[6..6 + |rows|] == rows
  {
    var top := [heading, "", blurb, "", TableHeader, TableRule];
    assert (top + rows + [""])[6..6 + |rows|] == rows;
  }

  /** The section after the overview: person, else situation, else DMN checks, else the example. */
  lemma LayoutFirstHeading(title: string, personCount: nat, situationCount: nat, personRows: seq<string>,
                       situationRows: seq<string>, models: seq<DmnModel>, example: string, date: string)
    ensures var lines := Layout(title, personCount, situationCount, personRows, situationRows, models, example, date);
            var k := 14 + (if |models| > 0 then 1 else 0);
            |lines| > k
            && lines[k] == (if personCount > 0 then PersonHeading
                            else if situationCount > 0 then SituationHeading
                            else if |models| > 0 then ChecksHeading else ExampleHeading)
  {
    var head := HeadLines(title, personCount, situationCount, |models|);
    var ps := SectionLines(PersonHeading, PersonBlurb, personCount, personRows);
    var ss := SectionLines(SituationHeading, SituationBlurb, situationCount, situationRows);
    var rest := ChecksLines(models) + (ExampleLines(example) + FooterLines(date));
    HeadLength(title, personCount, situationCount, |models|);
    SectionLength(PersonHeading, PersonBlurb, personCount, personRows);
    SectionLength(SituationHeading, SituationBlurb, situationCount, situationRows);
    RestStart(models, example, date);
    SectionHead(PersonHeading, PersonBlurb, personCount, personRows);
    SectionHead(SituationHeading, SituationBlurb, situationCount, situationRows);
    StartOfSecond(head, ps, ss, rest, PersonHeading, SituationHeading, rest[0]);
  }

  /** The section after the person section: situation, else DMN checks, else the example. */
  lemma LayoutSecondHeading(title: string, personCount: nat, situationCount: nat, personRows: seq<string>,
                       situationRows: seq<string>, models: seq<DmnModel>, example: string, date: string)
    ensures var lines := Layout(title, personCount, situationCount, personRows, situationRows, models, example, date);
            var k := 14 + (if |models| > 0 then 1 else 0);
            var k2 := k + (if personCount > 0 then 7 + |personRows| else 0);
            |lines| > k2
            && lines[k2] == (if situationCount > 0 then SituationHeading
                             else if |models| > 0 then ChecksHeading else ExampleHeading)
  {
    var head := HeadLines(title, personCount, situationCount, |models|);
    var ps := SectionLines(PersonHeading, PersonBlurb, personCount, personRows);
    var ss := SectionLines(SituationHeading, SituationBlurb, situationCount, situationRows);
    var rest := ChecksLines(models) + (ExampleLines(example) + FooterLines(date));
    HeadLength(title, personCount, situationCount, |models|);
    SectionLength(PersonHeading, PersonBlurb, personCount, personRows);
    SectionLength(SituationHeading, SituationBlurb, situationCount, situationRows);
    RestStart(models, example, date);
    SectionHead(SituationHeading, SituationBlurb, situationCount, situationRows);
    StartOfThird(head, ps, ss, rest, SituationHeading, rest[0]);
  }

  /** After the field sections come the DMN checks, or the example when there are no models. */
  lemma LayoutAfterSections(title: string, personCount: nat, situationCount: nat, personRows: seq<string>,
                       situationRows: seq<string>, models: seq<DmnModel>, example: string, date: string)
    ensures var lines := Layout(title, personCount, situationCount, personRows, situationRows, models, example, date);
            var k := 14 + (if |models| > 0 then 1 else 0);
            var k2 := k + (if personCount > 0 then 7 + |personRows| else 0);
            var k3 := k2 + (if situationCount > 0 then 7 + |situationRows| else 0);
            |lines| > k3 && lines[k3] == (if |models| > 0 then ChecksHeading else ExampleHeading)
  {
    var head := HeadLines(title, personCount, situationCount, |models|);
    var ps := SectionLines(PersonHeading, PersonBlurb, personCount, personRows);
    var ss := SectionLines(SituationHeading, SituationBlurb, situationCount, situationRows);
    var rest := ChecksLines(models) + (ExampleLines(example) + FooterLines(date));
    HeadLength(title, personCount, situationCount, |models|);
    SectionLength(PersonHeading, PersonBlurb, personCount, personRows);
    SectionLength(SituationHeading, SituationBlurb, situationCount, situationRows);
    RestStart(models, example, date);
    StartOfFourth(head, ps, ss, rest, rest[0]);
  }

  /** The person section, when there are person fields, holds their table. */
  lemma LayoutPersonRows(title: string, personCount: nat, situationCount: nat, personRows: seq<string>,
                       situationRows: seq<string>, models: seq<DmnModel>, example: string, date: string)
    requires personCount > 0
    ensures var lines := Layout(title, personCount, situationCount, personRows, situationRows, models, example, date);
            var k := 14 + (if |models| > 0 then 1 else 0);
            |lines| >= k + 6 + |personRows| && lines[k + 6..k + 6 + |personRows|] == personRows
  {
    var head := HeadLines(title, personCount, situationCount, |models|);
    var ps := SectionLines(PersonHeading, PersonBlurb, personCount, personRows);
    var ss := SectionLines(SituationHeading, SituationBlurb, situationCount, situationRows);
    var rest := ChecksLines(models) + (ExampleLines(example) + FooterLines(date));
    HeadLength(title, personCount, situationCount, |models|);
    SectionRows(PersonHeading, PersonBlurb, personCount, personRows);
    RowsInSecond(head, ps, ss, rest, personRows, 14 + (if |models| > 0 then 1 else 0));
  }

  /** The situation section, when there are situation fields, holds their table. */
  lemma LayoutSituationRows(title: string, personCount: nat, situationCount: nat, personRows: seq<string>,
                       situationRows: seq<string>, models: seq<DmnModel>, example: string, date: string)
    requires situationCount > 0
    ensures var lines := Layout(title, personCount, situationCount, personRows, situationRows, models, example, date);
            var k := 14 + (if |models| > 0 then 1 else 0);
            var k2 := k + (if personCount > 0 then 7 + |personRows| else 0);
            |lines| >= k2 + 6 + |situationRows| && lines[k2 + 6..k2 + 6 + |situationRows|] == situationRows
  {
    var head := HeadLines(title, personCount, situationCount, |models|);
    var ps := SectionLines(PersonHeading, PersonBlurb, personCount, personRows);
    var ss := SectionLines(SituationHeading, SituationBlurb, situationCount, situationRows);
    var rest := ChecksLines(models) + (ExampleLines(example) + FooterLines(date));
    HeadLength(title, personCount, situationCount, |models|);
    SectionLength(PersonHeading, PersonBlurb, personCount, personRows);
    SectionRows(SituationHeading, SituationBlurb, situationCount, situationRows);
    RowsInThird(head, ps, ss, rest, situationRows,
                14 + (if |models| > 0 then 1 else 0) + (if personCount > 0 then 7 + |personRows| else 0));
  }

  lemma SectionLength(heading: string, blurb: string, fieldCount: nat, rows: seq<string>)
    ensures |SectionLines(heading, blurb, fieldCount, rows)| == if fieldCount > 0 then 7 + |rows| else 0
  {
  }

  lemma SectionHead(heading: string, blurb: string, fieldCount: nat, rows: seq<string>)
    ensures fieldCount > 0 ==> SectionLines(heading, blurb, fieldCount, rows)[0] == heading
  {
  }

  /** The element after the first of four concatenated runs: the first of the next non-empty run. */
  lemma StartOfSecond<T>(head: seq<T>, ps: seq<T>, ss: seq<T>, rest: seq<T>, hp: T, hs: T, hr: T)
    requires |ps| > 0 ==> ps[0] == hp
    requires |ss| > 0 ==> ss[0] == hs
    requires |rest| > 0 && rest[0] == hr
    ensures var lines := head + ps + ss + rest;
            |lines| > |head| && lines[|head|] == (if |ps| > 0 then hp else if |ss| > 0 then hs else hr)
  {
  }

  /** The element after the first two of four concatenated runs. */
  lemma StartOfThird<T>(head: seq<T>, ps: seq<T>, ss: seq<T>, rest: seq<T>, hs: T, hr: T)
    requires |ss| > 0 ==> ss[0] == hs
    requires |rest| > 0 && rest[0] == hr
    ensures var lines := head + ps + ss + rest;
            |lines| > |head| + |ps| && lines[|head| + |ps|] == (if |ss| > 0 then hs else hr)
  {
  }

  /** The element after the first three of four concatenated runs. */
  lemma StartOfFourth<T>(head: seq<T>, ps: seq<T>, ss: seq<T>, rest: seq<T>, hr: T)
    requires |rest| > 0 && rest[0] == hr
    ensures var lines := head + ps + ss + rest;
            |lines| > |head| + |ps| + |ss| && lines[|head| + |ps| + |ss|] == hr
  {
  }

  /** Rows at the seventh element of the second of four concatenated runs, seen in the whole. */
  lemma RowsInSecond<T>(head: seq<T>, sec: seq<T>, mid: seq<T>, rest: seq<T>, rows: seq<T>, k: nat)
    requires |head| == k && |sec| >= 6 + |rows| && sec[6..6 + |rows|] == rows
    ensures var lines := head + sec + mid + rest;
            |lines| >= k + 6 + |rows| && lines[k + 6..k + 6 + |rows|] == rows
  {
    var lines := head + sec + mid + rest;
    forall n | 0 <= n < |rows|
      ensures lines[k + 6..k + 6 + |rows|][n] == rows[n]
    {
      assert lines[k + 6 + n] == sec[6 + n] == sec[6..6 + |rows|][n];
    }
  }

  /** Rows at the seventh element of the third of four concatenated runs, seen in the whole. */
  lemma RowsInThird<T>(head: seq<T>, pre: seq<T>, sec: seq<T>, rest: seq<T>, rows: seq<T>, k: nat)
    requires |head| + |pre| == k && |sec| >= 6 + |rows| && sec[6..6 + |rows|] == rows
    ensures var lines := head + pre + sec + rest;
            |lines| >= k + 6 + |rows| && lines[k + 6..k + 6 + |rows|] == rows
  {
    var lines := head + pre + sec + rest;
    forall n | 0 <= n < |rows|
      ensures lines[k + 6..k + 6 + |rows|][n] == rows[n]
    {
      assert lines[k + 6 + n] == sec[6 + n] == sec[6..6 + |rows|][n];
    }
  }

  lemma HeadLength(title: string, personCount: nat, situationCount: nat, modelCount: nat)
    ensures |HeadLines(title, personCount, situationCount, modelCount)| == 14 + if modelCount > 0 then 1 else 0
  {
    assert |TitleLines(title)| == 7;
  }

  lemma RestStart(models: seq<DmnModel>, example: string, date: string)
    ensures var rest := ChecksLines(models) + (ExampleLines(example) + FooterLines(date));
            |rest| > 0 && rest[0] == if |models| > 0 then ChecksHeading else ExampleHeading
  {
  }

  /** The person object of the example request: its id, then one example per person field. */
  lemma ExamplePerson(person: seq<Entry<FieldSpec>>, k: string)
    requires UniqueKeys(person)
    ensures var p := ExamplesInto([Entry("id", JStr("person-1"))], person);
            Keys(p) == AddAll(["id"], Keys(person))
            && (k in Keys(person) ==> Get(p, k) == Some(Example(k, Get(person, k).value)))
            && ("id" !in Keys(person) ==> Get(p, "id") == Some(JStr("person-1")))
  {
    var base := [Entry("id", JStr("person-1"))];
    assert Keys(base) == ["id"];
    assert Get(base, "id") == Some(JStr("person-1"));
    ExamplesIntoKeys(base, person);
    ExamplesIntoGet(base, person, k);
    ExamplesIntoGet(base, person, "id");
  }

  /**
   * The example situation: every situation field holds its example; with
   * person fields it also lists the people and names `person-1` primary
   * (unless a situation field of that name replaces it), and without them
   * it has the situation fields alone.
   */
  lemma ExampleSituationFields(schema: Schema, k: string)
    requires UniqueKeys(schema.situation)
    ensures var sit := ExampleSituation(schema);
            (k in Keys(schema.situation) ==> Get(sit, k) == Some(Example(k, Get(schema.situation, k).value)))
            && (|schema.person| > 0 && "primaryPersonId" !in Keys(schema.situation) ==>
                  Get(sit, "primaryPersonId") == Some(JStr("person-1")))
            && (|schema.person| == 0 ==> Keys(sit) == Keys(schema.situation))
  {
    var withPeople :=
      if |schema.person| > 0 then
        [Entry("people", JArr([JObj(ExamplesInto([Entry("id", JStr("person-1"))], schema.person))])),
         Entry("primaryPersonId", JStr("person-1"))]
      else [];
    ExamplesIntoGet(withPeople, schema.situation, k);
    ExamplesIntoGet(withPeople, schema.situation, "primaryPersonId");
    if |schema.person| == 0 {
      ExamplesIntoKeys([], schema.situation);
      AddAllOfNoDup(Keys(schema.situation));
    }
  }
}
