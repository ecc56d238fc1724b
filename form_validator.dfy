/**
 * The form/schema sync check: the field ids a Form.js form collects, the
 * field ids an input schema requires, their differences with the
 * auto-populated exemptions, and the text report.
 */
module FormValidator {
  import opened Wrappers
  import opened Text
  import opened Ordered
  import opened InputSchema
  import opened FormJs

  /** `if (componentId)`: present and not empty. */
  predicate HasId(c: Component) {
    c.id.Some? && c.id.value != ""
  }

  /** `${componentId}`: a missing id prints as `undefined`. */
  function IdText(id: Option<string>): string {
    if id.Some? then id.value else "undefined"
  }

  /** Each id prefixed with `p.`. */
  function Prefixed(p: string, ids: seq<string>): (r: seq<string>)
    ensures |r| == |ids|
    ensures forall i :: 0 <= i < |ids| ==> r[i] == p + "." + ids[i]
  {
    if ids == [] then [] else [p + "." + ids[0]] + Prefixed(p, ids[1..])
  }

  /**
   * The ids one component adds to the set, in the order added: a group only
   * its children's; any other component its own id, then its children's,
   * prefixed with its id when it is a dynamic list.
   */
  function Contribution(c: Component): seq<string>
    decreases c, 1
  {
    if c.kind == "group" then
      if c.components.Children? then FormIds(c.components.items) else []
    else
      (if HasId(c) then [c.id.value] else [])
      + if c.components.NoChildren? then []
        else
          var children := FormIds(c.components.items);
          if c.kind == "dynamiclist" then Prefixed(IdText(c.id), children) else children
  }

  /** `extractFormFieldIds(components)`, as an insertion-ordered set. */
  function FormIds(cs: seq<Component>): seq<string>
    decreases cs, 0
  {
    if cs == [] then [] else AddAll(FormIds(cs[..|cs| - 1]), Contribution(cs[|cs| - 1]))
  }

  /** Lines 9-44: the loop over the components. */
  method ExtractFormFieldIds(components: seq<Component>) returns (fields: seq<string>)
    ensures fields == FormIds(components)
    decreases components, 0
  {
    fields := [];
    for i := 0 to |components|
      invariant fields == FormIds(components[..i])
    {
      assert components[..i + 1][..i] == components[..i];
      fields := AddComponentIds(fields, components[i]);
    }
    assert components[..|components|] == components;
  }

  /** The body of that loop for one component. */
  method AddComponentIds(fields: seq<string>, component: Component) returns (r: seq<string>)
    ensures r == AddAll(fields, Contribution(component))
    decreases component, 1
  {
    if component.kind == "group" {
      r := fields;
      if component.components.Children? {
        var childFields := ExtractFormFieldIds(component.components.items);
        r := ForEachAdd(r, childFields);
      }
      return;
    }
    var own := if HasId(component) then [component.id.value] else [];
    r := ForEachAdd(fields, own);
    if component.components.Children? {
      var childFields := ExtractFormFieldIds(component.components.items);
      var added := if component.kind == "dynamiclist" then Prefixed(IdText(component.id), childFields) else childFields;
      AddAllConcat(fields, own, added);
      r := ForEachAdd(r, added);
    } else {
      assert own + [] == own;
    }
  }

  /** The ids one schema entry requires: its name, then `name.sub` for each sub-field. */
  function EntryIds(e: Entry<FieldSpec>): seq<string> {
    [e.key] + if e.value.fields.Fields? then Prefixed(e.key, Keys(e.value.fields.entries)) else []
  }

  /** The ids of all entries of a field map, in order. */
  function EntriesIds(m: seq<Entry<FieldSpec>>): seq<string> {
    if m == [] then [] else EntriesIds(m[..|m| - 1]) + EntryIds(m[|m| - 1])
  }

  /** `extractSchemaFieldIds(schema)`: the person ids, then the situation ids. */
  function SchemaIds(schema: Schema): seq<string> {
    AddAll(AddAll([], EntriesIds(schema.person)), EntriesIds(schema.situation))
  }

  /** Lines 61-63: `fields.add(`${fieldName}.${nestedField}`)` for each sub-field. */
  method AddPrefixed(fields: seq<string>, fieldName: string, nested: seq<string>) returns (r: seq<string>)
    ensures r == AddAll(fields, Prefixed(fieldName, nested))
  {
    r := fields;
    for j := 0 to |nested|
      invariant r == AddAll(fields, Prefixed(fieldName, nested[..j]))
    {
      assert Prefixed(fieldName, nested[..j + 1])[..j] == Prefixed(fieldName, nested[..j]);
      r := Add(r, fieldName + "." + nested[j]);
    }
    assert nested[..|nested|] == nested;
  }

  /** Adding the ids of one more entry: its name, then its prefixed sub-fields. */
  lemma EntriesIdsStep(fields: seq<string>, m: seq<Entry<FieldSpec>>, e: Entry<FieldSpec>)
    ensures AddAll(fields, EntriesIds(m + [e])) ==
            AddAll(Add(AddAll(fields, EntriesIds(m)), e.key),
                   if e.value.fields.Fields? then Prefixed(e.key, Keys(e.value.fields.entries)) else [])
  {
    assert (m + [e])[..|m|] == m;
    var before := AddAll(fields, EntriesIds(m));
    var rest := if e.value.fields.Fields? then Prefixed(e.key, Keys(e.value.fields.entries)) else [];
    AddAllConcat(fields, EntriesIds(m), EntryIds(e));
    assert [e.key][..0] == [];
    assert AddAll(before, [e.key]) == Add(before, e.key);
    AddAllConcat(before, [e.key], rest);
  }

  /** Lines 52-66: `addFieldsRecursive` over one field map. */
  method AddFieldsRecursive(fields: seq<string>, fieldsObj: seq<Entry<FieldSpec>>) returns (r: seq<string>)
    ensures r == AddAll(fields, EntriesIds(fieldsObj))
  {
    r := fields;
    for i := 0 to |fieldsObj|
      invariant r == AddAll(fields, EntriesIds(fieldsObj[..i]))
    {
      var entry := fieldsObj[i];
      assert fieldsObj[..i + 1] == fieldsObj[..i] + [entry];
      EntriesIdsStep(fields, fieldsObj[..i], entry);
      r := Add(r, entry.key);
      if entry.value.fields.Fields? {
        r := AddPrefixed(r, entry.key, Keys(entry.value.fields.entries));
      } else {
        assert AddAll(r, []) == r;
      }
    }
    assert fieldsObj[..|fieldsObj|] == fieldsObj;
  }

  /** Lines 49-77. */
  method ExtractSchemaFieldIds(schema: Schema) returns (fields: seq<string>)
    ensures fields == SchemaIds(schema)
  {
    fields := AddFieldsRecursive([], schema.person);
    fields := AddFieldsRecursive(fields, schema.situation);
  }

  /** Ids a form need not collect. */
  const AutoPopulated: set<string> := {"primaryPersonId", "evaluationDate", "id"}

  /** `Array.from(formFields).some(f => f.includes(x))`. */
  predicate SomeIncludes(formIds: seq<string>, x: string) {
    exists f :: f in formIds && Contains(f, x)
  }

  /** A schema id the form covers, exactly or as part of a longer id. */
  predicate Covered(x: string, formIds: seq<string>) {
    x in formIds || SomeIncludes(formIds, x)
  }

  /** The schema ids, in order, that are neither exempt nor covered. */
  function Missing(schemaIds: seq<string>, formIds: seq<string>): seq<string> {
    if schemaIds == [] then []
    else
      var x := schemaIds[|schemaIds| - 1];
      Missing(schemaIds[..|schemaIds| - 1], formIds) + if x in AutoPopulated || Covered(x, formIds) then [] else [x]
  }

  /** `formField.split('.')[0]`. */
  function BaseField(f: string): string {
    Split(f, '.')[0]
  }

  /** The form ids, in order, that are neither exempt nor in the schema, themselves or by their first segment. */
  function Extra(formIds: seq<string>, schemaIds: seq<string>): seq<string> {
    if formIds == [] then []
    else
      var f := formIds[|formIds| - 1];
      Extra(formIds[..|formIds| - 1], schemaIds)
      + if f in AutoPopulated || f in schemaIds || BaseField(f) in schemaIds then [] else [f]
  }

  datatype Validation = Validation(
    isValid: bool,
    missingFields: seq<string>,
    extraFields: seq<string>,
    formFieldCount: nat,
    schemaFieldCount: nat)

  /** The verdict on two id sets. */
  function Compare(formIds: seq<string>, schemaIds: seq<string>): Validation {
    var missing := Missing(schemaIds, formIds);
    Validation(missing == [], missing, Extra(formIds, schemaIds), |formIds|, |schemaIds|)
  }

  /** `validateFormSync(formSchema, inputSchema)`. */
  function Validated(form: Form, schema: Schema): Validation {
    Compare(FormIds(form.components), SchemaIds(schema))
  }

  /** Lines 91-104. */
  method FindMissing(schemaFields: seq<string>, formFields: seq<string>) returns (missingFields: seq<string>)
    ensures missingFields == Missing(schemaFields, formFields)
  {
    missingFields := [];
    for i := 0 to |schemaFields|
      invariant missingFields == Missing(schemaFields[..i], formFields)
    {
      var schemaField := schemaFields[i];
      assert schemaFields[..i + 1][..i] == schemaFields[..i];
      if schemaField in AutoPopulated {
        continue;
      }
      var exists_ := schemaField in formFields || SomeIncludes(formFields, schemaField);
      if !exists_ {
        missingFields := missingFields + [schemaField];
      }
    }
    assert schemaFields[..|schemaFields|] == schemaFields;
  }

  /** Lines 107-122. */
  method FindExtra(formFields: seq<string>, schemaFields: seq<string>) returns (extraFields: seq<string>)
    ensures extraFields == Extra(formFields, schemaFields)
  {
    extraFields := [];
    for i := 0 to |formFields|
      invariant extraFields == Extra(formFields[..i], schemaFields)
    {
      var formField := formFields[i];
      assert formFields[..i + 1][..i] == formFields[..i];
      if formField in AutoPopulated {
        continue;
      }
      var baseField := Split(formField, '.')[0];
      var exists_ := formField in schemaFields || baseField in schemaFields;
      if !exists_ {
        extraFields := extraFields + [formField];
      }
    }
    assert formFields[..|formFields|] == formFields;
  }

  /** Lines 82-131. */
  method ValidateFormSync(formSchema: Form, inputSchema: Schema) returns (v: Validation)
    ensures v == Validated(formSchema, inputSchema)
  {
    var formFields := ExtractFormFieldIds(formSchema.components);
    var schemaFields := ExtractSchemaFieldIds(inputSchema);
    var missingFields := FindMissing(schemaFields, formFields);
    var extraFields := FindExtra(formFields, schemaFields);
    v := Validation(|missingFields| == 0, missingFields, extraFields, |formFields|, |schemaFields|);
  }

  /** A schema id is missing exactly when it is not exempt and the form does not cover it. */
  lemma {:induction false} MissingElems(schemaIds: seq<string>, formIds: seq<string>, x: string)
    ensures x in Missing(schemaIds, formIds) <==> x in schemaIds && x !in AutoPopulated && !Covered(x, formIds)
    decreases |schemaIds|
  {
    if schemaIds != [] {
      var init := schemaIds[..|schemaIds| - 1];
      assert schemaIds == init + [schemaIds[|schemaIds| - 1]];
      MissingElems(init, formIds, x);
    }
  }

  /** A form id is extra exactly when it is not exempt and neither it nor its first segment is a schema id. */
  lemma {:induction false} ExtraElems(formIds: seq<string>, schemaIds: seq<string>, f: string)
    ensures f in Extra(formIds, schemaIds) <==>
            f in formIds && f !in AutoPopulated && f !in schemaIds && BaseField(f) !in schemaIds
    decreases |formIds|
  {
    if formIds != [] {
      var init := formIds[..|formIds| - 1];
      assert formIds == init + [formIds[|formIds| - 1]];
      ExtraElems(init, schemaIds, f);
    }
  }

  /**
   * The form is valid exactly when every schema id that is not exempt is
   * covered; extra fields do not matter.
   */
  lemma ValidIff(form: Form, schema: Schema)
    ensures Validated(form, schema).isValid <==>
            forall x :: x in SchemaIds(schema) && x !in AutoPopulated ==> Covered(x, FormIds(form.components))
  {
    var formIds, schemaIds := FormIds(form.components), SchemaIds(schema);
    if Validated(form, schema).isValid {
      forall x | x in schemaIds && x !in AutoPopulated
        ensures Covered(x, formIds)
      {
        MissingElems(schemaIds, formIds, x);
      }
    } else {
      var missing := Missing(schemaIds, formIds);
      assert missing[0] in missing;
      MissingElems(schemaIds, formIds, missing[0]);
    }
  }

  /** The exempt ids are never reported, on either side. */
  lemma ExemptNeverReported(form: Form, schema: Schema, x: string)
    requires x in AutoPopulated
    ensures x !in Validated(form, schema).missingFields && x !in Validated(form, schema).extraFields
  {
    MissingElems(SchemaIds(schema), FormIds(form.components), x);
    ExtraElems(FormIds(form.components), SchemaIds(schema), x);
  }

  /** The counts are the sizes of the two sets: each id is counted once. */
  lemma {:induction false} FormIdsNoDup(cs: seq<Component>)
    ensures NoDup(FormIds(cs))
    decreases |cs|
  {
    if cs != [] {
      FormIdsNoDup(cs[..|cs| - 1]);
      AddAllNoDup(FormIds(cs[..|cs| - 1]), Contribution(cs[|cs| - 1]));
    }
  }

  lemma SchemaIdsNoDup(schema: Schema)
    ensures NoDup(SchemaIds(schema))
  {
    AddAllNoDup([], EntriesIds(schema.person));
    AddAllNoDup(AddAll([], EntriesIds(schema.person)), EntriesIds(schema.situation));
  }

  /** Some component of `cs` contributes `x`. */
  predicate Contributed(cs: seq<Component>, x: string) {
    exists i :: 0 <= i < |cs| && x in Contribution(cs[i])
  }

  lemma ContributedSnoc(cs: seq<Component>, x: string)
    requires cs != []
    ensures Contributed(cs, x) <==> Contributed(cs[..|cs| - 1], x) || x in Contribution(cs[|cs| - 1])
  {
    var init := cs[..|cs| - 1];
    if Contributed(init, x) {
      var i :| 0 <= i < |init| && x in Contribution(init[i]);
      InitElement(cs, i);
    }
    if Contributed(cs, x) {
      var i :| 0 <= i < |cs| && x in Contribution(cs[i]);
      if i < |init| {
        InitElement(cs, i);
      }
    }
  }

  lemma InitElement<T>(s: seq<T>, i: nat)
    requires i < |s| - 1
    ensures s[..|s| - 1][i] == s[i]
  {
  }

  /** An id is collected exactly when some top-level component contributes it. */
  lemma {:induction false} FormIdsElems(cs: seq<Component>, x: string)
    ensures x in FormIds(cs) <==> Contributed(cs, x)
    decreases |cs|
  {
    if cs != [] {
      var init := cs[..|cs| - 1];
      FormIdsElems(init, x);
      InAddAll(FormIds(init), Contribution(cs[|cs| - 1]), x);
      ContributedSnoc(cs, x);
    }
  }

  /** The id of a non-group component with an id is collected. */
  lemma OwnIdCollected(c: Component)
    requires c.kind != "group" && HasId(c)
    ensures c.id.value in Contribution(c)
  {
  }

  /** A group's own id is never collected on its account: it contributes only what its children do. */
  lemma GroupContributesChildren(c: Component, x: string)
    requires c.kind == "group"
    ensures x in Contribution(c) <==> c.components.Children? && x in FormIds(c.components.items)
  {
  }

  /** A dynamic list's children are collected as `id.child`. */
  lemma ListChildPrefixed(c: Component, x: string)
    requires c.kind == "dynamiclist" && c.components.Children? && x in FormIds(c.components.items)
    ensures IdText(c.id) + "." + x in Contribution(c)
  {
    var children := FormIds(c.components.items);
    var i :| 0 <= i < |children| && children[i] == x;
    assert Prefixed(IdText(c.id), children)[i] == IdText(c.id) + "." + x;
  }

  /** Some entry of `m` requires `x`. */
  predicate RequiredBy(m: seq<Entry<FieldSpec>>, x: string) {
    exists i :: 0 <= i < |m| && x in EntryIds(m[i])
  }

  lemma RequiredBySnoc(m: seq<Entry<FieldSpec>>, x: string)
    requires m != []
    ensures RequiredBy(m, x) <==> RequiredBy(m[..|m| - 1], x) || x in EntryIds(m[|m| - 1])
  {
    var init := m[..|m| - 1];
    if RequiredBy(init, x) {
      var i :| 0 <= i < |init| && x in EntryIds(init[i]);
      assert m[i] == init[i];
    }
    if RequiredBy(m, x) {
      var i :| 0 <= i < |m| && x in EntryIds(m[i]);
      if i < |init| {
        assert init[i] == m[i];
      }
    }
  }

  /** The schema ids are the field names and their `name.sub` paths, one level deep. */
  lemma {:induction false} EntriesIdsElems(m: seq<Entry<FieldSpec>>, x: string)
    ensures x in EntriesIds(m) <==> RequiredBy(m, x)
    decreases |m|
  {
    if m != [] {
      EntriesIdsElems(m[..|m| - 1], x);
      RequiredBySnoc(m, x);
    }
  }

  lemma EntryIdsElems(e: Entry<FieldSpec>, x: string)
    ensures x in EntryIds(e) <==>
            x == e.key
            || (e.value.fields.Fields? && exists j :: 0 <= j < |e.value.fields.entries|
                                                && x == e.key + "." + e.value.fields.entries[j].key)
  {
    if e.value.fields.Fields? {
      var subs := e.value.fields.entries;
      var p := Prefixed(e.key, Keys(subs));
      if x in p {
        var j :| 0 <= j < |p| && p[j] == x;
        assert x == e.key + "." + subs[j].key;
      }
      if exists j :: 0 <= j < |subs| && x == e.key + "." + subs[j].key {
        var j :| 0 <= j < |subs| && x == e.key + "." + subs[j].key;
        assert p[j] == x;
      }
    }
  }

  lemma SchemaIdsElems(schema: Schema, x: string)
    ensures x in SchemaIds(schema) <==> x in EntriesIds(schema.person) || x in EntriesIds(schema.situation)
  {
    InAddAll([], EntriesIds(schema.person), x);
    InAddAll(AddAll([], EntriesIds(schema.person)), EntriesIds(schema.situation), x);
  }

  /** `'='.repeat(n)`. */
  function Repeat(c: char, n: nat): (r: string)
    ensures |r| == n && forall i :: 0 <= i < n ==> r[i] == c
  {
    if n == 0 then "" else Repeat(c, n - 1) + [c]
  }

  const PassMark := "✅"
  const PassLine := PassMark + " PASS: Form collects all required DMN inputs"
  const FailLine := "❌ FAIL: Form is missing required DMN inputs"

  function Bullet(field: string): string {
    "  - " + field
  }

  function Bullets(fields: seq<string>): (r: seq<string>)
    ensures |r| == |fields| && forall i :: 0 <= i < |fields| ==> r[i] == Bullet(fields[i])
  {
    if fields == [] then [] else Bullets(fields[..|fields| - 1]) + [Bullet(fields[|fields| - 1])]
  }

  function ExtraHeader(n: nat): string {
    "⚠️  Extra fields not in schema (" + NatToString(n) + "):"
  }

  function ReportHead(formName: string, schemaName: string): seq<string> {
    ["Form Sync Validation Report", Repeat('=', 60), "", "Form: " + formName, "Schema: " + schemaName, ""]
  }

  function VerdictLines(v: Validation): seq<string> {
    if v.isValid then
      [PassLine, "", "  Form fields: " + NatToString(v.formFieldCount), "  Schema fields: " + NatToString(v.schemaFieldCount)]
    else
      [FailLine, "", "Missing fields (" + NatToString(|v.missingFields|) + "):"] + Bullets(v.missingFields)
  }

  const ExtraNote := ["", "Note: " + "Extra fields are not necessarily a problem, but may indicate:",
                      Bullet("Fields collected for UX but not used in DMN logic"),
                      Bullet("Fields that should be added to DMN logic"),
                      Bullet("Outdated form fields that can be removed")]

  function ExtraLines(v: Validation): seq<string> {
    if |v.extraFields| > 0 then ["", ExtraHeader(|v.extraFields|)] + Bullets(v.extraFields) + ExtraNote else []
  }

  /** The lines of `generateValidationReport`, before they are joined. */
  function ReportLines(v: Validation, formName: string, schemaName: string): seq<string> {
    ReportHead(formName, schemaName) + VerdictLines(v) + ExtraLines(v) + ["", Repeat('=', 60)]
  }

  /** Pushes one line per field. */
  method PushBullets(lines: seq<string>, fields: seq<string>) returns (r: seq<string>)
    ensures r == lines + Bullets(fields)
  {
    r := lines;
    for i := 0 to |fields|
      invariant r == lines + Bullets(fields[..i])
    {
      assert fields[..i + 1][..i] == fields[..i];
      r := r + [Bullet(fields[i])];
    }
    assert fields[..|fields|] == fields;
  }

  /** Lines 146-158. */
  method PushVerdict(lines: seq<string>, validation: Validation) returns (r: seq<string>)
    ensures r == lines + VerdictLines(validation)
  {
    if validation.isValid {
      r := lines + [PassLine, "", "  Form fields: " + NatToString(validation.formFieldCount),
                    "  Schema fields: " + NatToString(validation.schemaFieldCount)];
    } else {
      var top := [FailLine, "", "Missing fields (" + NatToString(|validation.missingFields|) + "):"];
      r := PushBullets(lines + top, validation.missingFields);
      assert r == lines + (top + Bullets(validation.missingFields));
    }
  }

  /** Lines 160-171. */
  method PushExtra(lines: seq<string>, validation: Validation) returns (r: seq<string>)
    ensures r == lines + ExtraLines(validation)
  {
    if |validation.extraFields| > 0 {
      var header := ["", ExtraHeader(|validation.extraFields|)];
      r := PushBullets(lines + header, validation.extraFields);
      r := r + ExtraNote;
      assert r == lines + (header + Bullets(validation.extraFields) + ExtraNote);
    } else {
      r := lines;
      assert r == lines + [];
    }
  }

  /** Lines 136-177. */
  method GenerateValidationReport(validation: Validation, formName: string, schemaName: string)
    returns (report: string)
    ensures report == Join(ReportLines(validation, formName, schemaName), "\n")
  {
    var lines := ["Form Sync Validation Report", Repeat('=', 60), "", "Form: " + formName, "Schema: " + schemaName, ""];
    lines := PushVerdict(lines, validation);
    lines := PushExtra(lines, validation);
    lines := lines + ["", Repeat('=', 60)];
    report := Join(lines, "\n");
  }

  /**
   * The verdict line is the seventh line: PASS for a valid result and FAIL
   * otherwise; a failed report then lists every missing field, in order.
   */
  lemma ReportVerdict(v: Validation, formName: string, schemaName: string)
    ensures var lines := ReportLines(v, formName, schemaName);
            |lines| > 6 && lines[6] == (if v.isValid then PassLine else FailLine)
    ensures var lines := ReportLines(v, formName, schemaName);
            !v.isValid ==> |lines| >= 9 + |v.missingFields|
                           && forall i :: 0 <= i < |v.missingFields| ==> lines[9 + i] == Bullet(v.missingFields[i])
  {
    var head := ReportHead(formName, schemaName);
    var verdict := VerdictLines(v);
    var tail := ExtraLines(v) + ["", Repeat('=', 60)];
    assert |head| == 6;
    RunAt(head, verdict, tail);
  }

  /** The elements of the middle of three runs keep their order in the whole. */
  lemma RunAt<T>(head: seq<T>, mid: seq<T>, tail: seq<T>)
    ensures |head + mid + tail| >= |head| + |mid|
    ensures forall j :: |head| <= j < |head| + |mid| ==> (head + mid + tail)[j] == mid[j - |head|]
  {
  }

  /** The report is framed by the title and a closing rule of 60 `=`. */
  lemma ReportFrame(v: Validation, formName: string, schemaName: string)
    ensures var lines := ReportLines(v, formName, schemaName);
            |lines| >= 11 && lines[0] == "Form Sync Validation Report" && lines[|lines| - 1] == Repeat('=', 60)
  {
  }

  /** The extra-fields section is there exactly when there are extra fields. */
  lemma ReportExtraSection(v: Validation, formName: string, schemaName: string)
    ensures var lines := ReportLines(v, formName, schemaName);
            var k := 6 + (if v.isValid then 4 else 3 + |v.missingFields|);
            |lines| == k + (if |v.extraFields| > 0 then 7 + |v.extraFields| else 0) + 2
            && (|v.extraFields| > 0 ==>
                  lines[k + 1] == ExtraHeader(|v.extraFields|)
                  && forall i :: 0 <= i < |v.extraFields| ==> lines[k + 2 + i] == Bullet(v.extraFields[i]))
  {
    var front := ReportHead(formName, schemaName) + VerdictLines(v);
    var extra := ExtraLines(v);
    var lines := ReportLines(v, formName, schemaName);
    assert |ReportHead(formName, schemaName)| == 6;
    assert |VerdictLines(v)| == (if v.isValid then 4 else 3 + |v.missingFields|);
    var k := |front|;
    assert lines == front + (extra + ["", Repeat('=', 60)]);
    if |v.extraFields| > 0 {
      var bullets := Bullets(v.extraFields);
      assert extra == ["", ExtraHeader(|v.extraFields|)] + (bullets + ExtraNote);
      assert |extra| == 7 + |v.extraFields|;
      assert lines[k + 1] == extra[1];
      forall i | 0 <= i < |v.extraFields|
        ensures lines[k + 2 + i] == Bullet(v.extraFields[i])
      {
        assert lines[k + 2 + i] == extra[2 + i] == bullets[i];
      }
    }
  }

  /** A line that cannot be the PASS line: it is empty or does not start with its mark. */
  predicate NotPass(l: string) {
    l == [] || l[0] != PassLine[0]
  }

  /** Every line of `ls` is not the PASS line. */
  predicate NoPass(ls: seq<string>) {
    forall i :: 0 <= i < |ls| ==> NotPass(ls[i])
  }

  lemma HeadNoPass(formName: string, schemaName: string)
    ensures NoPass(ReportHead(formName, schemaName))
  {
    var head := ReportHead(formName, schemaName);
    assert ("Form: " + formName)[0] == 'F' && ("Schema: " + schemaName)[0] == 'S' && Repeat('=', 60)[0] == '=';
    assert NotPass(head[0]) && NotPass(head[1]) && NotPass(head[2]);
    assert NotPass(head[3]) && NotPass(head[4]) && NotPass(head[5]);
  }

  lemma BulletsNoPass(fields: seq<string>)
    ensures NoPass(Bullets(fields))
  {
    var b := Bullets(fields);
    forall i | 0 <= i < |b|
      ensures NotPass(b[i])
    {
      assert b[i] == "  - " + fields[i];
      assert b[i][0] == ' ';
    }
  }

  lemma FailNoPass(v: Validation)
    requires !v.isValid
    ensures NoPass(VerdictLines(v))
  {
    var top := [FailLine, "", "Missing fields (" + NatToString(|v.missingFields|) + "):"];
    assert ("Missing fields (" + NatToString(|v.missingFields|) + "):")[0] == 'M';
    assert NoPass(top);
    BulletsNoPass(v.missingFields);
    NoPassConcat(top, Bullets(v.missingFields));
  }

  lemma ExtraNoPass(v: Validation)
    ensures NoPass(ExtraLines(v))
  {
    if |v.extraFields| > 0 {
      var header := ["", ExtraHeader(|v.extraFields|)];
      assert ExtraHeader(|v.extraFields|)[0] == '\U{26A0}';
      assert NoPass(header);
      BulletsNoPass(v.extraFields);
      NoPassConcat(header, Bullets(v.extraFields));
      assert ExtraNote[1][0] == 'N' && ExtraNote[2][0] == ' ' && ExtraNote[3][0] == ' ' && ExtraNote[4][0] == ' ' by {
        assert ("Note: " + "Extra fields are not necessarily a problem, but may indicate:")[0] == 'N';
        assert Bullet("Fields collected for UX but not used in DMN logic")[0] == ' ';
        assert Bullet("Fields that should be added to DMN logic")[0] == ' ';
        assert Bullet("Outdated form fields that can be removed")[0] == ' ';
      }
      assert NotPass(ExtraNote[0]) && NotPass(ExtraNote[1]) && NotPass(ExtraNote[2]);
      assert NotPass(ExtraNote[3]) && NotPass(ExtraNote[4]);
      NoPassConcat(header + Bullets(v.extraFields), ExtraNote);
    }
  }

  lemma NoPassConcat(a: seq<string>, b: seq<string>)
    requires NoPass(a) && NoPass(b)
    ensures NoPass(a + b)
  {
    forall i | 0 <= i < |a + b|
      ensures NotPass((a + b)[i])
    {
      if i >= |a| { assert (a + b)[i] == b[i - |a|]; }
    }
  }

  /** The PASS line appears in the report exactly when the result is valid. */
  lemma ReportPassIffValid(v: Validation, formName: string, schemaName: string)
    ensures PassLine in ReportLines(v, formName, schemaName) <==> v.isValid
  {
    var lines := ReportLines(v, formName, schemaName);
    ReportVerdict(v, formName, schemaName);
    if !v.isValid {
      var head := ReportHead(formName, schemaName);
      HeadNoPass(formName, schemaName);
      FailNoPass(v);
      ExtraNoPass(v);
      var tail := ["", Repeat('=', 60)];
      assert Repeat('=', 60)[0] == '=';
      assert NoPass(tail);
      NoPassConcat(head, VerdictLines(v));
      NoPassConcat(head + VerdictLines(v), ExtraLines(v));
      NoPassConcat(head + VerdictLines(v) + ExtraLines(v), tail);
      assert PassLine[0] == '\U{2705}';
      assert !NotPass(PassLine);
      assert forall i :: 0 <= i < |lines| ==> lines[i] != PassLine;
    }
  }
}
