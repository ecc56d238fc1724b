/**
 * The Form.js generator: one form component per input-schema field, the
 * person and situation groups, the form object, and the optional pass that
 * attaches help texts to known fields.
 */
module FormGenerator {
  import opened Wrappers
  import opened Text
  import opened Ordered
  import opened InputSchema
  import opened FormJs

  /** Labels that are not derived from the camelCase name, keyed by the lower-cased name. */
  const Abbreviations: map<string, string> :=
    map["id" := "ID", "ssn" := "SSN", "dob" := "Date of Birth", "fbr" := "Federal Benefit Rate"]

  /** `formatLabel(str)`: an abbreviation when the lower-cased name has one, otherwise the words of the camelCase name. */
  function FormatLabel(s: string): string {
    var lower := Lower(s);
    if lower in Abbreviations then Abbreviations[lower] else Humanize(s)
  }

  /** The abbreviations are looked up without regard to case. */
  lemma FormatLabelIgnoresCase(s: string, t: string)
    requires Lower(s) == Lower(t) && Lower(s) in Abbreviations
    ensures FormatLabel(s) == FormatLabel(t)
  {
  }

  /** A camelCase name without an abbreviation can be read back from its label. */
  lemma FormatLabelRoundTrip(s: string)
    requires IsCamelIdentifier(s) && Lower(s) !in Abbreviations
    ensures LowerFirst(Without(FormatLabel(s), ' ')) == s
  {
    HumanizeRoundTrip(s);
  }

  /** Every label of a camelCase name starts with a capital letter. */
  lemma FormatLabelCapitalised(s: string)
    requires IsCamelIdentifier(s)
    ensures var l := FormatLabel(s); |l| > 0 && IsUpper(l[0])
  {
    if Lower(s) !in Abbreviations {
      HumanizeCamel(s);
    }
  }

  /** The input kind of a primitive field: the `switch (type)` of lines 25-61. */
  function PrimitiveKind(typeName: string): (k: string)
    ensures k in {"date", "checkbox", "number", "textfield"}
    ensures k == "textfield" <==> typeName !in {"date", "boolean", "number"}
    ensures typeName == "date" ==> k == "date"
    ensures typeName == "boolean" ==> k == "checkbox"
    ensures typeName == "number" ==> k == "number"
  {
    if typeName == "date" then "date"
    else if typeName == "boolean" then "checkbox"
    else if typeName == "number" then "number"
    else "textfield"
  }

  /**
   * `mapTypeToFormComponent(fieldName, fieldInfo)`: a dynamic list for a
   * collection, an input for a primitive, a group for a field with
   * sub-fields, and a text field otherwise.
   */
  function ComponentFor(name: string, spec: FieldSpec): (c: Component)
    ensures c.id == Some(name) && c.labelText == FormatLabel(name)
    ensures c.kind == "dynamiclist" <==> spec.isCollection
    ensures c.kind == "group" <==> !spec.isCollection && spec.primitive != Some(true) && spec.fields.Fields?
    ensures c.kind == "checkbox" <==> !spec.isCollection && spec.primitive == Some(true) && spec.typeName == "boolean"
    ensures c.kind in {"dynamiclist", "group", "date", "checkbox", "number", "textfield"}
    ensures !spec.isCollection && spec.primitive == Some(true) ==> c.kind == PrimitiveKind(spec.typeName)
    ensures !spec.isCollection && spec.primitive != Some(true) && spec.fields.NoFields? ==> c.kind == "textfield"
    ensures c.validate.Some? <==> c.components.NoChildren?
    ensures c.validate.Some? ==> c.validate.value == Required(spec)
    ensures c.description.Some? <==> spec.isCollection
    ensures spec.isCollection ==> c.description == Some("List of " + FormatLabel(ListedType(spec)))
    ensures c.components.Children? && spec.fields.NoFields? ==> c.components.items == []
    decreases spec
  {
    var caption := FormatLabel(name);
    if spec.isCollection then
      Component("dynamiclist", Some(name), caption, Some("List of " + FormatLabel(ListedType(spec))), None,
                Children(if spec.fields.Fields? then FieldComponents(spec.fields.entries) else []))
    else if spec.primitive == Some(true) then
      Component(PrimitiveKind(spec.typeName), Some(name), caption, None, Some(Required(spec)), NoChildren)
    else if spec.fields.Fields? then
      Component("group", Some(name), caption, None, None, Children(FieldComponents(spec.fields.entries)))
    else
      Component("textfield", Some(name), caption, None, Some(Required(spec)), NoChildren)
  }

  /** `generateFieldComponents(fields)`: one component per field, in the order of the fields. */
  function FieldComponents(fields: seq<Entry<FieldSpec>>): (cs: seq<Component>)
    ensures |cs| == |fields|
    decreases fields
  {
    if fields == [] then []
    else
      var last := fields[|fields| - 1];
      FieldComponents(fields[..|fields| - 1]) + [ComponentFor(last.key, last.value)]
  }

  /** Lines 9-81. */
  method MapTypeToFormComponent(fieldName: string, fieldInfo: FieldSpec) returns (c: Component)
    ensures c == ComponentFor(fieldName, fieldInfo)
    decreases fieldInfo
  {
    var caption := FormatLabel(fieldName);
    if fieldInfo.isCollection {
      var components := [];
      if fieldInfo.fields.Fields? {
        components := GenerateFieldComponents(fieldInfo.fields.entries);
      }
      return Component("dynamiclist", Some(fieldName), caption,
                       Some("List of " + FormatLabel(ListedType(fieldInfo))), None, Children(components));
    }
    if fieldInfo.primitive == Some(true) {
      return Component(PrimitiveKind(fieldInfo.typeName), Some(fieldName), caption, None,
                       Some(Required(fieldInfo)), NoChildren);
    }
    if fieldInfo.fields.Fields? {
      var components := GenerateFieldComponents(fieldInfo.fields.entries);
      return Component("group", Some(fieldName), caption, None, None, Children(components));
    }
    return Component("textfield", Some(fieldName), caption, None, Some(Required(fieldInfo)), NoChildren);
  }

  /** Lines 110-118: the loop over `Object.entries(fields)`. */
  method GenerateFieldComponents(fields: seq<Entry<FieldSpec>>) returns (components: seq<Component>)
    ensures components == FieldComponents(fields)
    decreases fields
  {
    components := [];
    for i := 0 to |fields|
      invariant components == FieldComponents(fields[..i])
    {
      assert fields[..i + 1][..i] == fields[..i];
      var c := MapTypeToFormComponent(fields[i].key, fields[i].value);
      components := components + [c];
    }
    assert fields[..|fields|] == fields;
  }

  /** A list or group has one child per sub-field, in the order of the sub-fields. */
  lemma ComponentChildren(name: string, spec: FieldSpec, i: nat)
    requires spec.fields.Fields? && (spec.isCollection || spec.primitive != Some(true))
    requires i < |spec.fields.entries|
    ensures var c := ComponentFor(name, spec);
            c.components.Children? && |c.components.items| == |spec.fields.entries|
            && c.components.items[i] == ComponentFor(spec.fields.entries[i].key, spec.fields.entries[i].value)
  {
    FieldComponentsAt(spec.fields.entries, i);
  }

  /** What `formatLabel(null)` throws when the schema names no benefit. */
  const NullBenefit := "Cannot read properties of null (reading 'toLowerCase')"

  /** The fields of the situation group: the situation fields but the auto-populated two. */
  function SituationFormFields(situation: seq<Entry<FieldSpec>>): seq<Entry<FieldSpec>> {
    Remove(Remove(situation, "primaryPersonId"), "evaluationDate")
  }

  /** The person group, present only when there are person fields. */
  function PersonGroup(schema: Schema): seq<Component> {
    if schema.person != [] then
      [Component("group", Some("person"), "Personal Information", None, None, Children(FieldComponents(schema.person)))]
    else []
  }

  /** The situation group, present only when fields remain after the auto-populated two are dropped. */
  function SituationGroup(schema: Schema): seq<Component> {
    var rest := SituationFormFields(schema.situation);
    if schema.situation != [] && rest != [] then
      [Component("group", Some("situation"), "Additional Information", None, None, Children(FieldComponents(rest)))]
    else []
  }

  /** `generateFormSchema(inputSchema)`, or the error it throws. */
  function FormOf(schema: Schema): Result<Form, string> {
    match schema.benefit
    case None => Err(NullBenefit)
    case Some(benefit) =>
      var title := FormatLabel(benefit);
      Ok(Form("default", benefit + "Form", title, "Eligibility screening form for " + title,
              PersonGroup(schema) + SituationGroup(schema), 9))
  }

  /** Lines 123-164. */
  method GenerateFormSchema(inputSchema: Schema) returns (r: Result<Form, string>)
    ensures r == FormOf(inputSchema)
  {
    var components := [];
    if inputSchema.person != [] {
      var personComponents := GenerateFieldComponents(inputSchema.person);
      components := components + [Component("group", Some("person"), "Personal Information", None, None,
                                            Children(personComponents))];
    }
    assert components == PersonGroup(inputSchema);
    if inputSchema.situation != [] {
      var situationFields := inputSchema.situation;
      situationFields := Remove(situationFields, "primaryPersonId");
      situationFields := Remove(situationFields, "evaluationDate");
      if situationFields != [] {
        var situationComponents := GenerateFieldComponents(situationFields);
        components := components + [Component("group", Some("situation"), "Additional Information", None, None,
                                              Children(situationComponents))];
      }
    }
    assert components == PersonGroup(inputSchema) + SituationGroup(inputSchema);
    if inputSchema.benefit.None? {
      return Err(NullBenefit);
    }
    var benefit := inputSchema.benefit.value;
    var title := FormatLabel(benefit);
    r := Ok(Form("default", benefit + "Form", title, "Eligibility screening form for " + title, components, 9));
  }

  /**
   * The form exists exactly when a benefit is named; it is then the
   * `default` form `<benefit>Form`, schema version 9, holding the person
   * group first when there are person fields, and the situation group last
   * exactly when situation fields remain once `primaryPersonId` and
   * `evaluationDate` are dropped.
   */
  lemma FormShape(schema: Schema)
    ensures FormOf(schema).Ok? <==> schema.benefit.Some?
    ensures FormOf(schema).Ok? ==>
              var f := FormOf(schema).value;
              f.id == schema.benefit.value + "Form" && f.schemaVersion == 9 && f.kind == "default"
              && f.title == FormatLabel(schema.benefit.value)
              && f.description == "Eligibility screening form for " + f.title
    ensures FormOf(schema).Ok? ==>
              var f := FormOf(schema).value;
              var rest := SituationFormFields(schema.situation);
              && |f.components| == (if schema.person != [] then 1 else 0) + (if rest != [] then 1 else 0)
              && (schema.person != [] <==> |f.components| > 0 && f.components[0].id == Some("person"))
              && (schema.person != [] ==>
                    f.components[0] == Component("group", Some("person"), "Personal Information", None, None,
                                                 Children(FieldComponents(schema.person))))
              && (rest != [] <==> |f.components| > 0 && f.components[|f.components| - 1].id == Some("situation"))
              && (rest != [] ==>
                    f.components[|f.components| - 1]
                    == Component("group", Some("situation"), "Additional Information", None, None,
                                 Children(FieldComponents(rest))))
  {
    if schema.situation == [] {
      assert SituationFormFields(schema.situation) == [];
    }
  }

  /** The component at position `i` is the one for the `i`-th field. */
  lemma {:induction false} FieldComponentsAt(fields: seq<Entry<FieldSpec>>, i: nat)
    requires i < |fields|
    ensures FieldComponents(fields)[i] == ComponentFor(fields[i].key, fields[i].value)
    ensures FieldComponents(fields)[i].id == Some(fields[i].key)
    decreases |fields|
  {
    if i < |fields| - 1 {
      FieldComponentsAt(fields[..|fields| - 1], i);
    }
  }

  /** No component of the situation group is for `primaryPersonId` or `evaluationDate`. */
  lemma SituationGroupOmitsAutoFields(schema: Schema, i: nat)
    requires i < |SituationFormFields(schema.situation)|
    ensures FieldComponents(SituationFormFields(schema.situation))[i].id
              !in {Some("primaryPersonId"), Some("evaluationDate")}
  {
    var once := Remove(schema.situation, "primaryPersonId");
    var rest := Remove(once, "evaluationDate");
    FieldComponentsAt(rest, i);
    var k := rest[i].key;
    assert Keys(rest)[i] == k;
    assert k in Elems(Keys(rest));
    assert Keys(rest) == KeysWithout(Keys(once), "evaluationDate");
    assert k in Elems(Keys(once)) && k != "evaluationDate";
    assert Keys(once) == KeysWithout(Keys(schema.situation), "primaryPersonId");
    assert k != "primaryPersonId";
  }

  /** Every situation field but the auto-populated two is kept for the situation group. */
  lemma SituationGroupFields(schema: Schema, k: string)
    ensures k in Keys(SituationFormFields(schema.situation)) <==>
            k in Keys(schema.situation) && k != "primaryPersonId" && k != "evaluationDate"
  {
    var once := Remove(schema.situation, "primaryPersonId");
    var rest := Remove(once, "evaluationDate");
    assert Keys(rest) == KeysWithout(Keys(once), "evaluationDate");
    assert Keys(once) == KeysWithout(Keys(schema.situation), "primaryPersonId");
    assert k in Keys(rest) <==> k in Elems(Keys(rest));
    assert k in Keys(once) <==> k in Elems(Keys(once));
    assert k in Keys(schema.situation) <==> k in Elems(Keys(schema.situation));
  }

  /** The person group has one component per person field, in the order of the fields. */
  lemma PersonGroupFields(schema: Schema, i: nat)
    requires i < |schema.person|
    ensures |PersonGroup(schema)| == 1
    ensures var items := PersonGroup(schema)[0].components.items;
            |items| == |schema.person| && items[i] == ComponentFor(schema.person[i].key, schema.person[i].value)
  {
    FieldComponentsAt(schema.person, i);
  }

  /** The help texts of `addFieldDescriptions`, by component id. */
  const Descriptions: map<string, string> := map[
    "dateOfBirth" := "Your date of birth (MM/DD/YYYY)",
    "isBlindOrDisabled" := "Check if you are blind or have a qualifying disability",
    "citizenshipStatus" := "Your citizenship or immigration status",
    "residenceState" := "The state where you currently reside",
    "countableResources" := "Total value of your countable resources (savings, property, etc.)",
    "incomeSources" := "All sources of income (earned and unearned)",
    "monthlyAmount" := "Monthly income amount in dollars",
    "refugeeAdmissionDate" := "Date you were admitted as a refugee",
    "asylumGrantDate" := "Date you were granted asylum"]

  predicate HasHelp(c: Component) {
    c.id.Some? && c.id.value in Descriptions
  }

  /** One component after the pass, with its children done too. */
  function Described(c: Component): (r: Component)
    ensures r.kind == c.kind && r.id == c.id && r.labelText == c.labelText && r.validate == c.validate
    ensures r.components.Children? <==> c.components.Children?
    ensures HasHelp(c) ==> r.description == Some(Descriptions[c.id.value])
    ensures !HasHelp(c) ==> r.description == c.description
  {
    c.(description := if HasHelp(c) then Some(Descriptions[c.id.value]) else c.description,
       components := if c.components.Children? then Children(DescribedAll(c.components.items)) else NoChildren)
  }

  /** A run of components after the pass. */
  function DescribedAll(cs: seq<Component>): (r: seq<Component>)
    ensures |r| == |cs|
    ensures forall i :: 0 <= i < |cs| ==> r[i] == Described(cs[i])
  {
    if cs == [] then [] else [Described(cs[0])] + DescribedAll(cs[1..])
  }

  /** Lines 183-190: the loop of `addDescriptionsRecursive`. */
  method AddDescriptionsRecursive(components: seq<Component>) returns (r: seq<Component>)
    ensures r == DescribedAll(components)
  {
    r := [];
    for i := 0 to |components|
      invariant |r| == i
      invariant forall k :: 0 <= k < i ==> r[k] == Described(components[k])
    {
      var c := AddDescription(components[i]);
      r := r + [c];
    }
  }

  /** The body of that loop for one component. */
  method AddDescription(component: Component) returns (c: Component)
    ensures c == Described(component)
  {
    c := component;
    if c.id.Some? && c.id.value in Descriptions {
      c := c.(description := Some(Descriptions[c.id.value]));
    }
    if c.components.Children? {
      var children := AddDescriptionsRecursive(c.components.items);
      c := c.(components := Children(children));
    }
  }

  /** `addFieldDescriptions(schema)`. */
  method AddFieldDescriptions(form: Form) returns (r: Form)
    ensures r == form.(components := DescribedAll(form.components))
  {
    var components := AddDescriptionsRecursive(form.components);
    r := form.(components := components);
  }

  /** Every component at every depth that has a help text carries it. */
  predicate AllHelped(cs: seq<Component>) {
    forall i :: 0 <= i < |cs| ==> Helped(cs[i])
  }

  predicate Helped(c: Component) {
    (HasHelp(c) ==> c.description == Some(Descriptions[c.id.value]))
    && (c.components.Children? ==> AllHelped(c.components.items))
  }

  lemma {:induction false} DescribedHelped(c: Component)
    ensures Helped(Described(c))
  {
    if c.components.Children? {
      DescribedAllHelped(c.components.items);
    }
  }

  /** After the pass every known field, however deeply nested, has its help text. */
  lemma {:induction false} DescribedAllHelped(cs: seq<Component>)
    ensures AllHelped(DescribedAll(cs))
  {
    forall i | 0 <= i < |cs|
      ensures Helped(DescribedAll(cs)[i])
    {
      DescribedHelped(cs[i]);
    }
  }

  lemma {:induction false} DescribedIdempotent(c: Component)
    ensures Described(Described(c)) == Described(c)
  {
    if c.components.Children? {
      DescribedAllIdempotent(c.components.items);
    }
  }

  /** Running the pass twice gives what running it once gives. */
  lemma {:induction false} DescribedAllIdempotent(cs: seq<Component>)
    ensures DescribedAll(DescribedAll(cs)) == DescribedAll(cs)
  {
    forall i | 0 <= i < |cs|
      ensures DescribedAll(DescribedAll(cs))[i] == DescribedAll(cs)[i]
    {
      DescribedIdempotent(cs[i]);
    }
  }

  /** The component with every description removed, at every depth. */
  function Bare(c: Component): Component {
    c.(description := None, components := if c.components.Children? then Children(BareAll(c.components.items)) else NoChildren)
  }

  function BareAll(cs: seq<Component>): (r: seq<Component>)
    ensures |r| == |cs| && forall i :: 0 <= i < |cs| ==> r[i] == Bare(cs[i])
  {
    if cs == [] then [] else [Bare(cs[0])] + BareAll(cs[1..])
  }

  lemma {:induction false} DescribedBare(c: Component)
    ensures Bare(Described(c)) == Bare(c)
  {
    if c.components.Children? {
      DescribedAllBare(c.components.items);
    }
  }

  /** The pass changes descriptions and nothing else. */
  lemma {:induction false} DescribedAllBare(cs: seq<Component>)
    ensures BareAll(DescribedAll(cs)) == BareAll(cs)
  {
    forall i | 0 <= i < |cs|
      ensures BareAll(DescribedAll(cs))[i] == BareAll(cs)[i]
    {
      DescribedBare(cs[i]);
    }
  }
}
