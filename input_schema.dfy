/**
 * The input schema `derive-inputs` writes and the form, documentation and
 * validation generators read: for each person and situation field, its
 * type, flags and (one level of) sub-fields.  A key the JSON object lacks is
 * None.
 */
module InputSchema {
  import opened Wrappers
  import opened Ordered

  /** A FieldSpec: `{type, required, isCollection, primitive?, itemType?, fields?}`. */
  datatype FieldSpec = FieldSpec(
    typeName: string,
    required: Option<bool>,
    isCollection: bool,
    primitive: Option<bool>,
    itemType: Option<string>,
    fields: SubFields)

  /** The `fields` object of a FieldSpec, or its absence. */
  datatype SubFields = NoFields | Fields(entries: seq<Entry<FieldSpec>>)

  /** `_metadata`. */
  datatype Metadata = Metadata(totalDmnFiles: nat, personFieldCount: nat, situationFieldCount: nat)

  /** The whole schema; `requiredInputs.person` and `requiredInputs.situation` are `person` and `situation`. */
  datatype Schema = Schema(
    benefit: Option<string>,
    version: string,
    generatedAt: string,
    sourceDmnFile: string,
    person: seq<Entry<FieldSpec>>,
    situation: seq<Entry<FieldSpec>>,
    metadata: Metadata)

  /** `fieldInfo.required`, read as a truth value: only an explicit `true` counts. */
  function Required(spec: FieldSpec): bool {
    spec.required == Some(true)
  }

  /** `itemType || type`: the element type of a collection, when it is named. */
  function ListedType(spec: FieldSpec): string {
    if spec.itemType.Some? && spec.itemType.value != "" then spec.itemType.value else spec.typeName
  }
}
