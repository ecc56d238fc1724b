/**
 * Form.js form definitions as the generator writes them and the validator
 * reads them.  A key the JSON object lacks is None; `kind` is `type`,
 * `labelText` is `label` and `validate` stands for `validate: {required}`.
 */
module FormJs {
  import opened Wrappers

  datatype Component = Component(
    kind: string,
    id: Option<string>,
    labelText: string,
    description: Option<string>,
    validate: Option<bool>,
    components: Children)

  /** The `components` array of a component, or its absence. */
  datatype Children = NoChildren | Children(items: seq<Component>)

  /** The top-level form: `{type, id, title, description, components, schemaVersion}`. */
  datatype Form = Form(
    kind: string,
    id: string,
    title: string,
    description: string,
    components: seq<Component>,
    schemaVersion: nat)
}
