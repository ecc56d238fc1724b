/**
 * A parsed DMN document, reduced to what the derivation pipeline reads from
 * it: the elements of the DMN 1.2 model namespace, in document order.
 * Attributes that are absent read as "" (the DOM's `getAttribute`).
 */
module Dmn {
  import opened Wrappers

  /**
   * An `itemDefinition` or `itemComponent` element: its `name` and
   * `isCollection` attributes, the text of the first `typeRef` child (None
   * when there is none) and its `itemComponent` children.
   */
  datatype ItemDef = ItemDef(
    name: string,
    isCollection: string,
    typeRef: Option<string>,
    components: seq<ItemDef>)

  /** A `definitions` element: its `name` and `namespace` attributes. */
  datatype Definitions = Definitions(name: string, namespace: string)

  /** An `import` element: its `locationURI` attribute. */
  datatype Import = Import(locationUri: string)

  /**
   * The `definitions`, `import` and `itemDefinition` elements of a document,
   * and the character data of its `text` elements.
   */
  datatype Document = Document(
    definitions: seq<Definitions>,
    imports: seq<Import>,
    texts: seq<string>,
    itemDefinitions: seq<ItemDef>)
}
