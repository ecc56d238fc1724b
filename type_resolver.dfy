/**
 * `type-resolver.js`: the type of a person or situation field looked up in
 * the item definitions of the BDT document, expanded one level.
 */
module TypeResolver {
  import opened Wrappers
  import opened Text
  import opened Ordered
  import opened Dmn

  /** One entry of `resolveTypeFields`: exactly `{type, isCollection, primitive}`. */
  datatype ComponentType = ComponentType(typeName: string, isCollection: bool, primitive: bool)

  /**
   * What `resolveType` and `resolveComplexType` return.  `primitive`,
   * `itemType` and `fields` are None where the returned object has no such
   * key.
   */
  datatype TypeInfo = TypeInfo(
    typeName: string,
    isCollection: bool,
    primitive: Option<bool>,
    itemType: Option<string>,
    fields: Option<seq<Entry<ComponentType>>>)

  /** The four FEEL types the resolver treats as primitive. */
  predicate IsPrimitive(t: string) {
    t == "date" || t == "number" || t == "string" || t == "boolean"
  }

  /** An `isCollection` attribute counts only when it is literally `true`. */
  predicate CollectionFlag(attribute: string) {
    attribute == "true"
  }

  /** `//dmn:itemDefinition[@name='name']`, first match in document order. */
  function FindDefinition(defs: seq<ItemDef>, name: string): (r: Option<ItemDef>)
    ensures r.None? <==> forall i :: 0 <= i < |defs| ==> defs[i].name != name
    ensures r.Some? ==> r.value in defs && r.value.name == name
  {
    if defs == [] then None
    else if defs[0].name == name then Some(defs[0])
    else FindDefinition(defs[1..], name)
  }

  /** The first definition with the given name has no earlier namesake. */
  lemma {:induction false} FindDefinitionFirst(defs: seq<ItemDef>, name: string, i: nat)
    requires i < |defs| && defs[i].name == name
    requires forall j :: 0 <= j < i ==> defs[j].name != name
    ensures FindDefinition(defs, name) == Some(defs[i])
    decreases i
  {
    if i > 0 {
      FindDefinitionFirst(defs[1..], name, i - 1);
    }
  }

  /** `.//dmn:itemComponent` under an element with these children: all descendants, in document order. */
  function Descendants(components: seq<ItemDef>): (r: seq<ItemDef>)
    ensures |components| > 0 ==> |r| > 0 && r[0] == components[0]
    ensures forall c :: c in components ==> c in r
  {
    if components == [] then []
    else
      var first := components[0];
      var rest := Descendants(components[1..]);
      assert forall c :: c in components ==> c == first || c in components[1..];
      [first] + Descendants(first.components) + rest
  }

  /** `.//dmn:itemComponent[@name='name']`: the first descendant with that name. */
  function FindNamed(cs: seq<ItemDef>, name: string): (r: Option<ItemDef>)
    ensures r.None? <==> forall i :: 0 <= i < |cs| ==> cs[i].name != name
    ensures r.Some? ==> r.value in cs && r.value.name == name
  {
    if cs == [] then None
    else if cs[0].name == name then Some(cs[0])
    else FindNamed(cs[1..], name)
  }

  /** The entry `resolveTypeFields` stores for a component with a type reference. */
  function ComponentTypeOf(c: ItemDef, typeRef: string): (t: ComponentType)
    ensures t.typeName == Trim(typeRef)
    ensures t.isCollection <==> c.isCollection == "true"
    ensures t.primitive <==> IsPrimitive(Trim(typeRef))
  {
    var t := Trim(typeRef);
    ComponentType(t, CollectionFlag(c.isCollection), IsPrimitive(t))
  }

  /** The field map filled from `fields` by the loop over the components. */
  function AddComponents(fields: seq<Entry<ComponentType>>, cs: seq<ItemDef>): seq<Entry<ComponentType>> {
    if cs == [] then fields
    else
      var m := AddComponents(fields, cs[..|cs| - 1]);
      var c := cs[|cs| - 1];
      match c.typeRef
      case None => m
      case Some(tr) => Put(m, c.name, ComponentTypeOf(c, tr))
  }

  /** `resolveTypeFields(typeName, bdtDoc)`, as a value. */
  function TypeFields(doc: Document, typeName: string): seq<Entry<ComponentType>> {
    match FindDefinition(doc.itemDefinitions, typeName)
    case None => []
    case Some(def) => AddComponents([], Descendants(def.components))
  }

  /** `resolveTypeFields(typeName, bdtDoc)`: one entry per typed descendant, by name. */
  method ResolveTypeFields(doc: Document, typeName: string) returns (fields: seq<Entry<ComponentType>>)
    ensures fields == TypeFields(doc, typeName)
  {
    var typeDef := FindDefinition(doc.itemDefinitions, typeName);
    if typeDef.None? {
      return [];
    }
    fields := [];
    var fieldComponents := Descendants(typeDef.value.components);
    for i := 0 to |fieldComponents|
      invariant fields == AddComponents([], fieldComponents[..i])
    {
      assert fieldComponents[..i + 1][..i] == fieldComponents[..i];
      var fieldComponent := fieldComponents[i];
      var typeRefNode := fieldComponent.typeRef;
      if typeRefNode.None? {
        continue;
      }
      var typeRef := Trim(typeRefNode.value);
      var isCollection := fieldComponent.isCollection == "true";
      if typeRef == "date" || typeRef == "number" || typeRef == "string" || typeRef == "boolean" {
        fields := Put(fields, fieldComponent.name, ComponentType(typeRef, isCollection, true));
      } else {
        fields := Put(fields, fieldComponent.name, ComponentType(typeRef, isCollection, false));
      }
    }
    assert fieldComponents[..|fieldComponents|] == fieldComponents;
  }

  /** The last component with that name and a type reference: the one whose entry survives. */
  function LastTyped(cs: seq<ItemDef>, name: string): (r: Option<ItemDef>)
    ensures r.Some? ==> r.value in cs && r.value.name == name && r.value.typeRef.Some?
    ensures r.None? <==> forall i :: 0 <= i < |cs| ==> cs[i].name != name || cs[i].typeRef.None?
  {
    if cs == [] then None
    else
      var c := cs[|cs| - 1];
      if c.name == name && c.typeRef.Some? then Some(c)
      else
        var r := LastTyped(cs[..|cs| - 1], name);
        assert forall i :: 0 <= i < |cs| - 1 ==> cs[..|cs| - 1][i] == cs[i];
        r
  }

  /**
   * Later components overwrite earlier ones of the same name, and components
   * without a type reference are skipped: a name maps to the entry of its last
   * typed component, and is absent when it has none.
   */
  lemma {:induction false} AddComponentsGet(cs: seq<ItemDef>, name: string)
    ensures Get(AddComponents([], cs), name) ==
            match LastTyped(cs, name)
            case None => None
            case Some(c) => Some(ComponentTypeOf(c, c.typeRef.value))
    decreases |cs|
  {
    if cs != [] {
      AddComponentsGet(cs[..|cs| - 1], name);
    }
  }

  /** An undeclared type has no fields; a declared one has the fields of its descendants. */
  lemma TypeFieldsGet(doc: Document, typeName: string, name: string)
    ensures FindDefinition(doc.itemDefinitions, typeName).None? ==> TypeFields(doc, typeName) == []
    ensures FindDefinition(doc.itemDefinitions, typeName).Some? ==>
            Get(TypeFields(doc, typeName), name) ==
            match LastTyped(Descendants(FindDefinition(doc.itemDefinitions, typeName).value.components), name)
            case None => None
            case Some(c) => Some(ComponentTypeOf(c, c.typeRef.value))
  {
    var def := FindDefinition(doc.itemDefinitions, typeName);
    if def.Some? {
      AddComponentsGet(Descendants(def.value.components), name);
    }
  }

  /** `resolveComplexType(typeName, bdtDoc, isCollection)`. */
  function ResolveComplexType(doc: Document, typeName: string, isCollection: bool): (r: TypeInfo)
    ensures r.typeName == typeName
    ensures r.fields.Some?
    ensures r.primitive.None? <==> r.itemType.Some?
    ensures r.primitive.None? <==> FindDefinition(doc.itemDefinitions, typeName).Some?
                                   && CollectionFlag(FindDefinition(doc.itemDefinitions, typeName).value.isCollection)
                                   && FindDefinition(doc.itemDefinitions, typeName).value.typeRef.Some?
    ensures r.primitive.Some? ==> r.primitive == Some(false) && r.isCollection == isCollection
    ensures r.primitive.None? ==> r.isCollection
    ensures r.itemType.Some? ==>
              r.itemType == Some(Trim(FindDefinition(doc.itemDefinitions, typeName).value.typeRef.value))
  {
    match FindDefinition(doc.itemDefinitions, typeName)
    case None => TypeInfo(typeName, isCollection, Some(false), None, Some([]))
    case Some(typeDef) =>
      if CollectionFlag(typeDef.isCollection) && typeDef.typeRef.Some? then
        var itemTypeName := Trim(typeDef.typeRef.value);
        TypeInfo(typeName, true, None, Some(itemTypeName), Some(TypeFields(doc, itemTypeName)))
      else
        TypeInfo(typeName, isCollection, Some(false), None, Some(TypeFields(doc, typeName)))
  }

  /** The three shapes of `resolveComplexType`, with their fields. */
  lemma ComplexTypeShapes(doc: Document, typeName: string, isCollection: bool)
    ensures var def := FindDefinition(doc.itemDefinitions, typeName);
            def.Some? && CollectionFlag(def.value.isCollection) && def.value.typeRef.Some? ==>
            var item := Trim(def.value.typeRef.value);
            ResolveComplexType(doc, typeName, isCollection) == TypeInfo(typeName, true, None, Some(item), Some(TypeFields(doc, item)))
    ensures var def := FindDefinition(doc.itemDefinitions, typeName);
            def.Some? && !(CollectionFlag(def.value.isCollection) && def.value.typeRef.Some?) ==>
            ResolveComplexType(doc, typeName, isCollection) == TypeInfo(typeName, isCollection, Some(false), None, Some(TypeFields(doc, typeName)))
    ensures FindDefinition(doc.itemDefinitions, typeName).None? ==>
            ResolveComplexType(doc, typeName, isCollection) == TypeInfo(typeName, isCollection, Some(false), None, Some([]))
    ensures ResolveComplexType(doc, typeName, isCollection).itemType.Some? ==>
            var item := ResolveComplexType(doc, typeName, isCollection).itemType.value;
            ResolveComplexType(doc, typeName, isCollection).fields == Some(TypeFields(doc, item))
    ensures ResolveComplexType(doc, typeName, isCollection).itemType.None? ==>
            ResolveComplexType(doc, typeName, isCollection).fields == Some(TypeFields(doc, typeName))
  {
  }

  /** `resolveType(fieldName, bdtDoc, parentType)`; None is `null`. */
  function ResolveType(doc: Document, fieldName: string, parentType: string): (r: Option<TypeInfo>)
    ensures r.Some? ==> FindDefinition(doc.itemDefinitions, parentType).Some?
    ensures r.Some? ==> (r.value.primitive == Some(true) <==> IsPrimitive(r.value.typeName))
    ensures r.Some? ==> (r.value.fields.None? <==> r.value.primitive == Some(true))
    ensures r.Some? ==> (r.value.itemType.Some? <==> r.value.primitive.None?)
  {
    match FindDefinition(doc.itemDefinitions, parentType)
    case None => None
    case Some(parentTypeDef) =>
      match FindNamed(Descendants(parentTypeDef.components), fieldName)
      case None => None
      case Some(fieldComponent) =>
        match fieldComponent.typeRef
        case None => None
        case Some(raw) =>
          var typeRef := Trim(raw);
          var isCollection := CollectionFlag(fieldComponent.isCollection);
          if IsPrimitive(typeRef) then Some(TypeInfo(typeRef, isCollection, Some(true), None, None))
          else Some(ResolveComplexType(doc, typeRef, isCollection))
  }

  /** `null` when the parent type is undeclared, the field is not under it, or it has no type reference. */
  lemma ResolveTypeNull(doc: Document, fieldName: string, parentType: string)
    ensures ResolveType(doc, fieldName, parentType).None? <==>
            match FindDefinition(doc.itemDefinitions, parentType)
            case None => true
            case Some(parent) =>
              match FindNamed(Descendants(parent.components), fieldName)
              case None => true
              case Some(c) => c.typeRef.None?
  {
  }

  /** A field declared with a primitive type reference resolves to `{type, isCollection, primitive: true}`. */
  lemma ResolvePrimitive(doc: Document, fieldName: string, parentType: string, parent: ItemDef, c: ItemDef)
    requires FindDefinition(doc.itemDefinitions, parentType) == Some(parent)
    requires FindNamed(Descendants(parent.components), fieldName) == Some(c)
    requires c.typeRef.Some? && IsPrimitive(Trim(c.typeRef.value))
    ensures ResolveType(doc, fieldName, parentType) ==
            Some(TypeInfo(Trim(c.typeRef.value), c.isCollection == "true", Some(true), None, None))
  {
  }

  /**
   * The expansion is one level deep: a resolved field's `fields` entries
   * carry only `type`, `isCollection` and `primitive`, and its name is the
   * trimmed type reference of the field's component.
   */
  lemma ResolveTypeOneLevel(doc: Document, fieldName: string, parentType: string, parent: ItemDef, c: ItemDef)
    requires FindDefinition(doc.itemDefinitions, parentType) == Some(parent)
    requires FindNamed(Descendants(parent.components), fieldName) == Some(c)
    requires c.typeRef.Some? && !IsPrimitive(Trim(c.typeRef.value))
    ensures ResolveType(doc, fieldName, parentType) ==
            Some(ResolveComplexType(doc, Trim(c.typeRef.value), c.isCollection == "true"))
    ensures ResolveType(doc, fieldName, parentType).value.typeName == Trim(c.typeRef.value)
  {
  }

  /** `getAllTypes(bdtDoc)`, as a value: every named definition maps to its name. */
  function AllTypes(defs: seq<ItemDef>): seq<Entry<string>> {
    if defs == [] then []
    else
      var m := AllTypes(defs[..|defs| - 1]);
      var name := defs[|defs| - 1].name;
      if name != "" then Put(m, name, name) else m
  }

  /** `getAllTypes(bdtDoc)`. */
  method GetAllTypes(doc: Document) returns (types: seq<Entry<string>>)
    ensures types == AllTypes(doc.itemDefinitions)
  {
    var typeDefs := doc.itemDefinitions;
    types := [];
    for i := 0 to |typeDefs|
      invariant types == AllTypes(typeDefs[..i])
    {
      assert typeDefs[..i + 1][..i] == typeDefs[..i];
      var typeName := typeDefs[i].name;
      if typeName != "" {
        types := Put(types, typeName, typeName);
      }
    }
    assert typeDefs[..|typeDefs|] == typeDefs;
  }

  /** Some definition of `defs` has the name `name`. */
  predicate Defines(defs: seq<ItemDef>, name: string) {
    exists i :: 0 <= i < |defs| && defs[i].name == name
  }

  lemma DefinesInit(defs: seq<ItemDef>, name: string)
    requires defs != []
    ensures Defines(defs, name) <==> Defines(defs[..|defs| - 1], name) || defs[|defs| - 1].name == name
  {
    var init := defs[..|defs| - 1];
    if Defines(defs, name) {
      var i :| 0 <= i < |defs| && defs[i].name == name;
      if i < |defs| - 1 {
        assert init[i] == defs[i];
      }
    }
    if Defines(init, name) {
      var i :| 0 <= i < |init| && init[i].name == name;
      assert defs[i] == init[i];
    }
  }

  /** A name is in the type map exactly when some definition has it, and it maps to itself. */
  lemma {:induction false} AllTypesGet(defs: seq<ItemDef>, name: string)
    ensures Get(AllTypes(defs), name) ==
            if name != "" && exists i :: 0 <= i < |defs| && defs[i].name == name then Some(name) else None
    decreases |defs|
  {
    if defs != [] {
      var init := defs[..|defs| - 1];
      var last := defs[|defs| - 1].name;
      AllTypesGet(init, name);
      DefinesInit(defs, name);
      var m := AllTypes(init);
      if last != "" {
        assert AllTypes(defs) == Put(m, last, last);
        if name == last {
          assert Get(AllTypes(defs), name) == Some(name);
        } else {
          assert Get(AllTypes(defs), name) == Get(m, name);
        }
      } else {
        assert AllTypes(defs) == m;
      }
    }
  }
}
