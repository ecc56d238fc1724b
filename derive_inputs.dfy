/**
 * The schema-assembly step of `derive-inputs`: find the BDT document among
 * the imported files, resolve each referenced field against `tPerson` or
 * `tSituation`, and build the input schema with its metadata counts.
 */
module DeriveInputs {
  import opened Wrappers
  import opened Text
  import opened Ordered
  import opened Paths
  import opened Dmn
  import opened TypeResolver
  import opened FeelExtractor
  import opened InputSchema
  import DmnParser

  const BdtMissing := "BDT.dmn not found in imported files. Cannot resolve types."

  /** `allDmnFiles.find(file => file.includes('BDT.dmn'))`, or the error the run fails with. */
  function FindBdtPath(files: seq<Path>): (r: Result<Path, string>)
    ensures r.Err? <==> forall i :: 0 <= i < |files| ==> !Contains(Str(files[i]), "BDT.dmn")
    ensures r.Err? ==> r.error == BdtMissing
    ensures r.Ok? ==> exists i :: 0 <= i < |files| && files[i] == r.value
                        && Contains(Str(r.value), "BDT.dmn")
                        && forall j :: 0 <= j < i ==> !Contains(Str(files[j]), "BDT.dmn")
  {
    if files == [] then Err(BdtMissing)
    else if Contains(Str(files[0]), "BDT.dmn") then Ok(files[0])
    else
      var r := FindBdtPath(files[1..]);
      if r.Ok? then
        var i :| 0 <= i < |files[1..]| && files[1..][i] == r.value
                 && forall j :: 0 <= j < i ==> !Contains(Str(files[1..][j]), "BDT.dmn");
        assert files[i + 1] == r.value;
        assert forall j :: 0 <= j < i + 1 ==> !Contains(Str(files[j]), "BDT.dmn") by {
          forall j | 0 <= j < i + 1 ensures !Contains(Str(files[j]), "BDT.dmn") {
            if j > 0 { assert files[j] == files[1..][j - 1]; }
          }
        }
        r
      else
        assert forall i :: 1 <= i < |files| ==> files[i] == files[1..][i - 1];
        r
  }

  /** An `itemType` is copied only when it is truthy, that is, present and not empty. */
  function Truthy(s: Option<string>): Option<string> {
    if s.Some? && s.value != "" then s else None
  }

  /** A `resolveTypeFields` entry as the schema carries it. */
  function ComponentSpec(t: ComponentType): FieldSpec {
    FieldSpec(t.typeName, None, t.isCollection, Some(t.primitive), None, NoFields)
  }

  /** The sub-field map: same keys in the same order, each entry a leaf. */
  function ComponentSpecs(m: seq<Entry<ComponentType>>): (r: seq<Entry<FieldSpec>>)
    ensures |r| == |m|
    ensures forall i :: 0 <= i < |m| ==> r[i] == Entry(m[i].key, ComponentSpec(m[i].value))
  {
    if m == [] then [] else [Entry(m[0].key, ComponentSpec(m[0].value))] + ComponentSpecs(m[1..])
  }

  /** The FieldSpec built from a non-null `resolveType` result. */
  function ToSpec(info: TypeInfo): (s: FieldSpec)
    ensures s.required == Some(false)
    ensures s.typeName == info.typeName && s.isCollection == info.isCollection
    ensures s.primitive == info.primitive
    ensures s.itemType.Some? <==> info.itemType.Some? && info.itemType.value != ""
    ensures s.itemType.Some? ==> s.itemType == info.itemType
    ensures s.fields.Fields? <==> info.fields.Some?
    ensures info.fields.Some? ==> s.fields == Fields(ComponentSpecs(info.fields.value))
  {
    FieldSpec(info.typeName, Some(false), info.isCollection, info.primitive, Truthy(info.itemType),
              if info.fields.Some? then Fields(ComponentSpecs(info.fields.value)) else NoFields)
  }

  /**
   * The field map one loop of the assembly builds from `names`, resolving
   * against `parentType`; `topLevelOnly` is the person loop's skip of nested
   * paths.
   */
  function FieldSpecs(bdt: Document, names: seq<string>, parentType: string, topLevelOnly: bool)
    : seq<Entry<FieldSpec>>
  {
    if names == [] then []
    else
      var m := FieldSpecs(bdt, names[..|names| - 1], parentType, topLevelOnly);
      var name := names[|names| - 1];
      if topLevelOnly && !IsTopLevel(name) then m
      else match ResolveType(bdt, name, parentType)
        case None => m
        case Some(info) => Put(m, name, ToSpec(info))
  }

  /**
   * The schema the assembly step writes, from the list of DMN files found,
   * the parsed benefit document and the referenced fields.
   */
  function Assembled(allDmnFiles: seq<Path>, benefitDoc: Document, refs: FieldRefs, bdt: Document,
                     generatedAt: string, sourceDmnFile: string): Schema
  {
    var person := FieldSpecs(bdt, refs.person, "tPerson", true);
    var situation := FieldSpecs(bdt, refs.situation, "tSituation", false);
    Schema(DmnParser.GetModelName(benefitDoc), "1.0.0", generatedAt, sourceDmnFile, person, situation,
           Metadata(|allDmnFiles|, |Keys(person)|, |Keys(situation)|))
  }

  lemma FieldSpecsSnoc(bdt: Document, names: seq<string>, name: string, parentType: string, topLevelOnly: bool)
    ensures FieldSpecs(bdt, names + [name], parentType, topLevelOnly) ==
            var m := FieldSpecs(bdt, names, parentType, topLevelOnly);
            if topLevelOnly && !IsTopLevel(name) then m
            else match ResolveType(bdt, name, parentType)
              case None => m
              case Some(info) => Put(m, name, ToSpec(info))
  {
    assert (names + [name])[..|names|] == names;
  }

  /**
   * One of the two resolution loops (lines 48-66 for the person fields, with
   * `topLevelOnly`, and lines 68-81 for the situation fields).
   */
  method ResolveFields(bdtDoc: Document, names: seq<string>, parentType: string, topLevelOnly: bool)
    returns (fields: seq<Entry<FieldSpec>>)
    ensures fields == FieldSpecs(bdtDoc, names, parentType, topLevelOnly)
  {
    fields := [];
    for i := 0 to |names|
      invariant fields == FieldSpecs(bdtDoc, names[..i], parentType, topLevelOnly)
    {
      var fieldName := names[i];
      assert names[..i + 1] == names[..i] + [fieldName];
      FieldSpecsSnoc(bdtDoc, names[..i], fieldName, parentType, topLevelOnly);
      if topLevelOnly && ('[' in fieldName || '.' in fieldName) {
        continue;
      }
      var typeInfo := ResolveType(bdtDoc, fieldName, parentType);
      if typeInfo.Some? {
        fields := Put(fields, fieldName, ToSpec(typeInfo.value));
      }
    }
    assert names[..|names|] == names;
  }

  /** Lines 48-104 of `derive-inputs`: the two resolution loops and the schema object. */
  method AssembleSchema(allDmnFiles: seq<Path>, benefitDoc: Document, refs: FieldRefs, bdtDoc: Document,
                        generatedAt: string, sourceDmnFile: string) returns (schema: Schema)
    ensures schema == Assembled(allDmnFiles, benefitDoc, refs, bdtDoc, generatedAt, sourceDmnFile)
  {
    var personFields := ResolveFields(bdtDoc, refs.person, "tPerson", true);
    var situationFields := ResolveFields(bdtDoc, refs.situation, "tSituation", false);
    var benefitName := DmnParser.GetModelName(benefitDoc);
    schema := Schema(benefitName, "1.0.0", generatedAt, sourceDmnFile, personFields, situationFields,
                     Metadata(|allDmnFiles|, |Keys(personFields)|, |Keys(situationFields)|));
  }

  /**
   * A field is in the map exactly when it was referenced, passes the nested
   * path filter where that applies, and resolves; its FieldSpec is then made
   * from its resolution.
   */
  lemma {:induction false} FieldSpecsGet(bdt: Document, names: seq<string>, parentType: string,
                                         topLevelOnly: bool, k: string)
    ensures Get(FieldSpecs(bdt, names, parentType, topLevelOnly), k) ==
            if k in names && (!topLevelOnly || IsTopLevel(k)) && ResolveType(bdt, k, parentType).Some?
            then Some(ToSpec(ResolveType(bdt, k, parentType).value))
            else None
    decreases |names|
  {
    if names != [] {
      var init := names[..|names| - 1];
      var last := names[|names| - 1];
      var m := FieldSpecs(bdt, init, parentType, topLevelOnly);
      FieldSpecsGet(bdt, init, parentType, topLevelOnly, k);
      InInitOrIsLast(names, k);
      if topLevelOnly && !IsTopLevel(last) {
        assert FieldSpecs(bdt, names, parentType, topLevelOnly) == m;
      } else if ResolveType(bdt, last, parentType).None? {
        assert FieldSpecs(bdt, names, parentType, topLevelOnly) == m;
      } else {
        var info := ResolveType(bdt, last, parentType).value;
        assert FieldSpecs(bdt, names, parentType, topLevelOnly) == Put(m, last, ToSpec(info));
      }
    }
  }

  lemma InInitOrIsLast<T>(s: seq<T>, x: T)
    requires |s| > 0
    ensures x in s <==> x in s[..|s| - 1] || x == s[|s| - 1]
  {
    if x in s[..|s| - 1] {
      InInit(s, x);
    } else if x in s && x != s[|s| - 1] {
      InInitOrLast(s, x);
    }
  }

  /** Every key of a field map came from the referenced names, once. */
  lemma {:induction false} FieldSpecsKeys(bdt: Document, names: seq<string>, parentType: string, topLevelOnly: bool)
    ensures UniqueKeys(FieldSpecs(bdt, names, parentType, topLevelOnly))
    ensures forall k :: k in Keys(FieldSpecs(bdt, names, parentType, topLevelOnly)) ==> k in names
    decreases |names|
  {
    if names != [] {
      var init := names[..|names| - 1];
      assert names == init + [names[|names| - 1]];
      FieldSpecsKeys(bdt, init, parentType, topLevelOnly);
    }
  }

  /**
   * The schema's person fields are top-level referenced person fields that
   * resolve against `tPerson`, and its situation fields are referenced
   * situation fields (nested paths included) that resolve against
   * `tSituation`; every emitted FieldSpec says `required: false`.
   */
  lemma SchemaFields(allDmnFiles: seq<Path>, benefitDoc: Document, refs: FieldRefs, bdt: Document,
                     generatedAt: string, sourceDmnFile: string, k: string)
    ensures var s := Assembled(allDmnFiles, benefitDoc, refs, bdt, generatedAt, sourceDmnFile);
            (k in Keys(s.person) <==> k in refs.person && IsTopLevel(k) && ResolveType(bdt, k, "tPerson").Some?)
            && (k in Keys(s.situation) <==> k in refs.situation && ResolveType(bdt, k, "tSituation").Some?)
    ensures var s := Assembled(allDmnFiles, benefitDoc, refs, bdt, generatedAt, sourceDmnFile);
            (Get(s.person, k).Some? ==> Get(s.person, k).value.required == Some(false))
            && (Get(s.situation, k).Some? ==> Get(s.situation, k).value.required == Some(false))
  {
    FieldSpecsGet(bdt, refs.person, "tPerson", true, k);
    FieldSpecsGet(bdt, refs.situation, "tSituation", false, k);
  }

  /**
   * The benefit is the benefit document's model name, absent exactly when it
   * has no `definitions`; the counts are the number of DMN files found and
   * the numbers of keys in the two maps.
   */
  lemma SchemaCounts(allDmnFiles: seq<Path>, benefitDoc: Document, refs: FieldRefs, bdt: Document,
                     generatedAt: string, sourceDmnFile: string)
    ensures var s := Assembled(allDmnFiles, benefitDoc, refs, bdt, generatedAt, sourceDmnFile);
            && (s.benefit.None? <==> benefitDoc.definitions == [])
            && (s.benefit.Some? ==> s.benefit.value == benefitDoc.definitions[0].name)
            && s.metadata.totalDmnFiles == |allDmnFiles|
            && s.metadata.personFieldCount == |s.person| && s.metadata.situationFieldCount == |s.situation|
  {
  }

  /** Sub-fields are leaves: no entry below a schema field has `fields` of its own. */
  lemma SchemaOneLevel(info: TypeInfo)
    ensures var s := ToSpec(info);
            s.fields.Fields? ==> forall i :: 0 <= i < |s.fields.entries| ==> s.fields.entries[i].value.fields.NoFields?
  {
  }
}
