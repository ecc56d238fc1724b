# Benefit screener core, modelled in Dafny

This project models the eligibility-screener toolchain in two halves.

The first half is the DMN input-derivation pipeline of `library-api`:
- it walks a benefit's DMN file and everything it imports;
- it scans every FEEL expression for `person.…`, `situation.people[…].…` and `situation.…` references;
- it resolves each referenced field against the item definitions of `BDT.dmn`;
- it assembles the input schema.

Three consumers of that schema are also modelled. One generates a Form.js form schema and attaches help texts. One checks that a form covers the schema. One writes the Markdown documentation of the inputs.

The second half is the SSI screener logic:
- `GapAnalyzer.ts` decides which persona fields are still missing, builds a
  situation from a persona, and computes ages.
- `ssiUtils.ts` maps form data to a situation, and an eligibility result to a
  screener result.
- On the Java side, `EvaluationResult` is the three-valued check result with its case-insensitive lookup.
- Also on the Java side, `DecisionResource` holds the benefit aggregation over a benefit's checks and the two authorisation tests.

Modules follow the source files:
- `Paths`, `Dmn`, `DmnParser` — `dmn-parser.js`;
- `FeelScan`, `FeelExtractor` — `feel-extractor.js`;
- `TypeResolver` — `type-resolver.js`;
- `DeriveInputs` — `derive-inputs.js`;
- `InputSchema`, `FormJs`, `FormGenerator`, `FormValidator`, `DocGenerator` — the schema, the form, and the three library modules;
- `JsValue`, `GapAnalyzer`, `SsiUtils` — the two TypeScript files;
- `Evaluation`, `DecisionResource` — the two Java files.

`Wrappers`, `Ordered` and `Text` are shared helpers:
- Option and Result types;
- insertion-ordered sets and maps, the way JavaScript `Set`s and objects keep keys;
- string helpers.

Loops in the source become methods with loop invariants. Each method is proved equal to a specification function. The properties the source promises are lemmas about those functions.

How the outside world is modelled:
- The filesystem is a map from absolute paths to file entries:
  - a parsed document;
  - malformed XML;
  - a file that cannot be read.
- A parsed DMN file is a record: its definitions, its imports, the text of its `dmn:text` elements and its item definitions.
- The clock (`new Date()`, the evaluation date, the documentation date) is a parameter.
- The date parser and `JSON.stringify` are parameters.
- The services a check is evaluated with are parameters: the model-path lookup in storage, the library service and the DMN engine. Each of them may fail, and the two evaluators may return null.

Two behaviours of the code are easy to misread:
- Pattern 2 of the FEEL extractor (`situation\.people\[.*?\]\.(…)`) is lazy, but a lazy `.*?` still backtracks. When the first `]` is not followed by `.` and a word character, the match runs on to a later `]` that is, as long as no line terminator comes first. `FeelScan.LazyClose` states this.
- The `catch` in `getAllImportedDMN` throws the very error it caught. A failure while parsing an imported file therefore reaches the caller exactly as the parser raised it. `DmnParser.WalkErrorOrigin` states this.

## Model

| member | source | states |
|---|---|---|
| DmnParser.Message | library-api/lib/dmn-parser.js:12-34 | a missing file, malformed XML and a read failure give messages that start with "DMN file not found", "Malformed XML" and "Failed to parse DMN file" |
| DmnParser.ParseDmnFile | library-api/lib/dmn-parser.js:12-34 | parsing succeeds exactly when the file exists and parses, and then yields its document; a missing file is NotFound; malformed XML is MalformedXml with the parser's detail |
| DmnParser.ParseErrorMessage | library-api/lib/dmn-parser.js:13-33 | a missing file reports "DMN file not found…"; an existing file that fails either mentions "Malformed XML" (rethrown as is) or is wrapped as "Failed to parse DMN file…" |
| DmnParser.ResourcesDir | library-api/lib/dmn-parser.js:91-99 | the resources directory is an ancestor of the base directory at most the maximum depth up; it is the nearest `resources` ancestor, or the root or the depth limit when there is none |
| DmnParser.FindResourcesDir | library-api/lib/dmn-parser.js:91-99 | the loop that climbs to the `resources` directory computes ResourcesDir |
| DmnParser.FirstExisting | library-api/lib/dmn-parser.js:55-65 | None exactly when no candidate exists; otherwise an existing path that is among the candidates |
| DmnParser.FindDmnFile | library-api/lib/dmn-parser.js:43-68 | the lookup tries the path resolved against the importing file's directory, then the basename under `resources/`, `resources/benefits/` and `resources/checks/`, in that order, and returns the first that exists |
| DmnParser.ImportTargets | library-api/lib/dmn-parser.js:107-125 | every import target exists, and there are no more targets than imports |
| DmnParser.Traverse | library-api/lib/dmn-parser.js:76-132 | an already visited file gives an empty walk with the visited set unchanged; a successful walk only grows the visited set |
| DmnParser.TraverseAll | library-api/lib/dmn-parser.js:107-125 | walking no imports leaves the walk empty; a successful walk only grows the visited set |
| DmnParser.GetAllImported | library-api/lib/dmn-parser.js:76-132 | the recursive method with its shared visited set returns exactly what Traverse describes, including its error |
| DmnParser.GetAllImportedDmn | library-api/lib/dmn-parser.js:76-78 | the entry point resolves the root against the working directory and starts with an empty visited set |
| DmnParser.VisitedSet.constructor | library-api/lib/dmn-parser.js:76 | a fresh visited set is empty |
| DmnParser.VisitedSet.Add | library-api/lib/dmn-parser.js:84 | adding a path adds exactly that path |
| DmnParser.WalkShape | library-api/lib/dmn-parser.js:80-99 | the returned files are exactly the newly visited ones, none twice, and the start file comes first |
| DmnParser.WalkParsed | library-api/lib/dmn-parser.js:88-99 | every returned file exists and parses |
| DmnParser.WalkErrorOrigin | library-api/lib/dmn-parser.js:128-131 | every error of a walk is the error that parsing some file raises, passed on unchanged |
| DmnParser.AllImportedErrors | library-api/lib/dmn-parser.js:12-34 | a missing or malformed root fails with its own error; any failure's message is one of the three forms |
| DmnParser.SecondWalkEmpty | library-api/lib/dmn-parser.js:80-82 | walking again from the visited set of a finished walk returns nothing |
| DmnParser.SkippedImport | library-api/lib/dmn-parser.js:109-120 | an import without a location, or one that cannot be found, changes nothing |
| DmnParser.WalkClosed | library-api/lib/dmn-parser.js:107-125 | a walk visits every import target of each file it returns |
| DmnParser.AllImportedClosed | library-api/lib/dmn-parser.js:76-132 | the result starts with the root, has no duplicates, holds only parsed files, and is closed under imports |
| DmnParser.CyclicImports | library-api/lib/dmn-parser.js:80-85 | an example: for two files `a.dmn` and `b.dmn` that import each other, the walk from `a.dmn` returns both, once each, and stops |
| DmnParser.GetModelName | library-api/lib/dmn-parser.js:139-148 | the name of the first `definitions` element, and None exactly when there is none |
| DmnParser.GetNamespace | library-api/lib/dmn-parser.js:155-164 | the namespace of the first `definitions` element, and None exactly when there is none |
| DmnParser.LocatedSibling | library-api/lib/dmn-parser.js:45-48 | an existing file named relative to the importing file is found there first |
| Paths.Resolve | library-api/lib/dmn-parser.js:45 | path resolution keeps paths normal: absolute, without `.`/`..` or empty segments |
| Paths.Dirname | library-api/lib/dmn-parser.js:95 | the directory is the path without its last segment, and only the root is its own directory |
| Paths.Basename | library-api/lib/dmn-parser.js:52 | the basename is the last non-empty `/`-separated segment, so it contains no `/`; it is empty exactly when every segment is |
| FeelScan.WordEnd | library-api/lib/feel-extractor.js:23 | `\w+` stops at the first non-word character, after word characters only |
| FeelScan.MatchAt | library-api/lib/feel-extractor.js:23-46 | a match exists exactly when the text at the position starts with the pattern's prefix followed by a word character (patterns 1 and 3) or by a lazy close (pattern 2); its capture then starts right there, or just after the close, and runs to the longest `\w+(?:\[\])?(?:\.\w+)*`, which no further `.` and word character can extend |
| FeelScan.LazyClose | library-api/lib/feel-extractor.js:35 | the lazy `.*?\]` closes at the first `]` followed by `.` and a word character, with no line terminator before it; there is no close exactly when the end of the text or a line terminator comes before any such `]` |
| FeelScan.FirstSegment | library-api/lib/feel-extractor.js:29 | the first-level field is the prefix of the path before the first `.` or `[` |
| FeelExtractor.WithoutPeople | library-api/lib/feel-extractor.js:51-53 | the situation captures keep exactly those that are not `people` or `people[…` |
| FeelExtractor.ExtractFieldReferences | library-api/lib/feel-extractor.js:8-66 | the extraction loop over all text fragments computes References |
| FeelExtractor.AddMatches | library-api/lib/feel-extractor.js:24-31 | the loop over one person pattern's matches adds each path and then its first segment (AddPaths) |
| FeelExtractor.AddSituationMatches | library-api/lib/feel-extractor.js:47-58 | the loop over the situation matches adds, for each path other than the people list, the path and its first segment |
| FeelExtractor.PersonFieldsElems | library-api/lib/feel-extractor.js:23-42 | a person field is reported exactly when pattern 1 or 2 captured it or a path whose first level it is |
| FeelExtractor.SituationFieldsElems | library-api/lib/feel-extractor.js:46-59 | a situation field is reported exactly when pattern 3 captured it, or a path whose first level it is, outside the people list |
| FeelExtractor.AddPathsNoDup | library-api/lib/feel-extractor.js:9-10 | the fields form a set: no field twice |
| FeelExtractor.NoPeopleListInSituation | library-api/lib/feel-extractor.js:51-53 | no situation field starts with `people[` |
| FeelExtractor.PeopleSegment | library-api/lib/feel-extractor.js:51-53 | a path other than the people list has first segment `people` exactly when it starts with `people.` |
| FeelExtractor.PeopleInSituation | library-api/lib/feel-extractor.js:46-59 | `people` is a situation field exactly when some text refers to `situation.people.` |
| FeelExtractor.NoTextNoReferences | library-api/lib/feel-extractor.js:18-60 | a document without FEEL text contributes no fields |
| FeelExtractor.ExtractFieldReferencesFromMultiple | library-api/lib/feel-extractor.js:73-88 | the merge loop computes Merged |
| FeelExtractor.AddEach | library-api/lib/feel-extractor.js:80-81 | copying one set into the merged set adds its fields in order |
| FeelExtractor.MergedElems | library-api/lib/feel-extractor.js:73-88 | a field is in the merge exactly when some document references it |
| FeelExtractor.MergeOrderIndependent | library-api/lib/feel-extractor.js:73-88 | documents in any order give the same set of fields |
| FeelExtractor.OrganizeFields | library-api/lib/feel-extractor.js:95-111 | the organising loop computes Organized |
| FeelExtractor.OrganizedKeys | library-api/lib/feel-extractor.js:95-111 | a field has an entry exactly when it is top-level (no `.` or `[`), and the entry names it |
| TypeResolver.FindDefinition | library-api/lib/type-resolver.js:16-19 | None exactly when no item definition has the name; otherwise a definition with that name |
| TypeResolver.FindDefinitionFirst | library-api/lib/type-resolver.js:16 | the first definition with the name is the one found |
| TypeResolver.Descendants | library-api/lib/type-resolver.js:22-27 | the search over descendant components includes every direct component, and the first first |
| TypeResolver.ComponentTypeOf | library-api/lib/type-resolver.js:129-146 | a sub-field carries the trimmed type reference, the collection flag of `isCollection="true"`, and whether the type is primitive |
| TypeResolver.ResolveTypeFields | library-api/lib/type-resolver.js:110-152 | the loop over descendant components computes TypeFields |
| TypeResolver.AddComponentsGet | library-api/lib/type-resolver.js:122-149 | a later component overwrites an earlier one of the same name, and components without a type reference are skipped |
| TypeResolver.TypeFieldsGet | library-api/lib/type-resolver.js:110-152 | an undeclared type has no fields; a declared one has those of its last typed descendants |
| TypeResolver.ResolveComplexType | library-api/lib/type-resolver.js:60-102 | an undeclared type gives a non-primitive leaf with no fields; a declared collection with a type reference gets the trimmed type reference as its item type; every other type keeps the collection flag |
| TypeResolver.ComplexTypeShapes | library-api/lib/type-resolver.js:66-101 | the three shapes of complex resolution: an undeclared type; a declared collection, whose item type is its trimmed type reference and whose fields are the item type's; any other declared type, with its own fields |
| TypeResolver.ResolveType | library-api/lib/type-resolver.js:10-51 | a result implies the parent is declared; it is primitive exactly when its type name is; only non-primitives have fields; an item type exactly for element collections |
| TypeResolver.ResolveTypeNull | library-api/lib/type-resolver.js:16-34 | `null` exactly when the parent is undeclared, the field is not under it, or the field has no type reference |
| TypeResolver.ResolvePrimitive | library-api/lib/type-resolver.js:36-47 | a primitive type reference resolves to its trimmed name, its collection flag and `primitive: true` |
| TypeResolver.ResolveTypeOneLevel | library-api/lib/type-resolver.js:36-50 | a complex type reference resolves one level deep through resolveComplexType |
| TypeResolver.GetAllTypes | library-api/lib/type-resolver.js:159-173 | the loop over item definitions computes AllTypes |
| TypeResolver.AllTypesGet | library-api/lib/type-resolver.js:159-173 | a name is in the map exactly when some definition has it, and it maps to itself |
| DeriveInputs.FindBdtPath | library-api/bin/derive-inputs.js:29-32 | an error exactly when no path contains "BDT.dmn"; otherwise one of the paths |
| DeriveInputs.ToSpec | library-api/bin/derive-inputs.js:56-63 | a schema field says `required: false`, copies type and collection flag, carries the item type exactly when it is present and not empty, and carries as fields the sub-field entries, same keys and order, exactly when there are fields |
| DeriveInputs.ResolveFields | library-api/bin/derive-inputs.js:48-81 | the field loops compute FieldSpecs |
| DeriveInputs.AssembleSchema | library-api/bin/derive-inputs.js:87-104 | the assembled schema is Assembled: the benefit name read from the benefit document, the person and situation fields, and metadata counting the DMN files found |
| DeriveInputs.FieldSpecsGet | library-api/bin/derive-inputs.js:48-81 | a field has an entry exactly when it is referenced, passes the nested-path filter where that applies, and resolves; the entry is made from its resolution |
| DeriveInputs.FieldSpecsKeys | library-api/bin/derive-inputs.js:48-81 | each field appears once, and only referenced fields appear |
| DeriveInputs.SchemaFields | library-api/bin/derive-inputs.js:48-81 | person fields are top-level referenced fields resolved against `tPerson`; situation fields are referenced fields resolved against `tSituation`; all are optional |
| DeriveInputs.SchemaCounts | library-api/bin/derive-inputs.js:87-103 | the benefit is absent exactly when the benefit document has no definitions, and is otherwise the first definition's name; `totalDmnFiles` is the number of DMN files found; the two field counts are the numbers of person and situation fields |
| DeriveInputs.SchemaOneLevel | library-api/bin/derive-inputs.js:62 | sub-fields have no fields of their own |
| Text.TrimSpec | library-api/lib/type-resolver.js:36 | a trimmed string neither starts nor ends with white space |
| Text.HumanizeRoundTrip | library-api/lib/form-generator.js:101-104 | a camelCase name can be read back from its label |
| FormGenerator.FormatLabelIgnoresCase | library-api/lib/form-generator.js:88-98 | abbreviations are found whatever the case of the name |
| FormGenerator.FormatLabelRoundTrip | library-api/lib/form-generator.js:86-105 | without an abbreviation, dropping the spaces and lower-casing the first letter gives the name back |
| FormGenerator.FormatLabelCapitalised | library-api/lib/form-generator.js:86-105 | the label of a camelCase name starts with a capital letter |
| FormGenerator.PrimitiveKind | library-api/lib/form-generator.js:24-61 | `date` gives a date input, `boolean` a checkbox and `number` a number input; `string` and every other type give a text field |
| FormGenerator.ComponentFor | library-api/lib/form-generator.js:9-81 | the id is the name and the label its formatted form; collections are dynamic lists described as "List of …"; a primitive gets the input kind of its type; complex fields with sub-fields are groups; any other field falls back to a text field; only leaves are validated, with the field's required flag |
| FormGenerator.MapTypeToFormComponent | library-api/lib/form-generator.js:9-81 | the component built step by step is ComponentFor |
| FormGenerator.FieldComponents | library-api/lib/form-generator.js:110-118 | one component per field |
| FormGenerator.GenerateFieldComponents | library-api/lib/form-generator.js:110-118 | the loop computes FieldComponents |
| FormGenerator.ComponentChildren | library-api/lib/form-generator.js:13-21 | the children of a list or group are the components of its sub-fields, in order |
| FormGenerator.GenerateFormSchema | library-api/lib/form-generator.js:123-164 | the method builds FormOf |
| FormGenerator.FormShape | library-api/lib/form-generator.js:123-164 | the form exists exactly when the schema names a benefit, and is described after it; it holds the person group when there are person fields and the "Additional Information" situation group exactly when some situation field is not auto-populated, the latter last, with the components of those fields |
| FormGenerator.FieldComponentsAt | library-api/lib/form-generator.js:110-118 | the i-th component is the one for the i-th field and has its id |
| FormGenerator.SituationGroupOmitsAutoFields | library-api/lib/form-generator.js:139-154 | the situation group has no component for an auto-populated field |
| FormGenerator.SituationGroupFields | library-api/lib/form-generator.js:139-154 | a situation field gets a component exactly when it is in the schema and not auto-populated |
| FormGenerator.PersonGroupFields | library-api/lib/form-generator.js:129-136 | the person group is the single component whose children are the person fields' components |
| FormGenerator.Described | library-api/lib/form-generator.js:169-195 | a known field gets its help text; every other component keeps its description; nothing else changes |
| FormGenerator.DescribedAll | library-api/lib/form-generator.js:169-195 | each component is described |
| FormGenerator.AddDescriptionsRecursive | library-api/lib/form-generator.js:169-195 | the recursive pass computes DescribedAll |
| FormGenerator.AddDescription | library-api/lib/form-generator.js:184-186 | one component gets its help text when it has one (Described) |
| FormGenerator.AddFieldDescriptions | library-api/lib/form-generator.js:169-195 | the form's components are replaced by DescribedAll of them |
| FormGenerator.DescribedAllHelped | library-api/lib/form-generator.js:169-195 | after the pass every known field at every depth carries its help text |
| FormGenerator.DescribedAllIdempotent | library-api/lib/form-generator.js:169-195 | running the pass twice equals running it once |
| FormGenerator.DescribedAllBare | library-api/lib/form-generator.js:169-195 | the pass changes only descriptions |
| FormValidator.ExtractFormFieldIds | library-api/lib/form-validator.js:9-44 | the recursive collection computes FormIds |
| FormValidator.AddComponentIds | library-api/lib/form-validator.js:13-40 | one component adds exactly its contribution: a group its children, another component its id and then its children, prefixed inside a dynamic list |
| FormValidator.FormIdsElems | library-api/lib/form-validator.js:9-44 | an id is collected exactly when some top-level component contributes it (Contributed) |
| FormValidator.OwnIdCollected | library-api/lib/form-validator.js:24-27 | a non-group component with an id contributes that id |
| FormValidator.GroupContributesChildren | library-api/lib/form-validator.js:15-21 | a group contributes the ids of its children, not its own |
| FormValidator.ListChildPrefixed | library-api/lib/form-validator.js:29-39 | a dynamic list contributes its children's ids prefixed with its own |
| FormValidator.FormIdsNoDup | library-api/lib/form-validator.js:10 | the form ids form a set |
| FormValidator.ExtractSchemaFieldIds | library-api/lib/form-validator.js:49-77 | the recursive collection computes SchemaIds |
| FormValidator.SchemaIdsElems | library-api/lib/form-validator.js:49-77 | the schema ids are those of the person fields and of the situation fields |
| FormValidator.AddFieldsRecursive | library-api/lib/form-validator.js:52-66 | the loop over one field map adds each field name followed by its prefixed sub-field names (EntriesIds) |
| FormValidator.EntriesIdsElems | library-api/lib/form-validator.js:52-66 | an id is collected exactly when it is a field name or a sub-field name prefixed by its field (RequiredBy) |
| FormValidator.AddPrefixed | library-api/lib/form-validator.js:61-63 | the inner loop adds the nested ids, each prefixed by its field name |
| FormValidator.SchemaIdsNoDup | library-api/lib/form-validator.js:50 | the schema ids form a set |
| FormValidator.ValidateFormSync | library-api/lib/form-validator.js:82-131 | the validation computes Validated |
| FormValidator.FindMissing | library-api/lib/form-validator.js:91-104 | the loop computes Missing |
| FormValidator.FindExtra | library-api/lib/form-validator.js:107-122 | the loop computes Extra |
| FormValidator.MissingElems | library-api/lib/form-validator.js:91-104 | a field is missing exactly when the schema has it, it is not auto-populated, and no form id equals it or contains it |
| FormValidator.ExtraElems | library-api/lib/form-validator.js:107-122 | a form id is extra exactly when its base field and the id itself are unknown to the schema and not auto-populated |
| FormValidator.ValidIff | library-api/lib/form-validator.js:124-130 | the form is valid exactly when nothing is missing |
| FormValidator.ExemptNeverReported | library-api/lib/form-validator.js:87 | an auto-populated field is never reported missing or extra |
| FormValidator.GenerateValidationReport | library-api/lib/form-validator.js:136-177 | the report is ReportLines joined by newlines |
| FormValidator.PushVerdict | library-api/lib/form-validator.js:146-158 | appends the pass block, or the fail block with one bullet per missing field |
| FormValidator.PushExtra | library-api/lib/form-validator.js:160-171 | appends the extra-field block when there are extra fields, and nothing otherwise |
| FormValidator.PushBullets | library-api/lib/form-validator.js:155-157 | appends one bullet per field, in order |
| FormValidator.ReportVerdict | library-api/lib/form-validator.js:146-158 | a valid form gets the pass line; an invalid one gets the fail line and one bullet per missing field |
| FormValidator.ReportFrame | library-api/lib/form-validator.js:139-174 | the report starts with its title block and ends with the closing rule |
| FormValidator.ReportExtraSection | library-api/lib/form-validator.js:160-171 | extra fields get their own section exactly when there are any |
| FormValidator.ReportPassIffValid | library-api/lib/form-validator.js:136-177 | the pass line is in the report exactly when the form is valid |
| DocGenerator.TypeDisplay | library-api/lib/doc-generator.js:19-32 | collections show "List of" their item type; other fields show their type, or "object" for an untyped complex field |
| DocGenerator.PrimitiveExample | library-api/lib/doc-generator.js:55-75 | a date gives "2024-01-15" and a boolean `false`; a number gives 1500 exactly when its lower-cased name contains "amount" or "income", and 0 otherwise; a string gives "person-123" for an id, else "PA" for a state, else "US_CITIZEN" for a status, else the empty string |
| DocGenerator.GenerateExample | library-api/lib/doc-generator.js:37-89 | the recursive method computes Example |
| DocGenerator.FillExamples | library-api/lib/doc-generator.js:80-85 | the loop filling an object computes ExamplesInto |
| DocGenerator.ExamplesIntoKeys | library-api/lib/doc-generator.js:80-85 | the object's keys are its old keys followed by the new field names |
| DocGenerator.ExamplesIntoGet | library-api/lib/doc-generator.js:80-85 | each field's key maps to that field's example; other keys keep their values |
| DocGenerator.ExampleShape | library-api/lib/doc-generator.js:40-88 | collections give arrays; complex fields give objects whose keys are their sub-fields |
| DocGenerator.GenerateFieldsTable | library-api/lib/doc-generator.js:94-114 | the table loop computes FieldsTable |
| DocGenerator.GenerateFieldRows | library-api/lib/doc-generator.js:97-111 | one field's row, followed by its sub-field rows, is FieldRows |
| DocGenerator.FieldsTableLength | library-api/lib/doc-generator.js:94-114 | the table has at least one row per field |
| DocGenerator.FieldsTableHasRows | library-api/lib/doc-generator.js:97-111 | every field's own row is in the table |
| DocGenerator.FieldsTableFlat | library-api/lib/doc-generator.js:94-114 | when no field nests, the table equals FlatRows: one row per field, in field order |
| DocGenerator.FlatRowsAt | library-api/lib/doc-generator.js:97-104 | the i-th flat row is the row of the i-th field under its full name |
| DocGenerator.FolderNameKebab | library-api/lib/doc-generator.js:237-242 | for a name without dashes the folder name has no capital, does not start with a dash, and gives back the lower-cased name once its dashes are removed |
| DocGenerator.GenerateDocumentation | library-api/lib/doc-generator.js:119-232 | the document is DocLines joined by newlines, with the example request passed through the serialiser |
| DocGenerator.PushSection | library-api/lib/doc-generator.js:148-174 | appends a field section with its table when the map has fields, and nothing otherwise |
| DocGenerator.PushChecks | library-api/lib/doc-generator.js:176-190 | appends the DMN checks section when there are models, and nothing otherwise |
| DocGenerator.PushModels | library-api/lib/doc-generator.js:183-188 | appends one line per model and one for its inputs when it has any |
| DocGenerator.BuildExampleRequest | library-api/lib/doc-generator.js:197-219 | the request is ExampleRequest: the example person and primary person when there are person fields, then the situation examples |
| DocGenerator.DocFails | library-api/lib/doc-generator.js:124-130 | documentation fails exactly when the schema names no benefit |
| DocGenerator.DocOverview | library-api/lib/doc-generator.js:124-146 | the document starts with the formatted benefit title, and its overview gives the total, person and situation field counts of the schema |
| DocGenerator.LayoutOverview | library-api/lib/doc-generator.js:124-146 | the lines start with the title line, then give the benefit name and the total, person and situation counts, and the model count only when there are models |
| DocGenerator.LayoutFirstHeading | library-api/lib/doc-generator.js:148-193 | right after the overview comes the person heading when there are person fields, else the situation heading when there are situation fields, else the DMN checks heading when there are models, else the example heading |
| DocGenerator.LayoutPersonRows | library-api/lib/doc-generator.js:148-160 | when there are person fields, the person section holds their table rows, after its heading, blurb and table header |
| DocGenerator.LayoutSecondHeading | library-api/lib/doc-generator.js:162-193 | after the person section (absent without person fields) comes the situation heading when there are situation fields, else the DMN checks or example heading |
| DocGenerator.LayoutSituationRows | library-api/lib/doc-generator.js:162-174 | when there are situation fields, the situation section holds their table rows, after its heading, blurb and table header |
| DocGenerator.LayoutAfterSections | library-api/lib/doc-generator.js:176-193 | after the field sections comes the DMN checks heading when there are models, and the example heading otherwise |
| DocGenerator.ExamplePerson | library-api/lib/doc-generator.js:201-209 | the example person's keys are `id` then the person fields, each holding its example |
| DocGenerator.ExampleSituationFields | library-api/lib/doc-generator.js:197-219 | every situation field holds its example; with person fields `person-1` is the primary person; without them the situation has the situation fields alone |
| Evaluation.FirstMatch | builder-api/src/main/java/org/acme/enums/EvaluationResult.java:16-21 | the search finds the first constant whose name equals the input ignoring case, or none when there is none |
| Evaluation.LabelIsName | builder-api/src/main/java/org/acme/enums/EvaluationResult.java:6-8 | each constant's label is its name |
| Evaluation.NamesDistinct | builder-api/src/main/java/org/acme/enums/EvaluationResult.java:16-21 | no string matches two constants |
| Evaluation.FromStringIgnoreCaseSpec | builder-api/src/main/java/org/acme/enums/EvaluationResult.java:16-23 | the lookup returns the matching constant, and UNABLE_TO_DETERMINE for null or any unknown string |
| Evaluation.LabelRoundTrip | builder-api/src/main/java/org/acme/enums/EvaluationResult.java:6-23 | looking a label up gives its constant back |
| Evaluation.LowerCaseTrueFound | builder-api/src/main/java/org/acme/enums/EvaluationResult.java:16-23 | an example: "true" is read as TRUE |
| Evaluation.LowerCaseFalseFound | builder-api/src/main/java/org/acme/enums/EvaluationResult.java:16-23 | an example: "false" is read as FALSE |
| Evaluation.LowerCaseUnableFound | builder-api/src/main/java/org/acme/enums/EvaluationResult.java:16-23 | an example: "unable_to_determine" is read as UNABLE_TO_DETERMINE |
| DecisionResource.IsLibraryCheck | builder-api/src/main/java/org/acme/controller/DecisionResource.java:235-238 | an empty id throws; otherwise a check is a library check exactly when its id starts with `L` |
| DecisionResource.IsUserAuthorized | builder-api/src/main/java/org/acme/controller/DecisionResource.java:227-233 | access is granted exactly when the screener has an owner and it is the user |
| DecisionResource.IsUserAuthorizedById | builder-api/src/main/java/org/acme/controller/DecisionResource.java:218-225 | a screener that is not found denies access; otherwise the owner test decides |
| DecisionResource.EvaluateBenefit | builder-api/src/main/java/org/acme/controller/DecisionResource.java:124-177 | a public benefit is not evaluated; otherwise the loop computes the check results, their combination and the result map of BenefitOutcome, and fails with the first failing check's error |
| DecisionResource.PrefixFails | builder-api/src/main/java/org/acme/controller/DecisionResource.java:134-153 | once a prefix of the checks fails, the whole list fails with the same error |
| DecisionResource.CombineCases | builder-api/src/main/java/org/acme/controller/DecisionResource.java:156-166 | TRUE exactly when all checks are TRUE; FALSE exactly when some check is FALSE; otherwise UNABLE_TO_DETERMINE |
| DecisionResource.CombineOrderFree | builder-api/src/main/java/org/acme/controller/DecisionResource.java:156-166 | reordering the check results does not change the benefit result |
| DecisionResource.EvaluateCheck | builder-api/src/main/java/org/acme/controller/DecisionResource.java:135-152 | a failed model-path lookup gives its error; an empty id fails; otherwise a check whose id starts with `L` goes to the library service and any other to the DMN engine with its model path, whose failure is passed on and whose null result fails |
| DecisionResource.CheckResultsSpec | builder-api/src/main/java/org/acme/controller/DecisionResource.java:134-153 | the checks fail exactly when some check's evaluation fails, and then with the error of the first check that fails, every earlier one succeeding; otherwise each result is its check's evaluation |
| DecisionResource.CheckMapKeys | builder-api/src/main/java/org/acme/controller/DecisionResource.java:151-152 | the map keys are the check ids, each followed by its position |
| DecisionResource.CheckMapValues | builder-api/src/main/java/org/acme/controller/DecisionResource.java:151-152 | a check whose key no later check reuses maps to its name and result |
| DecisionResource.KeyCollision | builder-api/src/main/java/org/acme/controller/DecisionResource.java:151-152 | an example: among eleven checks, "A1" at position 0 and "A" at position 10 share the key "A10", and the map holds the later check's name and result under it |
| GapAnalyzer.CalculateAge | builder-frontend/src/components/ssi-screener/GapAnalyzer.ts:55-64 | the age is the number of completed years: today is on or after the age-th birthday and before the next one |
| GapAnalyzer.AgeUnique | builder-frontend/src/components/ssi-screener/GapAnalyzer.ts:55-64 | only one number of years satisfies that description |
| GapAnalyzer.EvaluateCondition | builder-frontend/src/components/ssi-screener/GapAnalyzer.ts:16-52 | the condition holds as Holds says: a missing birth date counts as under 65, an unparsable one as not; a status condition compares the citizenship status |
| GapAnalyzer.AnalyzeGaps | builder-frontend/src/components/ssi-screener/GapAnalyzer.ts:66-85 | the loop over the table computes Gaps |
| GapAnalyzer.GapsInTableOrder | builder-frontend/src/components/ssi-screener/GapAnalyzer.ts:66-85 | the gaps are the names of reported rows at strictly increasing table positions |
| GapAnalyzer.AnalyzeGapsSpec | builder-frontend/src/components/ssi-screener/GapAnalyzer.ts:9-85 | a field is reported exactly when it is missing (undefined, null or empty) and needed by the field-by-field reference rule |
| GapAnalyzer.AtMostOneDate | builder-frontend/src/components/ssi-screener/GapAnalyzer.ts:28-52 | at most one status-specific date field is reported |
| GapAnalyzer.FalseIsAnswer | builder-frontend/src/components/ssi-screener/GapAnalyzer.ts:71-72 | `false` counts as an answer, so a blind-or-disabled value of `false` is never reported |
| GapAnalyzer.FindRow | builder-frontend/src/components/ssi-screener/GapAnalyzer.ts:87-90 | the first table row with the field's name, or none |
| GapAnalyzer.FieldDescriptionSpec | builder-frontend/src/components/ssi-screener/GapAnalyzer.ts:87-90 | a table field gets its row's description; any other name gets the name itself |
| GapAnalyzer.BuildSituation | builder-frontend/src/components/ssi-screener/GapAnalyzer.ts:92-116 | one person "p1" who is primary; truthy persona values are copied and falsy ones replaced by the defaults; the date fields are passed through as given; the lists are empty |
| SsiUtils.FormDataToSituation | builder-frontend/src/components/ssi-screener/ssiUtils.ts:52-91 | one primary person "p1"; the four base fields fall back to their defaults when falsy; each date is copied only when truthy and left absent otherwise; the lists are empty |
| SsiUtils.CopyIfGiven | builder-frontend/src/components/ssi-screener/ssiUtils.ts:65-79 | a date is copied when given, and left as it was otherwise |
| SsiUtils.ToOptionalBoolean | builder-frontend/src/components/ssi-screener/ssiUtils.ts:96-100 | `true` gives "TRUE", `false` gives "FALSE", and anything else gives "UNABLE_TO_DETERMINE" |
| SsiUtils.OptionalBooleanReadsBack | builder-frontend/src/components/ssi-screener/ssiUtils.ts:96-100 | the string is a label of EvaluationResult, and the Java lookup reads it back as the same result |
| SsiUtils.EligibilityToScreenerResult | builder-frontend/src/components/ssi-screener/ssiUtils.ts:105-126 | a single "ssi" benefit with its name and result, and the three checks under their keys with their names and results |
| SsiUtils.ScreenerResultReadsBack | builder-frontend/src/components/ssi-screener/ssiUtils.ts:105-126 | every result in the screener result reads back through the Java lookup |

## Left out

- XML parsing, XPath and namespace handling: a parsed document is given as a record, so `DOMParser` and `xpath.select` are not modelled.
- The filesystem is a map from paths to entries. Symbolic links, directories as such, and `path.resolve` against a drive are not modelled.
- Console output: the progress lines and icons of `derive-inputs.js`, and the `commander` command-line shells of the library tools.
- Writing files: `derive-inputs.js` writing the schema, and the generators writing their outputs.
- `JSON.stringify` is a parameter of `GenerateDocumentation`, so the JSON text of the example request is not modelled.
- `new Date()`, `toISOString()` and the evaluation date are parameters.
- The date parsing of `new Date(dateOfBirth)` (formats, time zones, invalid dates) is a parameter, `DateParser`.
- DecisionResource.EvaluateCheck: the storage lookup, the library service and the DMN engine are parameters, because they reach code and services outside this core. What they compute is not modelled; each may fail or, for the two evaluators, return null.
- The REST endpoints, authentication, persistence and HTTP responses of `DecisionResource`: only the aggregation of lines 124-177 and the two authorisation tests are modelled.
- DecisionResource.EvaluateBenefit: Java's `Map.of` throws on a null check name. Check names are strings here, so that failure is not modelled.
- FormGenerator.FormatLabel, Text.Humanize and DocGenerator.FolderName: the case mapping covers ASCII letters only. JavaScript's `toUpperCase` and `toLowerCase` map every cased letter ("élan" becomes "Élan"); the model keeps non-ASCII letters as they are.
- FolderNameKebab: the lemma is stated for the ASCII case mapping of `DocGenerator.FolderName`, so it says nothing about names whose non-ASCII letters JavaScript would lower-case.
- FormGenerator.FormatLabel, FormGenerator.Described and FormGenerator.HasHelp: `abbreviations[lower]` and `descriptions[component.id]` are lookups in plain JavaScript objects, which also find inherited keys such as "constructor" or "toString". The model looks up only the listed keys, so a field named like an `Object.prototype` member is not modelled.
- Evaluation.FromStringIgnoreCaseSpec: Java case mapping is modelled for ASCII letters and the four non-ASCII characters whose case maps onto ASCII letters. Other Unicode case rules cannot matter for these all-ASCII names and are not modelled.
- JavaScript objects order integer-like keys before the others. Ordered maps here keep plain insertion order, which differs only for keys that are array indices.
- JSON numbers are integers (`Num(int)`). Fractions and NaN are not modelled.
- FormGenerator.AddFieldDescriptions: the source mutates the components in place. The model returns a new form, so aliasing between components is not captured.
- FieldSpec has no `description` field: the input schema produced by `derive-inputs.js` never has one.
- The form, validator and documentation tools read their JSON input files. Reading and parsing those files is not modelled; the schema and form are given as values.
