# Alternative authorization header migration, modelled in Dafny

This project models two OpenRewrite recipes from a sample token-migration repository.

- **`FindHttpHeaders`** marks every outermost `HttpHeaders.add(..)` call whose first argument names a given header. It does not search the arguments of a call it marks, so a matching call nested inside one stays unmarked. The name may be written as a qualified constant (`HttpHeaders.AUTHORIZATION`), a statically imported constant (`AUTHORIZATION`) or a `String` literal, in any letter case.
- **`AddAlternativeAuthorizationHeader`** is a scanning recipe with three phases:
  1. The scan records a class declaration named `IdaProvider` in a run-wide accumulator.
  2. Generation adds a fixed `IdaProvider` compilation unit when the scan found none.
  3. The transform wires a field of the provider type into every class declaration that sets the `Authorization` header. In every method body that sets it, the transform inserts `headers.add("NEW_AUTHORIZATION", <field>.getAuthorizationHeader())` after the first statement that sets it. It skips a body that already contains the literal `"NEW_AUTHORIZATION"`. As written, neither edit reaches a class declared inside a method body that itself gets the statement (see Findings).

## Files

- `wrappers.dfy` defines `Option`.
- `java_tree.dfy` (module `JavaTree`) is an attributed Java syntax tree as one datatype `J`.
  - It covers field accesses, identifiers, literals, method invocations (with a search-result mark), blocks, method declarations, class declarations, variable declarations and compilation units.
  - Every other node kind is `Other`, which only carries children.
  - `Children` and `WithChildren` give every visitor one uniform traversal.
  - Case-insensitive comparison is ASCII case folding.
- `find_http_headers.dfy` (module `FindHttpHeaders`) holds the method matcher, the key classification, the marking visitor, and lemmas about them.
- `add_alternative_authorization_header.dfy` (module `AddAlternativeAuthorizationHeader`) holds the recipe:
  - the accumulator, as a class with `Scan` and `Generate` methods;
  - the two probes;
  - field wiring and statement insertion;
  - the `visitBlock` loop, as a method proved against a specification function;
  - the transforming visitor, as a function over the tree;
  - a whole run over a batch of source files, and the properties relating all of these.

The visitor's cursor messages are replaced by an explicit parameter. It carries the field name recorded by the nearest enclosing class declaration, plus a flag saying whether a block's parent is a method declaration. The block that the insertion template is applied to is a parameter too (`TemplateBase`): `CursorBlock` follows the recipe as written, and `VisitedBlock` is the corrected recipe (see Findings).

Behaviour of the code worth noting:

- **Scan order.** The scanner overwrites the accumulator at every `IdaProvider` declaration, so the last one visited wins, not the first (`Accumulator.ScanClassDeclaration`, `ScanPicksLast`).
- **Probe scope.** The idempotency probe searches the method-body block being visited, not the whole compilation unit (`NeedsInsertion`).
- **One insertion per body.** A method body gets one new statement, after the first statement that sets the header. It is not one per matched call site (`BlockResult`).

## Model

| member | source | states |
|---|---|---|
| FindHttpHeaders.IsHeaderAdd | src/main/java/org/openrewrite/authz/FindHttpHeaders.java:49 | definition, no contract: the matcher `HttpHeaders add(..)`: a call whose resolved method is `add` declared by `org.springframework.http.HttpHeaders`, with any arguments; an unresolved call never matches |
| FindHttpHeaders.KeyNamesHeader | src/main/java/org/openrewrite/authz/FindHttpHeaders.java:54-73 | definition, no contract: the key's written name equals the header ignoring case |
| FindHttpHeaders.IsHeaderCall | src/main/java/org/openrewrite/authz/FindHttpHeaders.java:53-73 | definition, no contract: a call the visitor marks: a matched `add` call with a first argument that names the header |
| FindHttpHeaders.HasHeaderCall | src/main/java/org/openrewrite/authz/FindHttpHeaders.java:52-76 | definition, no contract: the node or some node below it is a call the visitor marks |
| FindHttpHeaders.KeyName | src/main/java/org/openrewrite/authz/FindHttpHeaders.java:54-73 | a key has a name exactly when it is a field access, an identifier or a `String` literal |
| FindHttpHeaders.KeyShapesAgree | src/main/java/org/openrewrite/authz/FindHttpHeaders.java:55-73 | the three key shapes match exactly when their written name equals the header ignoring case; the qualifier of a field access plays no part; a non-`String` literal and every other shape never match |
| FindHttpHeaders.OnlyFirstArgumentInspected | src/main/java/org/openrewrite/authz/FindHttpHeaders.java:53-54 | two `HttpHeaders.add` calls with the same first argument are both marked or both not, whatever their other arguments |
| FindHttpHeaders.FindHeaders | src/main/java/org/openrewrite/authz/FindHttpHeaders.java:52-76 | a matched call comes back marked with its arguments untouched; a tree with no matched call comes back unchanged; a mark is only ever added to a call of `HttpHeaders.add` whose key names the header |
| FindHttpHeaders.FindHeadersOnlyMarks | src/main/java/org/openrewrite/authz/FindHttpHeaders.java:52-76 | the visitor only adds marks: with all marks erased, its result equals its input |
| FindHttpHeaders.FindHeadersChangesIff | src/main/java/org/openrewrite/authz/FindHttpHeaders.java:52-76 | on an unmarked tree the visitor changes something exactly when the tree holds a matched call, which searching the calls that do not match recursively guarantees |
| FindHttpHeaders.FindHeadersMarksOutermost | src/main/java/org/openrewrite/authz/FindHttpHeaders.java:52-76 | at every position of the tree, a matched call not inside another matched call comes back marked, no other node gains a mark, and the nodes inside a matched call come back as they were |
| FindHttpHeaders.UpperCaseNamesAuthorization | src/test/java/org/openrewrite/authz/FindHttpHeadersTest.java:102 | "AUTHORIZATION" equals "Authorization" ignoring case |
| FindHttpHeaders.FindHeadersMarksExamples | src/test/java/org/openrewrite/authz/FindHttpHeadersTest.java:45-117 | for any header value, `HttpHeaders.AUTHORIZATION`, `AUTHORIZATION`, `"Authorization"` and `"AUTHORIZATION"` keys are marked |
| FindHttpHeaders.FindHeadersSkipsOtherConstant | src/test/java/org/openrewrite/authz/FindHttpHeadersTest.java:32-68 | `HttpHeaders.EXPIRES` is not marked, although that constant's value is "Authorization": only the written name counts |
| AddAlternativeAuthorizationHeader.IsProviderType | src/main/java/org/openrewrite/authz/AddAlternativeAuthorizationHeader.java:62-63 | definition, no contract: a resolved class type whose class name is exactly `IdaProvider` |
| AddAlternativeAuthorizationHeader.DeclaredClassTypes | src/main/java/org/openrewrite/authz/AddAlternativeAuthorizationHeader.java:61-67 | definition, no contract: the class types of a tree's class declarations in the scanner's visiting order, each before those nested in it |
| AddAlternativeAuthorizationHeader.SourceClassTypes | src/main/java/org/openrewrite/authz/AddAlternativeAuthorizationHeader.java:58-69 | definition, no contract: the class types the scanner visits over a batch, source file by source file |
| AddAlternativeAuthorizationHeader.ScanResult | src/main/java/org/openrewrite/authz/AddAlternativeAuthorizationHeader.java:61-66 | definition, no contract: the accumulator after visiting the given class types in order: the last provider type, or the old value when there is none |
| AddAlternativeAuthorizationHeader.ProviderUnit | src/main/java/org/openrewrite/authz/AddAlternativeAuthorizationHeader.java:73-88 | definition, no contract: the generated compilation unit: class `IdaProvider` of the given type, with a method `getAuthorizationHeader` that returns "NEW_AUTHORIZATION" |
| AddAlternativeAuthorizationHeader.HasAuthorizationHeader | src/main/java/org/openrewrite/authz/AddAlternativeAuthorizationHeader.java:128-130 | definition, no contract: `hasAuthorizationHeader`: the tree holds a call that `FindHttpHeaders("Authorization")` marks |
| AddAlternativeAuthorizationHeader.HasNewAuthorizationHeader | src/main/java/org/openrewrite/authz/AddAlternativeAuthorizationHeader.java:132-141 | definition, no contract: `hasNewAuthorizationHeader`: some literal of the tree has exactly the value "NEW_AUTHORIZATION" |
| AddAlternativeAuthorizationHeader.IsProviderField | src/main/java/org/openrewrite/authz/AddAlternativeAuthorizationHeader.java:145 | definition, no contract: a field declaration whose declared type has the provider's fully qualified name |
| AddAlternativeAuthorizationHeader.ProviderField | src/main/java/org/openrewrite/authz/AddAlternativeAuthorizationHeader.java:152-157 | definition, no contract: the field `idaProvider` declared with the provider type |
| AddAlternativeAuthorizationHeader.FieldName | src/main/java/org/openrewrite/authz/AddAlternativeAuthorizationHeader.java:149-165 | definition, no contract: the field name put in the cursor message: the reused field's name, or `idaProvider` |
| AddAlternativeAuthorizationHeader.WiredMembers | src/main/java/org/openrewrite/authz/AddAlternativeAuthorizationHeader.java:152-161 | definition, no contract: the class body after wiring: unchanged when a field is reused, else the new field first and the old members after it |
| AddAlternativeAuthorizationHeader.NewHeaderStatement | src/main/java/org/openrewrite/authz/AddAlternativeAuthorizationHeader.java:113 | definition, no contract: the template's statement `headers.add("NEW_AUTHORIZATION", <field>.getAuthorizationHeader())`, attributed to `HttpHeaders.add` and to the provider's getter |
| AddAlternativeAuthorizationHeader.NeedsInsertion | src/main/java/org/openrewrite/authz/AddAlternativeAuthorizationHeader.java:108-112 | definition, no contract: the block's parent is a method declaration, a field name is recorded, the block holds no sentinel literal and some statement sets the header |
| AddAlternativeAuthorizationHeader.InnerName | src/main/java/org/openrewrite/authz/AddAlternativeAuthorizationHeader.java:165 | definition, no contract: the nearest `idaProviderName` message: the class's recorded field name when the class sets the header, else the enclosing one |
| AddAlternativeAuthorizationHeader.VisitChildren | src/main/java/org/openrewrite/authz/AddAlternativeAuthorizationHeader.java:102-107 | definition, no contract: the children of a node, each visited with the node's recorded name and with whether the node is a method declaration |
| AddAlternativeAuthorizationHeader.Visit | src/main/java/org/openrewrite/authz/AddAlternativeAuthorizationHeader.java:95-126 | definition, no contract: the transform at one node: a class that sets the header is wired and its members visited; a block has its statements visited and then `visitBlock`'s insertion applied; any other node has its children visited |
| AddAlternativeAuthorizationHeader.TransformSource | src/main/java/org/openrewrite/authz/AddAlternativeAuthorizationHeader.java:91-126 | definition, no contract: the transform of one source file, from the top with no recorded name |
| AddAlternativeAuthorizationHeader.ProviderFor | src/main/java/org/openrewrite/authz/AddAlternativeAuthorizationHeader.java:73-91 | definition, no contract: the provider the transform uses: the scanned one, else the generated one |
| AddAlternativeAuthorizationHeader.GeneratedFor | src/main/java/org/openrewrite/authz/AddAlternativeAuthorizationHeader.java:73-88 | definition, no contract: the generated unit when the scan found no provider, else nothing |
| AddAlternativeAuthorizationHeader.TransformAll | src/main/java/org/openrewrite/authz/AddAlternativeAuthorizationHeader.java:91-126 | every source file of a batch transformed with one provider, one result per source |
| AddAlternativeAuthorizationHeader.Accumulator.constructor | src/main/java/org/openrewrite/authz/AddAlternativeAuthorizationHeader.java:53-55 | the accumulator starts empty |
| AddAlternativeAuthorizationHeader.Accumulator.ScanClassDeclaration | src/main/java/org/openrewrite/authz/AddAlternativeAuthorizationHeader.java:61-66 | a resolved class type named exactly `IdaProvider` overwrites the accumulator; any other declaration leaves it unchanged |
| AddAlternativeAuthorizationHeader.Accumulator.Scan | src/main/java/org/openrewrite/authz/AddAlternativeAuthorizationHeader.java:58-69 | after the scan of every class declaration of every source file, in visiting order, the accumulator is the fold `ScanResult` of the declarations over its old value |
| AddAlternativeAuthorizationHeader.ScanWithoutProvider | src/main/java/org/openrewrite/authz/AddAlternativeAuthorizationHeader.java:61-66 | declarations that are no provider leave the accumulator unchanged |
| AddAlternativeAuthorizationHeader.ScanPicksLast | src/main/java/org/openrewrite/authz/AddAlternativeAuthorizationHeader.java:63-64 | the last provider declaration visited is the one recorded; earlier ones are overwritten |
| AddAlternativeAuthorizationHeader.ScanFindsProvider | src/main/java/org/openrewrite/authz/AddAlternativeAuthorizationHeader.java:58-69 | the scan ends with a provider exactly when the accumulator held one or some visited declaration is one |
| AddAlternativeAuthorizationHeader.Accumulator.Generate | src/main/java/org/openrewrite/authz/AddAlternativeAuthorizationHeader.java:73-88 | with an empty accumulator, exactly the fixed `IdaProvider` unit is generated and its type recorded; otherwise nothing is generated and the accumulator is unchanged; in both cases a provider is recorded afterwards |
| AddAlternativeAuthorizationHeader.ProviderUnitFacts | src/main/java/org/openrewrite/authz/AddAlternativeAuthorizationHeader.java:76-84 | a provider unit declares exactly its provider type and sets no `Authorization` header, so the transform leaves it alone |
| AddAlternativeAuthorizationHeader.RunRecipe | src/main/java/org/openrewrite/authz/AddAlternativeAuthorizationHeader.java:53-91 | a run creates a fresh accumulator, scans every source, generates, then transforms every source with the recorded provider: the scanned one, else the generated one |
| AddAlternativeAuthorizationHeader.GeneratesIffNoProvider | src/main/java/org/openrewrite/authz/AddAlternativeAuthorizationHeader.java:61-88 | one unit is generated exactly when no source declares an `IdaProvider` class, and none otherwise; the transform then uses the last declared one |
| AddAlternativeAuthorizationHeader.HasAuthorizationHeaderIsSearch | src/main/java/org/openrewrite/authz/AddAlternativeAuthorizationHeader.java:128-130 | on an unmarked tree, the probe holds exactly when the `FindHttpHeaders("Authorization")` visitor changes the tree |
| AddAlternativeAuthorizationHeader.FirstProviderField | src/main/java/org/openrewrite/authz/AddAlternativeAuthorizationHeader.java:145 | the position found is a field whose type has the provider's fully qualified name, and no earlier member is one; no position means there is no such field |
| AddAlternativeAuthorizationHeader.AutowireProvider | src/main/java/org/openrewrite/authz/AddAlternativeAuthorizationHeader.java:144-166 | the existing field is reused exactly when the body has a field of the provider type, and the recorded name is the first such field's first variable; otherwise the field `idaProvider` of the provider type is prepended |
| AddAlternativeAuthorizationHeader.WiringIsIdempotent | src/main/java/org/openrewrite/authz/AddAlternativeAuthorizationHeader.java:147-163 | after wiring, the original members follow in their order, and wiring again reuses the field under the recorded name |
| AddAlternativeAuthorizationHeader.NewHeaderStatementIsInert | src/main/java/org/openrewrite/authz/AddAlternativeAuthorizationHeader.java:110-113 | the inserted statement carries the sentinel literal and sets no `Authorization` header |
| AddAlternativeAuthorizationHeader.FirstHeaderStatement | src/main/java/org/openrewrite/authz/AddAlternativeAuthorizationHeader.java:109-110 | the position found is a statement that sets the header, and no earlier statement does; no position means no statement does |
| AddAlternativeAuthorizationHeader.InsertAfter | src/main/java/org/openrewrite/authz/AddAlternativeAuthorizationHeader.java:113-120 | the new statement sits right after the given statement; the statements before and after keep their order |
| AddAlternativeAuthorizationHeader.BlockResult | src/main/java/org/openrewrite/authz/AddAlternativeAuthorizationHeader.java:106-126 | a method body gets one statement exactly when a field name was recorded, the body lacks the sentinel and some statement sets the header; it goes right after the first such statement; otherwise the visited block is returned |
| AddAlternativeAuthorizationHeader.VisitBlockStatements | src/main/java/org/openrewrite/authz/AddAlternativeAuthorizationHeader.java:106-126 | the statement loop with early return computes `BlockResult` |
| AddAlternativeAuthorizationHeader.NoHeaderCallUnchanged | src/main/java/org/openrewrite/authz/AddAlternativeAuthorizationHeader.java:94-126 | a tree that sets no `Authorization` header is not changed: no field, no statement |
| AddAlternativeAuthorizationHeader.VisitKeepsHeaderCalls | src/main/java/org/openrewrite/authz/AddAlternativeAuthorizationHeader.java:94-126 | the transformed tree sets the `Authorization` header exactly when the original does |
| AddAlternativeAuthorizationHeader.HeaderCallCountZero | src/main/java/org/openrewrite/authz/AddAlternativeAuthorizationHeader.java:128-130 | a tree holds no `Authorization` header call, at any depth, exactly when the probe `hasAuthorizationHeader` is false |
| AddAlternativeAuthorizationHeader.VisitKeepsHeaderCallCount | src/main/java/org/openrewrite/authz/AddAlternativeAuthorizationHeader.java:94-126 | the transform neither adds nor removes `Authorization` header calls: the transformed tree holds exactly as many as the original, nested ones included |
| AddAlternativeAuthorizationHeader.VisitKeepsSentinel | src/main/java/org/openrewrite/authz/AddAlternativeAuthorizationHeader.java:106-141 | the transform never removes a "NEW_AUTHORIZATION" literal |
| AddAlternativeAuthorizationHeader.VisitKeepsInnerName | src/main/java/org/openrewrite/authz/AddAlternativeAuthorizationHeader.java:144-165 | a transformed class records the same field name as the original, and wiring it again reuses that field |
| AddAlternativeAuthorizationHeader.VisitKeepsDeclarations | src/main/java/org/openrewrite/authz/AddAlternativeAuthorizationHeader.java:94-126 | the transform keeps every class declaration, with its type and in the same order; the new field and statement declare no class |
| AddAlternativeAuthorizationHeader.VisitIdempotent | src/main/java/org/openrewrite/authz/AddAlternativeAuthorizationHeader.java:94-141 | with the template applied to the visited block, transforming a transformed tree again changes nothing, for every tree |
| AddAlternativeAuthorizationHeader.TransformIdempotent | src/main/java/org/openrewrite/authz/AddAlternativeAuthorizationHeader.java:91-126 | the corrected edit of a source file, applied twice, is the edit applied once |
| AddAlternativeAuthorizationHeader.RecipeConverges | src/main/java/org/openrewrite/authz/AddAlternativeAuthorizationHeader.java:53-126 | with the template applied to the visited block (the corrected recipe), a second run over a first run's output (the transformed sources, then the generated unit) finds the same provider, generates nothing and changes nothing |
| AddAlternativeAuthorizationHeader.FlatUnchanged | src/main/java/org/openrewrite/authz/AddAlternativeAuthorizationHeader.java:94-141 | a subtree that declares no class and no method, visited anywhere but as a method's body, comes back unchanged |
| AddAlternativeAuthorizationHeader.BasesAgree | src/main/java/org/openrewrite/authz/AddAlternativeAuthorizationHeader.java:106-121 | when no method body declares a class or a method, applying the template to the cursor's block (as written) and to the visited block give the same tree |
| AddAlternativeAuthorizationHeader.VisitKeepsBodiesFlat | src/main/java/org/openrewrite/authz/AddAlternativeAuthorizationHeader.java:94-141 | the transform adds no declaration to a method body: it prepends a field to a class and inserts a statement that declares nothing |
| AddAlternativeAuthorizationHeader.FlatBodiesTransformIdempotent | src/main/java/org/openrewrite/authz/AddAlternativeAuthorizationHeader.java:91-126 | as written, the edit of a source file whose method bodies declare nothing equals the corrected edit, and applied twice it is the edit applied once |
| AddAlternativeAuthorizationHeader.FlatBodiesRecipeConverges | src/main/java/org/openrewrite/authz/AddAlternativeAuthorizationHeader.java:53-126 | as written, on a batch whose method bodies declare nothing, a run edits the batch as the corrected recipe does, and a second run over its output finds the same provider, generates nothing and changes nothing |
| AddAlternativeAuthorizationHeader.AddNewProviderScenario | src/test/java/org/openrewrite/authz/AddAlternativeAuthorizationHeaderTest.java:46-90 | with no provider in the batch, the provider unit is generated; class `Test` gets the field `idaProvider` of the generated type first, and the new statement right after its `Authorization` call |
| AddAlternativeAuthorizationHeader.UseExistingProviderScenario | src/test/java/org/openrewrite/authz/AddAlternativeAuthorizationHeaderTest.java:92-136 | with an `IdaProvider` class of some package in the batch, nothing is generated and that unit is left alone; class `Test` gets a field of that type and the new statement |
| AddAlternativeAuthorizationHeader.ExamplesConverge | src/test/java/org/openrewrite/authz/AddAlternativeAuthorizationHeaderTest.java:46-136 | as written, a second run over the output of either example batch generates nothing and changes nothing |
| AddAlternativeAuthorizationHeader.AsWrittenNotIdempotent | src/main/java/org/openrewrite/authz/AddAlternativeAuthorizationHeader.java:106-121 | as written, on a class whose method declares a local class that sets the header, a second run changes the first run's result, and reaches only then what the corrected transform reaches in one run |

## Left out

- Parsing, printing and formatting are not modelled. The generated unit is one fixed tree, `ProviderUnit`, and its source text and path are not modelled.
- Template rendering (`JavaTemplate`, `contextSensitive`, coordinates) is not modelled. The inserted statement and the prepended field are fixed tree constructors.
- Type attribution is an attribute of the tree. A class declaration carries its resolved class type, or none. A call carries its resolved declaring type and name, or none.
- The method matcher is modelled as exact equality on declaring type and method name. Subtypes and overload resolution are not modelled.
- FirstProviderField: `FindFieldsOfType` returns an unordered set, and the recipe takes its first element. The model takes the class's first own member field of the provider type, in declaration order. Fields of nested classes, which the library may also return, are not considered.
- Import insertion (`maybeAddImport`) is not modelled. The import line of the existing-provider example is therefore not part of `UseExistingProviderScenario`.
- Cursor plumbing (`getCursor`, `putMessage`, `getNearestMessage`, `updateCursor`) is replaced by the explicit `nearest` and `parentIsMethod` parameters of `Visit`.
- The `UsesMethod` precondition of the search recipe only gates work and does not change results, so it is left out.
- The accumulator's `AtomicReference` thread safety and any parallel scanning are left out. The model is sequential.
- Display names, descriptions and the rendering of search results as comments are left out. A search result is the `found` flag of a call.
- HasAuthorizationHeaderIsSearch: the probe equals the search visitor's "changed" test only on trees without earlier search marks. Whether re-marking an already marked call counts as a change is not modelled.
- `equalsIgnoreCase` is restricted to ASCII case folding. Full Unicode case folding is not modelled.
- A call with no arguments is never marked. The library then gives a `J.Empty` first argument, which is none of the three key shapes.
- Anonymous classes, lambdas, control-flow statements and other node kinds are `Other` nodes with children. They are searched and visited, but never wired or given an inserted statement.
- TransformIdempotent: for the recipe as written, idempotence is proved only for source files whose method bodies declare no class or method (`FlatBodiesTransformIdempotent`). On other files it can fail, as the Findings row shows.
- RecipeConverges: for the recipe as written, convergence is proved only for batches whose method bodies declare no class or method (`FlatBodiesRecipeConverges`). On other batches it can fail, as the Findings row shows.
- Whether the engine also runs the transform over the generated unit is not modelled. `ProviderUnitFacts` shows that the unit sets no header, so the transform would leave it unchanged.

## Findings

| source | as written | input that shows it | evidently intended | confidence | as-written member | corrected member |
|---|---|---|---|---|---|---|
| src/main/java/org/openrewrite/authz/AddAlternativeAuthorizationHeader.java:107-120 | `visitBlock` visits the statements into `b`. When it inserts, it applies the template to the cursor, whose value is the original `block`, and returns that result. Every edit made while visiting the statements is discarded. | `class Test { void test(HttpHeaders headers) { class Local { void send() { headers.add("Authorization", v); } } } }`. The first run gives `Test` its field and statement, but `Local` comes back unedited. A second run then adds `Local`'s field and statement, so the transform is not idempotent. | Apply the template to the visited block `b`, so that one run makes every edit and a second run changes nothing. | not executed | AddAlternativeAuthorizationHeader.AsWrittenNotIdempotent | AddAlternativeAuthorizationHeader.VisitIdempotent |
