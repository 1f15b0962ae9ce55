# Builder generation for an IntelliJ plugin, modelled in Dafny

The plugin adds a builder to a Java class. While doing so it makes two choices:

* **Which fields to offer** (`BuilderDialog.getFieldsToAdd` / `additionalFields`).
  - If the owner has no nested class named `Builder`, it offers every field of the owner, inherited ones included.
  - Otherwise it offers the owner's own declared fields, in declaration order, whose names the existing `Builder` lacks. The match is on the name only.
* **What to generate** (`BuilderGenerator.generateBuilderCode`). Each run appends three members to the owner, in this order:
  - a `public final static` nested class `Builder`. Its members are a private no-argument constructor, then a private mirror field and a fluent setter for each chosen field, then `build()`;
  - a private constructor `Owner(Builder builder)` that copies each chosen field from the builder;
  - a static factory method `newOwner()`.

  Each method is built as source text by string concatenation.

The model is split into five modules:

* `Psi` (psi.dfy) holds the data model. It has fields, class members, and `PsiClass`, a class declaration whose member list is appended to in place. A nested class added to another class is stored as a value snapshot, because adding an element to a class inserts a copy of it.
* `GeneratedText` (generated_text.dfy) holds the texts of the generated methods. It also has a parser for each text, with round-trip lemmas in both directions. These show that each text carries exactly what it was built from: a setter its field's name and type; `build()` and the factory method their owner; the builder constructor its owner and the ordered list of field names it assigns.
* `Generation` (generation.dfy) holds the class `BuilderGenerator`. Its methods append to the owner and to the new builder in place, just as the Java does. The builder-constructor text is built in a loop over the chosen fields, as the Java's `StringBuilder` is at lines 40-42. The other three texts are each one chain of appends. They are proved against the member-sequence functions `GeneratedMembers` and `BuilderMembers`, and lemmas about those functions state the shape of what is generated.
* `Dialog` (dialog.dfy) holds the eligibility filter. It is a loop method proved equal to a filter function, with lemmas for soundness, completeness, order and name-only matching.
* `Scenarios` (scenarios.dfy) covers two runs in a row. For an owner without superclasses, it states what the dialog offers after a generation and which `Builder` it sees.

The generator does not reuse an existing `Builder`, delete a stale builder constructor, or skip an existing factory method. Every run appends all three members (BuilderGenerator.java lines 45, 53 and 68). So a second run leaves two `Builder` classes, two builder constructors and two factory methods. `Generation.GeneratedTwice` states exactly this. `Scenarios.LookupKeepsEarlierBuilder` states that the dialog then keeps consulting the first `Builder`.

## Model

| member | source | states |
|---|---|---|
| Psi.DeclaredFieldsAppend | src/com/idea/plugin/builder/BuilderDialog.java:53 | the declared fields of two concatenated member lists are those of the first followed by those of the second |
| Psi.FindInnerClass | src/com/idea/plugin/builder/BuilderDialog.java:44 | a found class is a nested class of that name in the member list, and no nested class of that name comes before it; nothing is found exactly when no nested class has that name |
| Psi.FindInnerClassAppend | src/com/idea/plugin/builder/BuilderDialog.java:44 | in a concatenated member list, a class found in the first part wins; otherwise the result is the look-up in the second part |
| Psi.WithModifier | src/com/idea/plugin/builder/BuilderGenerator.java:58-61 | after setting a modifier it is present exactly when the value is true; setting an access modifier removes the other access modifier; all other modifiers are kept; a list with one access level keeps one |
| Psi.PsiClass.constructor | src/com/idea/plugin/builder/BuilderGenerator.java:57 | a class made by `createClass` has the given name, the modifier `public` and no members |
| Psi.PsiClass.SetModifierProperty | src/com/idea/plugin/builder/BuilderGenerator.java:58-59 | the modifier list changes as `WithModifier` states; the members are unchanged |
| Psi.PsiClass.Add | src/com/idea/plugin/builder/BuilderGenerator.java:45 | the member is appended at the end; earlier members and the modifiers are unchanged |
| GeneratedText.IdentLengthOf | src/com/idea/plugin/builder/BuilderGenerator.java:39 | an identifier followed by a non-identifier character is read back whole and no further |
| GeneratedText.AssignmentsTextAppend | src/com/idea/plugin/builder/BuilderGenerator.java:40-42 | one more field in the list appends exactly one `this.f = builder.f;` line at the end |
| GeneratedText.AssignLineAppended | src/com/idea/plugin/builder/BuilderGenerator.java:41 | the statement appended for a field, piece by piece as the source appends it, is `this.f = builder.f;` followed by a newline |
| GeneratedText.ConstructorTextSpelled | src/com/idea/plugin/builder/BuilderGenerator.java:39-43 | the builder-constructor text is `private Owner(Builder builder){`, then one assignment per field in list order, then `}` |
| GeneratedText.FactoryTextSpelled | src/com/idea/plugin/builder/BuilderGenerator.java:49-51 | the factory text is `public static Builder newOwner(){ return new Builder(); }`, with only the owner's name varying |
| GeneratedText.BuildTextSpelled | src/com/idea/plugin/builder/BuilderGenerator.java:72-74 | the `build()` text returns type Owner and its body is `return new Owner(this);` |
| GeneratedText.SetterTextSpelled | src/com/idea/plugin/builder/BuilderGenerator.java:85-89 | the setter text is `public Builder f(T f){ this.f = f; return this; }` for field name f and type text T |
| GeneratedText.SetterRoundTrip | src/com/idea/plugin/builder/BuilderGenerator.java:84-91 | parsing a setter's text gives back its field, name and type, for any type text |
| GeneratedText.SetterParseSound | src/com/idea/plugin/builder/BuilderGenerator.java:84-91 | any text the setter parser accepts is exactly the setter text of the field it returns |
| GeneratedText.BuildRoundTrip | src/com/idea/plugin/builder/BuilderGenerator.java:71-76 | parsing the `build()` text gives back the owner name |
| GeneratedText.BuildParseSound | src/com/idea/plugin/builder/BuilderGenerator.java:71-76 | any text the `build()` parser accepts is exactly the `build()` text of the owner it returns |
| GeneratedText.FactoryRoundTrip | src/com/idea/plugin/builder/BuilderGenerator.java:48-54 | parsing the factory text gives back the owner name; the text depends on nothing else |
| GeneratedText.FactoryParseSound | src/com/idea/plugin/builder/BuilderGenerator.java:48-54 | any text the factory parser accepts is exactly the factory text of the owner it returns |
| GeneratedText.AssignLineRoundTrip | src/com/idea/plugin/builder/BuilderGenerator.java:41 | one assignment statement parses back to its field name, leaving exactly the text that follows |
| GeneratedText.AssignLineParseSound | src/com/idea/plugin/builder/BuilderGenerator.java:41 | any text the one-statement parser accepts is that statement for the returned name, followed by the returned rest |
| GeneratedText.AssignmentsRoundTrip | src/com/idea/plugin/builder/BuilderGenerator.java:40-43 | the assignment lines followed by `}` parse back to exactly the list of assigned names, in order and with repeats |
| GeneratedText.AssignmentsParseSound | src/com/idea/plugin/builder/BuilderGenerator.java:40-43 | any text the assignment parser accepts is exactly the assignment lines of the names it returns, closed by `}` |
| GeneratedText.ConstructorRoundTrip | src/com/idea/plugin/builder/BuilderGenerator.java:38-46 | parsing the builder-constructor text gives back the owner and exactly the chosen fields' names, each once per occurrence, in list order |
| GeneratedText.ConstructorParseSound | src/com/idea/plugin/builder/BuilderGenerator.java:38-46 | any text the constructor parser accepts is exactly the builder-constructor text of the owner and names it returns |
| GeneratedText.ConstructorIsNoFactory | src/com/idea/plugin/builder/BuilderGenerator.java:39 | a builder-constructor text is never read as a factory method |
| GeneratedText.FactoryIsNoConstructor | src/com/idea/plugin/builder/BuilderGenerator.java:49 | a factory-method text is never read as a builder constructor |
| Generation.MirrorMembersAppend | src/com/idea/plugin/builder/BuilderGenerator.java:63-66 | one more chosen field appends its private mirror field followed by its setter |
| Generation.MirrorMembersAt | src/com/idea/plugin/builder/BuilderGenerator.java:63-66 | for n fields there are 2n members; the private mirror of field i is at position 2i and its setter at 2i+1 |
| Generation.BuilderShape | src/com/idea/plugin/builder/BuilderGenerator.java:56-69 | the builder has 2n+2 members: the private no-argument constructor first, each field's private mirror immediately followed by its setter in list order, and `build()` last |
| Generation.MirrorFields | src/com/idea/plugin/builder/BuilderGenerator.java:78-82 | the fields among the mirrored members are exactly the chosen fields, with the same names and types, in order |
| Generation.BuilderFieldsAreChosen | src/com/idea/plugin/builder/BuilderGenerator.java:60-67 | the fields declared in the generated builder are exactly the chosen fields, in order |
| Generation.BuilderTextsDecode | src/com/idea/plugin/builder/BuilderGenerator.java:65-67 | each setter in the builder decodes to its own field, and `build()` decodes to the owner |
| Generation.GenerationAppends | src/com/idea/plugin/builder/BuilderGenerator.java:32-36 | one generation appends exactly three members and keeps the old ones at their positions. The three are the public final static `Builder` with the chosen fields; then a constructor assigning exactly the chosen field names in order, whatever an older builder holds; then the owner's factory method |
| Generation.GeneratedCounts | src/com/idea/plugin/builder/BuilderGenerator.java:32-36 | the three appended members are one `Builder` class, one builder constructor and one factory method |
| Generation.GeneratedTwice | src/com/idea/plugin/builder/BuilderGenerator.java:32-36 | two runs on the same owner add two `Builder` classes, two builder constructors and two factory methods, whatever fields each run chooses |
| Generation.BuilderGenerator.constructor | src/com/idea/plugin/builder/BuilderGenerator.java:16-20 | the generator keeps the owner and the chosen fields |
| Generation.BuilderGenerator.GenerateBuilderCode | src/com/idea/plugin/builder/BuilderGenerator.java:32-36 | the owner's members become the old ones followed by the builder class, the builder constructor and the factory method; the owner's modifiers are unchanged |
| Generation.BuilderGenerator.CreatePrivateConstructorWithBuilder | src/com/idea/plugin/builder/BuilderGenerator.java:38-46 | the loop builds the builder-constructor text, which is appended to the owner as one member |
| Generation.BuilderGenerator.CreateBuilderFactoryMethod | src/com/idea/plugin/builder/BuilderGenerator.java:48-54 | the factory method is appended to the owner as one member |
| Generation.BuilderGenerator.CreateBuilderClass | src/com/idea/plugin/builder/BuilderGenerator.java:56-69 | a public final static `Builder` holding the members `BuilderShape` describes is appended to the owner as one member; its constructor, public as created, is made private |
| Generation.BuilderGenerator.CreateBuildMethod | src/com/idea/plugin/builder/BuilderGenerator.java:71-76 | the result is the `build()` method of the owner |
| Generation.BuilderGenerator.CreateBuilderField | src/com/idea/plugin/builder/BuilderGenerator.java:78-82 | the result is a private field with the same name and type as the chosen field |
| Generation.BuilderGenerator.CreateBuilderMethod | src/com/idea/plugin/builder/BuilderGenerator.java:84-91 | the result is the setter method of the chosen field |
| Dialog.FindFieldByName | src/com/idea/plugin/builder/BuilderDialog.java:54 | a found field is in the list and has the name, and no field of that name comes before it; nothing is found exactly when no field has that name |
| Dialog.AdditionalSound | src/com/idea/plugin/builder/BuilderDialog.java:53-56 | every offered field is a declared field of the owner, so no inherited field is offered, and no builder field shares its name |
| Dialog.AdditionalComplete | src/com/idea/plugin/builder/BuilderDialog.java:53-57 | every declared field whose name the builder lacks is offered |
| Dialog.NameOnlyMatch | src/com/idea/plugin/builder/BuilderDialog.java:54 | a builder field with the same name excludes the owner field, whatever its type |
| Dialog.AdditionalOrder | src/com/idea/plugin/builder/BuilderDialog.java:52-59 | the offered fields are the declared fields at strictly increasing positions, exactly those whose names the builder lacks; a subsequence in declaration order |
| Dialog.AdditionalFields | src/com/idea/plugin/builder/BuilderDialog.java:51-60 | the loop's result is the declared fields filtered, in order, by the absence of a builder field of the same name |
| Dialog.GetFieldsToAdd | src/com/idea/plugin/builder/BuilderDialog.java:43-49 | with no `Builder` found, the result is all of the owner's fields, inherited ones included, in the same order; otherwise it is the filtered declared fields |
| Scenarios.GeneratedDeclaresNoField | src/com/idea/plugin/builder/BuilderGenerator.java:32-36 | generation adds no field directly to the owner |
| Scenarios.EligibilityAfterGeneration | src/com/idea/plugin/builder/BuilderDialog.java:43-59 | after a first generation, the dialog finds a `Builder` whose fields are the chosen ones and offers exactly the declared fields whose names were not chosen |
| Scenarios.LookupKeepsEarlierBuilder | src/com/idea/plugin/builder/BuilderGenerator.java:56-69 | when a `Builder` already exists, a further generation leaves the dialog's look-up on that earlier class |

## Left out

- `generate()` and its `WriteCommandAction` wrapper (BuilderGenerator.java:22-30) are left out. They are the host's undo and transaction machinery, so the model starts at `generateBuilderCode`.
- `PsiElementFactory` (`createClass`, `createConstructor`, `createField`, `createMethodFromText`) is a foreign library. A generated method is represented by its text, and modifiers by a set. `createMethodFromText` is assumed to parse the text faithfully. The model also takes what the factory returns to start as follows: the class from `createClass` is declared `public`, the constructor from `createConstructor` is `public`, and the field from `createField` is `private`.
- The inheritance resolution behind `getAllFields`, `getFields`, `findInnerClassByName("Builder", true)` and `findFieldByName(name, true)` lives in IntelliJ. The `Dialog` module takes these results as inputs (`ClassView`). `Scenarios` reads them off the owner's own members, which assumes a class without superclasses and a first-match look-up.
- `PsiType.getPresentableText` (used in the setter) and `getType` (used for the mirror field) are one type string in the model.
- Psi.WithModifier: only the access modifiers `public` and `private` are modelled. `protected` and package access, and the restrictions for interface members, are not. The generator sets `private` on a constructor that `createConstructor` made public (line 61) and on a field that `createField` already declares private (line 80).
- Psi.PsiClass.Add: the position where `add` inserts a member is chosen by IntelliJ. The model assumes it goes after the existing members. Adding a class is modelled as inserting a copy of it. Later changes to the added element are not modelled.
- Generation.BuilderGenerator: the model assumes a named owner class. For an anonymous class `getName()` returns null. Java then appends the word `null`, which at lines 39 and 72-73 stands where a name or a type belongs. `createBuilderClass` runs first (line 33) and creates the `public null build()` text at line 67. So the run fails there, before line 68 adds anything to the owner. The model's owner name is always a string.
- All of BuilderAction.java is left out: locating the class under the caret, enabling the action, and showing the dialog. Its one rule, generating only when the dialog is confirmed and the selection is non-empty (lines 23-27), belongs to the caller. The generator itself accepts an empty field list, and then it still appends a `Builder` holding only its private constructor and `build()`, a constructor without assignments and the factory method.
- The Swing parts of BuilderDialog.java are left out: the constructor (lines 25-41), `createCenterPanel` and `getFields`. They are presentation and selection.
- GeneratedText.SetterRoundTrip, GeneratedText.BuildRoundTrip, GeneratedText.FactoryRoundTrip, GeneratedText.AssignLineRoundTrip, GeneratedText.AssignmentsRoundTrip, GeneratedText.ConstructorRoundTrip: these require the owner and field names to be identifiers (ASCII letters, digits, `_`, `$`, or non-ASCII characters), but the code builds a text for any name. No condition is placed on type texts.
- Generation.BuilderTextsDecode, Generation.GenerationAppends, Generation.GeneratedCounts, Generation.GeneratedTwice: these carry the same identifier requirement, inherited from the round trips they use.
- Reuse of an existing `Builder`, deletion of a stale builder constructor, and skipping an existing factory method are not modelled. The code does none of them.
