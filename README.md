# MvvmGen view-model member inspector, modelled in Dafny

MvvmGen is a C# source generator for MVVM view models. For one class marked as a view model,
the member inspector reads the members in declaration order and decides two things:

- which properties to generate, one per field carrying `[Property]`;
- which commands to generate, one per method carrying `[Command]`.

It works in two passes.

1. A single scan over the members does three things:
   - It builds each property. The property name comes from the `PropertyName` named argument, else the constructor argument, else a naming convention on the field name. The property also gets the events to publish (`[OnChangePublishEvent]`) and the methods to call (`[OnChangeCallMethod]`) on change.
   - It builds each command's execute method, command name and can-execute method.
   - It fills an invalidation index. That is a dictionary from method name to a duplicate-free list of property names, filled from `[CommandInvalidate]` attributes.
2. A pass over the built commands sets each command's `CanExecuteAffectingProperties`. The list is the index entry of the command's can-execute method, followed by the names in its execute method's entry that are not already present.

The model is split into these modules:

- `Symbols` holds the input: members and attributes as datatypes, in place of the compiler's symbol API.
- `GenerationModel` holds the output.
  - `PropertyToGenerate`, `EventToPublish`, `MethodToCall` and `CommandDecl` are datatypes.
  - `CommandToGenerate` is a class, because phase 2 assigns its `canExecuteAffectingProperties` field in place.
- `Naming` holds the naming convention.
- `Arguments` holds the attribute-argument rules, "the last matching named argument wins" and "first attribute of a kind".
- `NameLists` holds the "append unless already present" rule. It is used both by the index and by the linking.
- `InspectionSpec` states what inspecting a member list produces, as functions of the list. Its lemmas state what those functions mean.
- `ViewModelMemberInspector` is the imperative inspector, the same loops as the C# code.
  - The C# lists and the dictionary are passed in and handed back as `seq`/`map` values.
  - Each method's postcondition ties its result to the `InspectionSpec` functions.
- `InspectionExamples` holds worked inputs.

Three consequences of the code are worth spelling out:

- **Order of the affecting properties.** The affecting list starts with the can-execute method's entry, then adds the execute method's names not already present (`ViewModelMemberInspector.cs:39-40`).
  - `AffectingPropertiesShape` proves the can-execute entry is a prefix of the result.
  - So a `Save` command with can-execute method `CanSave` gets `["LastName", "FirstName"]` when `CanSave` invalidates `LastName` and `FirstName` and `Save` invalidates `FirstName` (`SaveAffectingExample`).
- **The execute method's own entry counts.** The execute method is looked up too (line 40), so `[CommandInvalidate]` attributes on the command's own method make it affected by those properties.
- **Empty explicit names.** An explicit `""` given as `PropertyName` or as the constructor value is kept as the name; only null triggers the naming convention (line 71).

## Model

| member | source | states |
|---|---|---|
| Naming.DefaultPropertyName | src/MvvmGen.SourceGenerators/Inspectors/ViewModelMemberInspector.cs:71-88 | one leading `_` is stripped, else one leading `m_`, else nothing; then the first remaining character is upper-cased and the rest is kept; the result is never empty and never starts with a lower-case ASCII letter |
| Naming.DefaultPropertyNameExamples | src/MvvmGen.SourceGenerators/Inspectors/ViewModelMemberInspector.cs:73-87 | `_firstName`→`FirstName`, `m_foo`→`Foo`, `_f`→`F`, `_m_x`→`M_x` (only one prefix is stripped), `Name`→`Name` |
| Arguments.NamedValueMeaning | src/MvvmGen.SourceGenerators/Inspectors/ViewModelMemberInspector.cs:63-69 | a variable overwritten by each named argument with a given key ends as its initial value when no argument has the key, and otherwise as the value of the last such argument, a null value included |
| Arguments.FirstOfKind | src/MvvmGen.SourceGenerators/Inspectors/ViewModelMemberInspector.cs:50 | a found attribute has the requested kind |
| Arguments.FirstOfKindMeaning | src/MvvmGen.SourceGenerators/Inspectors/ViewModelMemberInspector.cs:50 | `FirstOrDefault` by kind: none exactly when no attribute has the kind; otherwise the attribute at the first index with that kind |
| Arguments.OfKind | src/MvvmGen.SourceGenerators/Inspectors/ViewModelMemberInspector.cs:94-95 | every selected attribute has the requested kind |
| Arguments.OfKindEmpty | src/MvvmGen.SourceGenerators/Inspectors/ViewModelMemberInspector.cs:175 | the selection is empty (`Any()` is false) exactly when no attribute has the kind |
| Arguments.OfKindConcat | src/MvvmGen.SourceGenerators/Inspectors/ViewModelMemberInspector.cs:94-95 | `Where` by kind keeps declaration order: selecting from two runs of attributes is selecting from each in turn |
| NameLists.AppendNewContents | src/MvvmGen.SourceGenerators/Inspectors/ViewModelMemberInspector.cs:204-209 | append-unless-present keeps the old list as a prefix, holds exactly the names of both inputs, appends only names absent from the old list, and keeps a duplicate-free list duplicate-free |
| NameLists.AppendNewOne | src/MvvmGen.SourceGenerators/Inspectors/ViewModelMemberInspector.cs:206-209 | one name is appended exactly when the list does not contain it |
| NameLists.AppendNewKeepsFirstSeenOrder | src/MvvmGen.SourceGenerators/Inspectors/ViewModelMemberInspector.cs:204-209 | appended names appear in the order of their first occurrence in the input |
| NameLists.AppendNewConcat | src/MvvmGen.SourceGenerators/Inspectors/ViewModelMemberInspector.cs:38-40 | appending two batches one after the other is appending their concatenation |
| NameLists.AppendNewDistinct | src/MvvmGen.SourceGenerators/Inspectors/ViewModelMemberInspector.cs:38-39 | a duplicate-free list appended to an empty list comes out unchanged |
| InspectionSpec.PropertyNameMeaning | src/MvvmGen.SourceGenerators/Inspectors/ViewModelMemberInspector.cs:56-88 | the last `PropertyName` named argument with a value gives the name; with no such argument, the last constructor value; with neither (null), the convention on the field name; an explicit `""` is kept |
| InspectionSpec.EventOfMeaning | src/MvvmGen.SourceGenerators/Inspectors/ViewModelMemberInspector.cs:96-114 | an event is produced exactly when the first constructor value is present and non-empty; its type is that value; `EventConstructorArgs` and `EventAggregatorMemberName` are each the last matching named argument's value, absent without one |
| InspectionSpec.MethodOfMeaning | src/MvvmGen.SourceGenerators/Inspectors/ViewModelMemberInspector.cs:117-132 | a method call is produced exactly when the first constructor value is present and non-empty; `MethodArgs` is the last matching named argument's value, absent without one |
| InspectionSpec.CollectEntries | src/MvvmGen.SourceGenerators/Inspectors/ViewModelMemberInspector.cs:96-133 | the event and method lists have at most one entry per attribute, each coming from one of the attributes |
| InspectionSpec.CollectAll | src/MvvmGen.SourceGenerators/Inspectors/ViewModelMemberInspector.cs:96-133 | when every attribute yields an entry, the list has one entry per attribute, in attribute order |
| InspectionSpec.CollectConcat | src/MvvmGen.SourceGenerators/Inspectors/ViewModelMemberInspector.cs:96-133 | the lists follow attribute declaration order: collecting two runs is collecting each in turn |
| InspectionSpec.PropertyOf | src/MvvmGen.SourceGenerators/Inspectors/ViewModelMemberInspector.cs:47-139 | a field yields a property exactly when it has a `[Property]` attribute; the property's backing field is the field name, its type the field's type string, and its name as `PropertyName` gives it for the first `[Property]` attribute |
| InspectionSpec.CommandOf | src/MvvmGen.SourceGenerators/Inspectors/ViewModelMemberInspector.cs:147-172 | a method yields a command exactly when it has a `[Command]` attribute, and the command's execute method is the method's name |
| InspectionSpec.CommandOfMeaning | src/MvvmGen.SourceGenerators/Inspectors/ViewModelMemberInspector.cs:153-166 | command name defaults to `<MethodName>Command`, can-execute method to the first constructor value; the last `CommandName` or `CanExecuteMethod` named argument overrides each, independently, a null value included |
| InspectionSpec.PropertiesConcat | src/MvvmGen.SourceGenerators/Inspectors/ViewModelMemberInspector.cs:24-34 | the properties of two runs of members are those of the first run followed by those of the second |
| InspectionSpec.CommandDeclsConcat | src/MvvmGen.SourceGenerators/Inspectors/ViewModelMemberInspector.cs:24-34 | the same for commands |
| InspectionSpec.MemberOrder | src/MvvmGen.SourceGenerators/Inspectors/ViewModelMemberInspector.cs:24-34 | both output lists follow member order: member `i`'s contribution sits between those of the members before and after it |
| InspectionSpec.InvalidatedNamesContents | src/MvvmGen.SourceGenerators/Inspectors/ViewModelMemberInspector.cs:201-204 | the names a method's `[CommandInvalidate]` attributes yield are exactly the non-empty extracted argument texts |
| InspectionSpec.AddInvalidatedNamesIsAppendNew | src/MvvmGen.SourceGenerators/Inspectors/ViewModelMemberInspector.cs:177-211 | processing the attributes one at a time (skip empty, skip present) is appending the new extracted names to the entry |
| InspectionSpec.IndexAfterMethodFrame | src/MvvmGen.SourceGenerators/Inspectors/ViewModelMemberInspector.cs:175-183 | scanning a method adds its name as a key exactly when it has a `[CommandInvalidate]` attribute and leaves every other method's entry unchanged |
| InspectionSpec.IndexAfterMemberKeys | src/MvvmGen.SourceGenerators/Inspectors/ViewModelMemberInspector.cs:175-183 | one member gives a name an entry exactly when it had one or the member is a method of that name with a `[CommandInvalidate]` attribute |
| InspectionSpec.BuildIndexKeys | src/MvvmGen.SourceGenerators/Inspectors/ViewModelMemberInspector.cs:175-183 | a method name has an index entry exactly when some method of that name carries a `[CommandInvalidate]` attribute, even when no extracted name is usable |
| InspectionSpec.BuildIndexValid | src/MvvmGen.SourceGenerators/Inspectors/ViewModelMemberInspector.cs:204-210 | no index entry contains an empty name or a name twice |
| InspectionSpec.IndexAfterMemberEntries | src/MvvmGen.SourceGenerators/Inspectors/ViewModelMemberInspector.cs:177-210 | one member adds to an entry exactly the names it invalidates |
| InspectionSpec.BuildIndexEntries | src/MvvmGen.SourceGenerators/Inspectors/ViewModelMemberInspector.cs:177-210 | a name is in a method's entry exactly when some method of that name names it in a `[CommandInvalidate]` attribute |
| InspectionSpec.BuildIndexOrder | src/MvvmGen.SourceGenerators/Inspectors/ViewModelMemberInspector.cs:24-34 | a method's entry lists the names invalidated for it by all same-named methods, in member order and then attribute order, each name kept only where it is first seen |
| InspectionSpec.AffectingPropertiesShape | src/MvvmGen.SourceGenerators/Inspectors/ViewModelMemberInspector.cs:36-42 | the affecting properties are the duplicate-free concatenation of the can-execute entry then the execute entry; they hold exactly the names of those two entries, no name twice, and the can-execute entry as a prefix; an absent method or missing entry contributes nothing |
| InspectionSpec.AffectingPropertiesFromAnyMember | src/MvvmGen.SourceGenerators/Inspectors/ViewModelMemberInspector.cs:24-42 | after the full scan, a command is affected by exactly the properties some method named like its execute or can-execute method invalidates, wherever that method stands in the member list |
| GenerationModel.CommandToGenerate.constructor | src/MvvmGen.SourceGenerators/Inspectors/ViewModelMemberInspector.cs:168-172 | a new command holds the execute method, command name and can-execute method given, and no affecting properties yet |
| ViewModelMemberInspector.Inspect | src/MvvmGen.SourceGenerators/Inspectors/ViewModelMemberInspector.cs:18-45 | the properties are `Properties(members)`; the commands are new, pairwise different objects carrying `CommandDecls(members)` in order, each with affecting properties computed from the index of all members |
| ViewModelMemberInspector.ScanMembers | src/MvvmGen.SourceGenerators/Inspectors/ViewModelMemberInspector.cs:21-34 | the member loop builds exactly `Properties`, `CommandDecls` (as new distinct objects) and `BuildIndex` of the members |
| ViewModelMemberInspector.ScanMember | src/MvvmGen.SourceGenerators/Inspectors/ViewModelMemberInspector.cs:26-33 | a method adds its command and index entries, a field its property, any other member nothing; earlier commands are kept |
| ViewModelMemberInspector.LinkCommands | src/MvvmGen.SourceGenerators/Inspectors/ViewModelMemberInspector.cs:36-42 | every command's affecting properties become `AffectingProperties` of the index and its declaration |
| ViewModelMemberInspector.FindPropertiesToGenerate | src/MvvmGen.SourceGenerators/Inspectors/ViewModelMemberInspector.cs:47-142 | appends `PropertyOf(field)` when it exists and nothing otherwise |
| ViewModelMemberInspector.ReadEventsToPublish | src/MvvmGen.SourceGenerators/Inspectors/ViewModelMemberInspector.cs:96-115 | the loop's list is the one `Collect` with `EventOf` defines |
| ViewModelMemberInspector.ReadEventToPublish | src/MvvmGen.SourceGenerators/Inspectors/ViewModelMemberInspector.cs:98-114 | one attribute's loop yields `EventOf(attr)` |
| ViewModelMemberInspector.ReadMethodsToCall | src/MvvmGen.SourceGenerators/Inspectors/ViewModelMemberInspector.cs:117-133 | the loop's list is the one `Collect` with `MethodOf` defines |
| ViewModelMemberInspector.ReadMethodToCall | src/MvvmGen.SourceGenerators/Inspectors/ViewModelMemberInspector.cs:119-132 | one attribute's loop yields `MethodOf(attr)` |
| ViewModelMemberInspector.FindCommandsToGenerate | src/MvvmGen.SourceGenerators/Inspectors/ViewModelMemberInspector.cs:144-213 | keeps the earlier commands, appends one new command with `CommandOf(method)` and no affecting properties when the method has `[Command]`, keeps the commands distinct, and updates the index to `IndexAfterMethod` |
| ViewModelMemberInspector.ReadCommandArguments | src/MvvmGen.SourceGenerators/Inspectors/ViewModelMemberInspector.cs:153-166 | the named-argument loop ends with the command name and can-execute method `CommandOf` defines |
| ViewModelMemberInspector.AddInvalidations | src/MvvmGen.SourceGenerators/Inspectors/ViewModelMemberInspector.cs:175-212 | the method's entry (created if missing) becomes the old entry with the new non-empty extracted names appended; other entries are unchanged |
| ViewModelMemberInspector.AddInvalidation | src/MvvmGen.SourceGenerators/Inspectors/ViewModelMemberInspector.cs:179-210 | one attribute: the entry is created if missing, and the extracted name is appended when non-empty and absent |
| ViewModelMemberInspector.AddPropertyNames | src/MvvmGen.SourceGenerators/Inspectors/ViewModelMemberInspector.cs:215-232 | appends the method's entry to the list, skipping present names; a null method name or one without an entry leaves the list as it was |
| InspectionExamples.InvalidatedNamesExample | src/MvvmGen.SourceGenerators/Inspectors/ViewModelMemberInspector.cs:201-209 | `[CommandInvalidate]` attributes naming `LastName` then `FirstName` yield those names in that order |
| InspectionExamples.SaveIndexExample | src/MvvmGen.SourceGenerators/Inspectors/ViewModelMemberInspector.cs:175-210 | scanning `Save` (invalidating `FirstName`) and `CanSave` (invalidating `LastName`, `FirstName`) gives the entries `["FirstName"]` and `["LastName", "FirstName"]` |
| InspectionExamples.SaveAffectingExample | src/MvvmGen.SourceGenerators/Inspectors/ViewModelMemberInspector.cs:36-42 | the `Save` command with can-execute method `CanSave` is affected by `["LastName", "FirstName"]`: the can-execute entry first, the repeated `FirstName` dropped |
| InspectionExamples.SaveCommandExample | src/MvvmGen.SourceGenerators/Inspectors/ViewModelMemberInspector.cs:151-172 | `[Command(CanExecuteMethod = "CanSave")]` on `Save` declares `SaveCommand` with can-execute method `CanSave` |
| InspectionExamples.FirstNameFieldExample | src/MvvmGen.SourceGenerators/Inspectors/ViewModelMemberInspector.cs:71-88 | `[Property] string _firstName` yields property `FirstName` of type `string` backed by `_firstName`, with no events or method calls |

## Left out

- The compiler's symbol API is replaced by the `Symbols` datatypes. This covers `GetMembers`, `GetAttributes` and matching `AttributeClass.ToDisplayString()` against `"MvvmGen.<Name>Attribute"`. Members other than fields and methods are `OtherMember` and contribute nothing.
- Attribute-argument text extraction is not modelled: `ApplicationSyntaxReference.GetSyntax()` and `GetStringValueFromAttributeArgument` (line 202). The extension method is not part of this model. Its result is given as `argumentText`, and `None` stands for a null result.
  - `ArgumentList.Arguments.First()` (line 202) on an empty argument list would throw. The model has no such case: an attribute whose text cannot be extracted simply has `None`.
- `fieldSymbol.Type.ToString()` and `Value?.ToString()` are given as strings, or `None` for null.
- Naming.DefaultPropertyName: upper-cases ASCII letters only. The source's `ToUpper` is culture-sensitive, and so is its `StartsWith`. The model uses ordinal prefix tests.
- Naming.DefaultPropertyName: for the field names `_` and `m_`, whose remainder is empty, the source throws at line 83. The model makes this a precondition instead: `HasDefaultName`, lifted to whole members as `NameResolvable`, which `Inspect` and `FindPropertiesToGenerate` require. The exception is not modelled.
- `CanExecuteAffectingProperties` is an array made by `ToArray()` in the source. It is a `seq` field here.
- `EventToPublish` and `MethodToCall` objects are mutated only while they are built. They are modelled as immutable values updated by copy.
- The C# lists and the dictionary are mutated in place through references the callers share. The model passes them in and hands them back as values, so aliasing of these collections is not modelled. The command objects are modelled as objects.
- The model classes (`PropertyToGenerate`, `CommandToGenerate` and the rest) are not part of this model as source files. Only the fields the inspector sets are modelled.
- These files are not modelled because they hold no inspector logic:
  - `src/MvvmGen/Attributes/CommandInvalidateAttribute.cs` is an attribute declaration;
  - `src/MvvmGen/Events/IEventAggregator.cs` is an interface;
  - `samples/Wpf/Sample.WpfApp/Events/Events.cs` holds sample records.
- Code emission from the inspected model, diagnostics, and the runtime command and event machinery are not part of this model.
