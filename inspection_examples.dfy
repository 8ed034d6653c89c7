/**
  Concrete members run through the specification: a `Save` command whose can-execute
  method is `CanSave`, the names their [CommandInvalidate] attributes yield, the index
  entries and affecting properties they lead to, and a field with a conventional name.
 */
module InspectionExamples {
  import opened Wrappers
  import opened Symbols
  import opened Arguments
  import opened GenerationModel
  import opened NameLists
  import opened InspectionSpec

  function Invalidate(propertyName: string): Annotation
  {
    Annotation(CommandInvalidateAttribute, [Some("")], [], Some(propertyName))
  }

  /** `[Command(CanExecuteMethod = "CanSave")] [CommandInvalidate(nameof(FirstName))] void Save()` */
  function SaveMethod(): Member
  {
    Method("Save", [Annotation(CommandAttribute, [], [NamedArgument("CanExecuteMethod", Some("CanSave"))], None),
                    Invalidate("FirstName")])
  }

  /** `[CommandInvalidate(nameof(LastName))] [CommandInvalidate(nameof(FirstName))] bool CanSave()` */
  function CanSaveMethod(): Member
  {
    Method("CanSave", [Invalidate("LastName"), Invalidate("FirstName")])
  }

  /** `[Property] string _firstName;` */
  function FirstNameField(): Member
  {
    Field("_firstName", "string", [Annotation(PropertyAttribute, [], [], None)])
  }

  /** The names each method's [CommandInvalidate] attributes yield, in order. */
  lemma InvalidatedNamesExample()
    ensures InvalidatedNames(OfKind(SaveMethod().annotations, CommandInvalidateAttribute)) == ["FirstName"]
    ensures InvalidatedNames(OfKind(CanSaveMethod().annotations, CommandInvalidateAttribute)) == ["LastName", "FirstName"]
  {
    assert OfKind(SaveMethod().annotations, CommandInvalidateAttribute) == [Invalidate("FirstName")];
    assert OfKind(CanSaveMethod().annotations, CommandInvalidateAttribute) == [Invalidate("LastName"), Invalidate("FirstName")];
    assert [Invalidate("FirstName")][..0] == [];
    assert [Invalidate("LastName"), Invalidate("FirstName")][..1] == [Invalidate("LastName")];
  }

  /** The `Save` command: default command name and the can-execute method from the named argument. */
  lemma SaveCommandExample()
    ensures CommandOf(SaveMethod()) == Some(CommandDecl("Save", Some("SaveCommand"), Some("CanSave")))
  {
    var named := [NamedArgument("CanExecuteMethod", Some("CanSave"))];
    assert named[..0] == [];
    assert "CanExecuteMethod"[1] != "CommandName"[1];
    assert "Save" + "Command" == "SaveCommand";
    assert NamedValue(Some("SaveCommand"), named, "CommandName") == Some("SaveCommand");
    assert NamedValue(None, named, "CanExecuteMethod") == Some("CanSave");
  }

  /** For two members, the names invalidated for a method name are the first member's
      followed by the second's. */
  lemma NamesForPair(a: Member, b: Member, methodName: string)
    ensures NamesFor([a, b], methodName) == MemberNamesFor(a, methodName) + MemberNamesFor(b, methodName)
  {
    assert [a, b][..1] == [a];
    assert [a][..0] == [];
    assert NamesFor([a], methodName) == NamesFor([], methodName) + MemberNamesFor(a, methodName);
  }

  /** What `Save` invalidates for its own name. */
  lemma SaveOwnNamesExample()
    ensures MemberNamesFor(SaveMethod(), "Save") == ["FirstName"]
  {
    InvalidatedNamesExample();
  }

  /** What `CanSave` invalidates for its own name. */
  lemma CanSaveOwnNamesExample()
    ensures MemberNamesFor(CanSaveMethod(), "CanSave") == ["LastName", "FirstName"]
  {
    InvalidatedNamesExample();
  }

  /** Neither method invalidates anything for the other's name. */
  lemma OtherNamesExample()
    ensures MemberNamesFor(SaveMethod(), "CanSave") == []
    ensures MemberNamesFor(CanSaveMethod(), "Save") == []
  {
    assert "Save" != "CanSave" by { assert "Save"[0] != "CanSave"[0]; }
  }

  /** The names invalidated for `Save` and for `CanSave`, in declaration order. */
  lemma SaveNamesForExample()
    ensures NamesFor([SaveMethod(), CanSaveMethod()], "Save") == ["FirstName"]
    ensures NamesFor([SaveMethod(), CanSaveMethod()], "CanSave") == ["LastName", "FirstName"]
  {
    SaveOwnNamesExample();
    CanSaveOwnNamesExample();
    OtherNamesExample();
    NamesForPair(SaveMethod(), CanSaveMethod(), "Save");
    NamesForPair(SaveMethod(), CanSaveMethod(), "CanSave");
  }

  /** The duplicate-free name lists of the example come out of `AppendNew` unchanged, and
      a repeated `FirstName` is dropped. */
  lemma AppendNewExample()
    ensures AppendNew([], ["FirstName"]) == ["FirstName"]
    ensures AppendNew([], ["LastName", "FirstName"]) == ["LastName", "FirstName"]
    ensures AppendNew([], ["LastName", "FirstName", "FirstName"]) == ["LastName", "FirstName"]
  {
    assert "LastName" != "FirstName" by { assert "LastName"[0] != "FirstName"[0]; }
    assert NoDuplicates(["FirstName"]);
    AppendNewDistinct(["FirstName"]);
    assert NoDuplicates(["LastName", "FirstName"]);
    AppendNewDistinct(["LastName", "FirstName"]);
    AppendNewConcat([], ["LastName", "FirstName"], ["FirstName"]);
    assert ["LastName", "FirstName"] + ["FirstName"] == ["LastName", "FirstName", "FirstName"];
    AppendNewOne(["LastName", "FirstName"], "FirstName");
  }

  /** The index entries of the `Save`/`CanSave` pair, in attribute order. */
  lemma SaveIndexExample()
    ensures Lookup(BuildIndex([SaveMethod(), CanSaveMethod()]), Some("Save")) == ["FirstName"]
    ensures Lookup(BuildIndex([SaveMethod(), CanSaveMethod()]), Some("CanSave")) == ["LastName", "FirstName"]
  {
    SaveNamesForExample();
    AppendNewExample();
    BuildIndexOrder([SaveMethod(), CanSaveMethod()], "Save");
    BuildIndexOrder([SaveMethod(), CanSaveMethod()], "CanSave");
  }

  /** The `Save` command is affected by `LastName` and then `FirstName`: the can-execute
      method's entry comes first, and the execute method's `FirstName` is already there. */
  lemma SaveAffectingExample()
    ensures AffectingProperties(BuildIndex([SaveMethod(), CanSaveMethod()]), CommandDecl("Save", Some("SaveCommand"), Some("CanSave")))
              == ["LastName", "FirstName"]
  {
    var index := BuildIndex([SaveMethod(), CanSaveMethod()]);
    var c := CommandDecl("Save", Some("SaveCommand"), Some("CanSave"));
    SaveIndexExample();
    AppendNewExample();
    AffectingPropertiesShape(index, c);
    assert Lookup(index, c.canExecuteMethod) + Lookup(index, Some(c.executeMethod)) == ["LastName", "FirstName", "FirstName"];
  }

  /** A `[Property]` field with a conventional name and no further attributes. */
  lemma FirstNameFieldExample()
    ensures PropertyOf(FirstNameField()) == Some(PropertyToGenerate("FirstName", "string", "_firstName", [], []))
  {
    Naming.DefaultPropertyNameExamples();
  }
}
