/**
  What inspecting a view-model type produces, as functions of its member list: the
  properties to generate, the commands to generate, the invalidation index keyed by method
  name, and each command's affecting properties. The imperative inspector is proved equal
  to these; the lemmas state what the definitions mean.
 */
module InspectionSpec {
  import opened Wrappers
  import opened Symbols
  import opened Arguments
  import opened Naming
  import opened NameLists
  import opened GenerationModel

  // ---------------------------------------------------------------- properties

  /** The name a [Property] attribute gives explicitly: its last constructor argument,
      overridden by its named `PropertyName` arguments; None leaves it to the convention. */
  function ResolvedPropertyName(attr: Annotation): Option<string>
  {
    NamedValue(LastValue(attr.constructorArguments), attr.namedArguments, "PropertyName")
  }

  /** A field whose property name is defined: no [Property] attribute, an explicit name,
      or a field name the convention accepts. */
  predicate NameResolvable(m: Member)
  {
    m.Field? ==>
      var attr := FirstOfKind(m.annotations, PropertyAttribute);
      attr.None? || ResolvedPropertyName(attr.value).Some? || HasDefaultName(m.name)
  }

  /** The name of the property generated for field `fieldName` carrying `attr`. */
  function PropertyName(fieldName: string, attr: Annotation): string
    requires ResolvedPropertyName(attr).Some? || HasDefaultName(fieldName)
  {
    match ResolvedPropertyName(attr)
    case Some(name) => name
    case None => DefaultPropertyName(fieldName)
  }

  /** How the name is chosen: the last `PropertyName` named argument with a value wins;
      without one, the last constructor argument with a value; failing both, the naming
      convention applied to the field name. */
  lemma PropertyNameMeaning(fieldName: string, attr: Annotation)
    requires ResolvedPropertyName(attr).Some? || HasDefaultName(fieldName)
    ensures forall j :: IsLastWithKey(attr.namedArguments, j, "PropertyName") && attr.namedArguments[j].value.Some? ==>
              PropertyName(fieldName, attr) == attr.namedArguments[j].value.value
    ensures NoneWithKey(attr.namedArguments, "PropertyName") && attr.constructorArguments != [] &&
            attr.constructorArguments[|attr.constructorArguments| - 1].Some? ==>
              PropertyName(fieldName, attr) == attr.constructorArguments[|attr.constructorArguments| - 1].value
    ensures ResolvedPropertyName(attr).None? ==> PropertyName(fieldName, attr) == DefaultPropertyName(fieldName)
  {
    NamedValueMeaning(LastValue(attr.constructorArguments), attr.namedArguments, "PropertyName");
  }

  /** The event an [OnChangePublishEvent] attribute adds, if its event type is non-empty. */
  function EventOf(attr: Annotation): Option<EventToPublish>
  {
    match FirstValue(attr.constructorArguments)
    case Some(eventType) =>
      if |eventType| > 0 then
        Some(EventToPublish(eventType,
                            NamedValue(None, attr.namedArguments, "EventConstructorArgs"),
                            NamedValue(None, attr.namedArguments, "EventAggregatorMemberName")))
      else None
    case None => None
  }

  /** The method call an [OnChangeCallMethod] attribute adds, if its method name is non-empty. */
  function MethodOf(attr: Annotation): Option<MethodToCall>
  {
    match FirstValue(attr.constructorArguments)
    case Some(methodName) =>
      if |methodName| > 0 then Some(MethodToCall(methodName, NamedValue(None, attr.namedArguments, "MethodArgs")))
      else None
    case None => None
  }

  /** An event is added exactly when the first constructor value is present and non-empty;
      each optional part is the last matching named argument's value, absent if none. */
  lemma EventOfMeaning(attr: Annotation)
    ensures EventOf(attr).Some? <==> FirstValue(attr.constructorArguments).Some? && FirstValue(attr.constructorArguments).value != ""
    ensures EventOf(attr).Some? ==>
              EventOf(attr).value.eventType == FirstValue(attr.constructorArguments).value &&
              (NoneWithKey(attr.namedArguments, "EventConstructorArgs") ==> EventOf(attr).value.eventConstructorArgs.None?) &&
              (NoneWithKey(attr.namedArguments, "EventAggregatorMemberName") ==> EventOf(attr).value.eventAggregatorMemberName.None?) &&
              (forall j :: IsLastWithKey(attr.namedArguments, j, "EventConstructorArgs") ==>
                 EventOf(attr).value.eventConstructorArgs == attr.namedArguments[j].value) &&
              (forall j :: IsLastWithKey(attr.namedArguments, j, "EventAggregatorMemberName") ==>
                 EventOf(attr).value.eventAggregatorMemberName == attr.namedArguments[j].value)
  {
    NamedValueMeaning(None, attr.namedArguments, "EventConstructorArgs");
    NamedValueMeaning(None, attr.namedArguments, "EventAggregatorMemberName");
  }

  /** A method call is added exactly when the first constructor value is present and
      non-empty; its arguments are the last `MethodArgs` named argument's value, absent if none. */
  lemma MethodOfMeaning(attr: Annotation)
    ensures MethodOf(attr).Some? <==> FirstValue(attr.constructorArguments).Some? && FirstValue(attr.constructorArguments).value != ""
    ensures MethodOf(attr).Some? ==>
              MethodOf(attr).value.methodName == FirstValue(attr.constructorArguments).value &&
              (NoneWithKey(attr.namedArguments, "MethodArgs") ==> MethodOf(attr).value.methodArgs.None?) &&
              (forall j :: IsLastWithKey(attr.namedArguments, j, "MethodArgs") ==>
                 MethodOf(attr).value.methodArgs == attr.namedArguments[j].value)
  {
    NamedValueMeaning(None, attr.namedArguments, "MethodArgs");
  }

  /** The entry an optional result contributes: one or none. */
  function Entries<T>(o: Option<T>): seq<T>
  {
    match o
    case Some(x) => [x]
    case None => []
  }

  /** The entries `read` makes of the attributes that yield one, in declaration order. */
  function Collect<T>(attrs: seq<Annotation>, read: Annotation -> Option<T>): seq<T>
    decreases |attrs|
  {
    if attrs == [] then []
    else
      var k := |attrs| - 1;
      Collect(attrs[..k], read) + Entries(read(attrs[k]))
  }

  /** The property generated for a field, if it carries a [Property] attribute. */
  function PropertyOf(m: Member): (r: Option<PropertyToGenerate>)
    requires m.Field? && NameResolvable(m)
    ensures r.Some? <==> FirstOfKind(m.annotations, PropertyAttribute).Some?
    ensures r.Some? ==> r.value.backingField == m.name && r.value.propertyType == m.fieldType
    ensures r.Some? ==> r.value.propertyName == PropertyName(m.name, FirstOfKind(m.annotations, PropertyAttribute).value)
  {
    match FirstOfKind(m.annotations, PropertyAttribute)
    case None => None
    case Some(attr) =>
      Some(PropertyToGenerate(
        PropertyName(m.name, attr), m.fieldType, m.name,
        Collect(OfKind(m.annotations, OnChangePublishEventAttribute), EventOf),
        Collect(OfKind(m.annotations, OnChangeCallMethodAttribute), MethodOf)))
  }

  /** What one member contributes to the properties: nothing unless it is a field. */
  function MemberProperties(m: Member): seq<PropertyToGenerate>
    requires NameResolvable(m)
  {
    if m.Field? then Entries(PropertyOf(m)) else []
  }

  /** The properties generated for a member list, in member order. */
  function Properties(members: seq<Member>): seq<PropertyToGenerate>
    requires forall m :: m in members ==> NameResolvable(m)
    decreases |members|
  {
    if members == [] then []
    else
      var k := |members| - 1;
      Properties(members[..k]) + MemberProperties(members[k])
  }

  // ---------------------------------------------------------------- commands

  /** The command declared by a method, if it carries a [Command] attribute. */
  function CommandOf(m: Member): (r: Option<CommandDecl>)
    requires m.Method?
    ensures r.Some? <==> FirstOfKind(m.annotations, CommandAttribute).Some?
    ensures r.Some? ==> r.value.executeMethod == m.name
  {
    match FirstOfKind(m.annotations, CommandAttribute)
    case None => None
    case Some(attr) =>
      Some(CommandDecl(
        m.name,
        NamedValue(Some(m.name + "Command"), attr.namedArguments, "CommandName"),
        NamedValue(FirstValue(attr.constructorArguments), attr.namedArguments, "CanExecuteMethod")))
  }

  /** How a command's parts are chosen: the command name defaults to the method name plus
      "Command" and the can-execute method to the first constructor argument; the last
      `CommandName` or `CanExecuteMethod` named argument overrides each, a null value included. */
  lemma CommandOfMeaning(m: Member)
    requires m.Method? && FirstOfKind(m.annotations, CommandAttribute).Some?
    ensures var attr := FirstOfKind(m.annotations, CommandAttribute).value;
            (NoneWithKey(attr.namedArguments, "CommandName") ==> CommandOf(m).value.commandName == Some(m.name + "Command")) &&
            (NoneWithKey(attr.namedArguments, "CanExecuteMethod") ==>
               CommandOf(m).value.canExecuteMethod == FirstValue(attr.constructorArguments)) &&
            (forall j :: IsLastWithKey(attr.namedArguments, j, "CommandName") ==>
               CommandOf(m).value.commandName == attr.namedArguments[j].value) &&
            (forall j :: IsLastWithKey(attr.namedArguments, j, "CanExecuteMethod") ==>
               CommandOf(m).value.canExecuteMethod == attr.namedArguments[j].value)
  {
    var attr := FirstOfKind(m.annotations, CommandAttribute).value;
    NamedValueMeaning(Some(m.name + "Command"), attr.namedArguments, "CommandName");
    NamedValueMeaning(FirstValue(attr.constructorArguments), attr.namedArguments, "CanExecuteMethod");
  }

  /** What one member contributes to the commands: nothing unless it is a method. */
  function MemberCommands(m: Member): seq<CommandDecl>
  {
    if m.Method? then Entries(CommandOf(m)) else []
  }

  /** The commands declared by a member list, in member order. */
  function CommandDecls(members: seq<Member>): seq<CommandDecl>
    decreases |members|
  {
    if members == [] then []
    else
      var k := |members| - 1;
      CommandDecls(members[..k]) + MemberCommands(members[k])
  }

  // ---------------------------------------------------------------- invalidation index

  type Index = map<string, seq<string>>

  /** The index entry of a method name, or nothing; also nothing for an absent name. */
  function Lookup(index: Index, methodName: Option<string>): seq<string>
  {
    if methodName.Some? && methodName.value in index then index[methodName.value] else []
  }

  /** The non-empty property names extracted from [CommandInvalidate] attributes, in order. */
  function InvalidatedNames(attrs: seq<Annotation>): seq<string>
    decreases |attrs|
  {
    if attrs == [] then []
    else
      var k := |attrs| - 1;
      InvalidatedNames(attrs[..k]) + NonEmptyText(attrs[k])
  }

  /** The extracted names are exactly the non-empty extracted texts. */
  lemma {:induction false} InvalidatedNamesContents(attrs: seq<Annotation>)
    ensures forall x :: x in InvalidatedNames(attrs) <==>
              x != "" && exists i :: 0 <= i < |attrs| && attrs[i].argumentText == Some(x)
    decreases |attrs|
  {
    if attrs != [] {
      var k := |attrs| - 1;
      InvalidatedNamesContents(attrs[..k]);
      assert forall i :: 0 <= i < k ==> attrs[..k][i] == attrs[i];
    }
  }

  /** The property name one [CommandInvalidate] attribute yields: its extracted text, if non-empty. */
  function NonEmptyText(attr: Annotation): seq<string>
  {
    match attr.argumentText
    case Some(name) => if |name| > 0 then [name] else []
    case None => []
  }

  /** The extracted names read from the front: the first attribute's name, then the rest. */
  lemma {:induction false} InvalidatedNamesFront(attrs: seq<Annotation>)
    requires attrs != []
    ensures InvalidatedNames(attrs) == NonEmptyText(attrs[0]) + InvalidatedNames(attrs[1..])
    decreases |attrs|
  {
    var k := |attrs| - 1;
    if k == 0 {
      assert attrs[..k] == [] && attrs[1..] == [];
    } else {
      InvalidatedNamesFront(attrs[..k]);
      assert attrs[..k][1..] == attrs[1..][..k - 1];
      assert attrs[..k][0] == attrs[0] && attrs[1..][k - 1] == attrs[k];
    }
  }

  /** One [CommandInvalidate] attribute's effect on a method's entry: its extracted name is
      appended unless it is absent, empty or already there. */
  function AddInvalidatedName(entry: seq<string>, attr: Annotation): seq<string>
  {
    if attr.argumentText.Some? && |attr.argumentText.value| > 0 && attr.argumentText.value !in entry
    then entry + [attr.argumentText.value]
    else entry
  }

  /** The effect of a method's [CommandInvalidate] attributes, one after the other. */
  function AddInvalidatedNames(entry: seq<string>, attrs: seq<Annotation>): seq<string>
    decreases |attrs|
  {
    if attrs == [] then entry else AddInvalidatedNames(AddInvalidatedName(entry, attrs[0]), attrs[1..])
  }

  /** Adding the attributes' names one at a time is appending the new extracted names. */
  lemma {:induction false} AddInvalidatedNamesIsAppendNew(entry: seq<string>, attrs: seq<Annotation>)
    ensures AddInvalidatedNames(entry, attrs) == AppendNew(entry, InvalidatedNames(attrs))
    decreases |attrs|
  {
    if attrs != [] {
      var text := NonEmptyText(attrs[0]);
      AddInvalidatedNamesIsAppendNew(AddInvalidatedName(entry, attrs[0]), attrs[1..]);
      assert AddInvalidatedName(entry, attrs[0]) == AppendNew(entry, text) by {
        if text != [] {
          AppendNewOne(entry, attrs[0].argumentText.value);
        }
      }
      AppendNewConcat(entry, text, InvalidatedNames(attrs[1..]));
      InvalidatedNamesFront(attrs);
    }
  }

  /** The index after scanning one method: a method with at least one [CommandInvalidate]
      attribute gets an entry (possibly empty) extended by its names, unless already there. */
  function IndexAfterMethod(index: Index, m: Member): Index
    requires m.Method?
  {
    var attrs := OfKind(m.annotations, CommandInvalidateAttribute);
    if attrs == [] then index
    else index[m.name := AppendNew(Lookup(index, Some(m.name)), InvalidatedNames(attrs))]
  }

  /** Scanning a method adds its name as a key when it has a [CommandInvalidate] attribute
      and leaves the entries of all other method names as they were. */
  lemma IndexAfterMethodFrame(index: Index, m: Member)
    requires m.Method?
    ensures IndexAfterMethod(index, m).Keys ==
              index.Keys + if OfKind(m.annotations, CommandInvalidateAttribute) != [] then {m.name} else {}
    ensures forall n :: n in index && n != m.name ==> IndexAfterMethod(index, m)[n] == index[n]
  {
  }

  /** The index after scanning one member: only methods change it. */
  function IndexAfterMember(index: Index, m: Member): Index
  {
    if m.Method? then IndexAfterMethod(index, m) else index
  }

  /** The index built from all methods of a member list. */
  function BuildIndex(members: seq<Member>): Index
    decreases |members|
  {
    if members == [] then map[]
    else
      var k := |members| - 1;
      IndexAfterMember(BuildIndex(members[..k]), members[k])
  }

  /** The list of properties whose change refreshes a command: the can-execute method's
      entry first, then the execute method's names not already present. */
  function AffectingProperties(index: Index, c: CommandDecl): seq<string>
  {
    AppendNew(AppendNew([], Lookup(index, c.canExecuteMethod)), Lookup(index, Some(c.executeMethod)))
  }

  // ---------------------------------------------------------------- order

  /** Splitting off the last element of a concatenation. */
  lemma LastSplit<T>(a: seq<T>, b: seq<T>)
    requires b != []
    ensures (a + b)[..|a + b| - 1] == a + b[..|b| - 1]
    ensures (a + b)[|a + b| - 1] == b[|b| - 1]
  {
  }

  /** Every collected entry comes from one attribute, at most one per attribute. */
  lemma {:induction false} CollectEntries<T>(attrs: seq<Annotation>, read: Annotation -> Option<T>)
    ensures |Collect(attrs, read)| <= |attrs|
    ensures forall x :: x in Collect(attrs, read) ==> exists i :: 0 <= i < |attrs| && read(attrs[i]) == Some(x)
    decreases |attrs|
  {
    if attrs != [] {
      var k := |attrs| - 1;
      CollectEntries(attrs[..k], read);
      forall x | x in Collect(attrs, read)
        ensures exists i :: 0 <= i < |attrs| && read(attrs[i]) == Some(x)
      {
        if x in Collect(attrs[..k], read) {
          var i :| 0 <= i < k && read(attrs[..k][i]) == Some(x);
          assert attrs[..k][i] == attrs[i];
        } else {
          assert read(attrs[k]) == Some(x);
        }
      }
    }
  }

  /** When every attribute yields an entry, the entries line up with the attributes. */
  lemma {:induction false} CollectAll<T>(attrs: seq<Annotation>, read: Annotation -> Option<T>)
    requires forall i :: 0 <= i < |attrs| ==> read(attrs[i]).Some?
    ensures |Collect(attrs, read)| == |attrs|
    ensures forall i :: 0 <= i < |attrs| ==> read(attrs[i]) == Some(Collect(attrs, read)[i])
    decreases |attrs|
  {
    if attrs != [] {
      var k := |attrs| - 1;
      assert forall i :: 0 <= i < k ==> attrs[..k][i] == attrs[i];
      CollectAll(attrs[..k], read);
    }
  }

  /** One more attribute in a left-to-right scan. */
  lemma CollectStep<T>(attrs: seq<Annotation>, j: nat, read: Annotation -> Option<T>)
    requires j < |attrs|
    ensures Collect(attrs[..j + 1], read) == Collect(attrs[..j], read) + Entries(read(attrs[j]))
  {
    assert attrs[..j + 1][..j] == attrs[..j];
  }

  /** One more member in a left-to-right scan. */
  lemma ScanStep(members: seq<Member>, i: nat)
    requires i < |members|
    requires forall m :: m in members ==> NameResolvable(m)
    ensures Properties(members[..i + 1]) == Properties(members[..i]) + MemberProperties(members[i])
    ensures CommandDecls(members[..i + 1]) == CommandDecls(members[..i]) + MemberCommands(members[i])
    ensures BuildIndex(members[..i + 1]) == IndexAfterMember(BuildIndex(members[..i]), members[i])
  {
    assert members[..i + 1][..i] == members[..i];
  }

  /** Collecting distributes over concatenation: entries follow attribute order. */
  lemma {:induction false} CollectConcat<T>(a: seq<Annotation>, b: seq<Annotation>, read: Annotation -> Option<T>)
    ensures Collect(a + b, read) == Collect(a, read) + Collect(b, read)
    decreases |b|
  {
    if b == [] {
      assert a + b == a;
    } else {
      var k := |b| - 1;
      CollectConcat(a, b[..k], read);
      LastSplit(a, b);
    }
  }

  /** The properties of two consecutive runs of members are those of the first run
      followed by those of the second. */
  lemma {:induction false} PropertiesConcat(a: seq<Member>, b: seq<Member>)
    requires forall m :: m in a + b ==> NameResolvable(m)
    ensures Properties(a + b) == Properties(a) + Properties(b)
    decreases |b|
  {
    if b == [] {
      assert a + b == a;
    } else {
      var k := |b| - 1;
      LastSplit(a, b);
      PropertiesConcat(a, b[..k]);
    }
  }

  /** The commands of two consecutive runs of members are those of the first run
      followed by those of the second. */
  lemma {:induction false} CommandDeclsConcat(a: seq<Member>, b: seq<Member>)
    ensures CommandDecls(a + b) == CommandDecls(a) + CommandDecls(b)
    decreases |b|
  {
    if b == [] {
      assert a + b == a;
    } else {
      var k := |b| - 1;
      LastSplit(a, b);
      CommandDeclsConcat(a, b[..k]);
    }
  }

  /** The output lists follow member order: what member `i` contributes sits between the
      contributions of the members before it and those after it. */
  lemma MemberOrder(members: seq<Member>, i: nat)
    requires i < |members|
    requires forall m :: m in members ==> NameResolvable(m)
    ensures Properties(members) ==
              Properties(members[..i]) + MemberProperties(members[i]) + Properties(members[i + 1..])
    ensures CommandDecls(members) ==
              CommandDecls(members[..i]) + MemberCommands(members[i]) + CommandDecls(members[i + 1..])
  {
    assert members == members[..i + 1] + members[i + 1..];
    PropertiesConcat(members[..i + 1], members[i + 1..]);
    CommandDeclsConcat(members[..i + 1], members[i + 1..]);
    ScanStep(members, i);
  }

  // ---------------------------------------------------------------- the index

  /** The member is a method of that name with at least one [CommandInvalidate] attribute. */
  predicate DeclaresInvalidation(m: Member, methodName: string)
  {
    m.Method? && m.name == methodName && OfKind(m.annotations, CommandInvalidateAttribute) != []
  }

  /** The member is a method of that name naming that property in a [CommandInvalidate] attribute. */
  predicate Invalidates(m: Member, methodName: string, propertyName: string)
  {
    m.Method? && m.name == methodName &&
    propertyName in InvalidatedNames(OfKind(m.annotations, CommandInvalidateAttribute))
  }

  /** No entry holds an empty name or a name twice. */
  predicate IndexValid(index: Index)
  {
    forall n :: n in index ==> NoDuplicates(index[n]) && "" !in index[n]
  }

  /** Every index built from members is valid. */
  lemma {:induction false} BuildIndexValid(members: seq<Member>)
    ensures IndexValid(BuildIndex(members))
    decreases |members|
  {
    if members != [] {
      var k := |members| - 1;
      BuildIndexValid(members[..k]);
      var m := members[k];
      if m.Method? {
        IndexAfterMethodFrame(BuildIndex(members[..k]), m);
      }
      if m.Method? && OfKind(m.annotations, CommandInvalidateAttribute) != [] {
        var attrs := OfKind(m.annotations, CommandInvalidateAttribute);
        InvalidatedNamesContents(attrs);
        AppendNewContents(Lookup(BuildIndex(members[..k]), Some(m.name)), InvalidatedNames(attrs));
      }
    }
  }

  /** Scanning one member gives a method name an entry exactly when it had one or the member
      is a method of that name with a [CommandInvalidate] attribute. */
  lemma IndexAfterMemberKeys(index: Index, m: Member, methodName: string)
    ensures methodName in IndexAfterMember(index, m) <==> methodName in index || DeclaresInvalidation(m, methodName)
  {
  }

  /** A method name has an entry exactly when some method of that name carries a
      [CommandInvalidate] attribute, even if none of its names is usable. */
  lemma {:induction false} BuildIndexKeys(members: seq<Member>, methodName: string)
    ensures methodName in BuildIndex(members) <==>
              exists i :: 0 <= i < |members| && DeclaresInvalidation(members[i], methodName)
    decreases |members|
  {
    if members != [] {
      var k := |members| - 1;
      BuildIndexKeys(members[..k], methodName);
      IndexAfterMemberKeys(BuildIndex(members[..k]), members[k], methodName);
      assert forall i :: 0 <= i < k ==> members[..k][i] == members[i];
    }
  }

  /** Scanning one member adds to an entry exactly the names that member invalidates. */
  lemma IndexAfterMemberEntries(index: Index, m: Member, methodName: string, propertyName: string)
    ensures propertyName in Lookup(IndexAfterMember(index, m), Some(methodName)) <==>
              propertyName in Lookup(index, Some(methodName)) || Invalidates(m, methodName, propertyName)
  {
    if m.Method? {
      AppendNewContents(Lookup(index, Some(m.name)), InvalidatedNames(OfKind(m.annotations, CommandInvalidateAttribute)));
    }
  }

  /** A property is in a method's entry exactly when some method of that name names it in
      a [CommandInvalidate] attribute, wherever that method stands in the member list. */
  lemma {:induction false} BuildIndexEntries(members: seq<Member>, methodName: string, propertyName: string)
    ensures propertyName in Lookup(BuildIndex(members), Some(methodName)) <==>
              exists i :: 0 <= i < |members| && Invalidates(members[i], methodName, propertyName)
    decreases |members|
  {
    if members != [] {
      var k := |members| - 1;
      BuildIndexEntries(members[..k], methodName, propertyName);
      IndexAfterMemberEntries(BuildIndex(members[..k]), members[k], methodName, propertyName);
      assert forall i :: 0 <= i < k ==> members[..k][i] == members[i];
    }
  }

  /** The names a member invalidates for a method name: those of its [CommandInvalidate]
      attributes when it is a method of that name, nothing otherwise. */
  function MemberNamesFor(m: Member, methodName: string): seq<string>
  {
    if m.Method? && m.name == methodName then InvalidatedNames(OfKind(m.annotations, CommandInvalidateAttribute))
    else []
  }

  /** The names invalidated for a method name by a member list, in member order and with
      repetitions. */
  function NamesFor(members: seq<Member>, methodName: string): seq<string>
    decreases |members|
  {
    if members == [] then []
    else
      var k := |members| - 1;
      NamesFor(members[..k], methodName) + MemberNamesFor(members[k], methodName)
  }

  /** A method's entry lists the names invalidated for it in the order the members and
      their attributes are declared, each name where it is first seen. */
  lemma {:induction false} BuildIndexOrder(members: seq<Member>, methodName: string)
    ensures Lookup(BuildIndex(members), Some(methodName)) == AppendNew([], NamesFor(members, methodName))
    decreases |members|
  {
    if members != [] {
      var k := |members| - 1;
      var m := members[k];
      var before := BuildIndex(members[..k]);
      BuildIndexOrder(members[..k], methodName);
      if m.Method? {
        IndexAfterMethodFrame(before, m);
        var attrs := OfKind(m.annotations, CommandInvalidateAttribute);
        if m.name == methodName {
          if attrs == [] {
            assert NamesFor(members, methodName) == NamesFor(members[..k], methodName);
          } else {
            AppendNewConcat([], NamesFor(members[..k], methodName), InvalidatedNames(attrs));
          }
        } else {
          assert Lookup(BuildIndex(members), Some(methodName)) == Lookup(before, Some(methodName));
          assert NamesFor(members, methodName) == NamesFor(members[..k], methodName);
        }
      } else {
        assert NamesFor(members, methodName) == NamesFor(members[..k], methodName);
      }
    }
  }

  // ---------------------------------------------------------------- linking

  /** The affecting properties are the duplicate-free concatenation of the can-execute
      method's entry and the execute method's entry, with the can-execute entry first. */
  lemma AffectingPropertiesShape(index: Index, c: CommandDecl)
    ensures AffectingProperties(index, c) ==
              AppendNew([], Lookup(index, c.canExecuteMethod) + Lookup(index, Some(c.executeMethod)))
    ensures NoDuplicates(AffectingProperties(index, c))
    ensures forall x :: x in AffectingProperties(index, c) <==>
              x in Lookup(index, c.canExecuteMethod) || x in Lookup(index, Some(c.executeMethod))
    ensures IndexValid(index) ==>
              |Lookup(index, c.canExecuteMethod)| <= |AffectingProperties(index, c)| &&
              AffectingProperties(index, c)[..|Lookup(index, c.canExecuteMethod)|] == Lookup(index, c.canExecuteMethod)
  {
    AppendNewConcat([], Lookup(index, c.canExecuteMethod), Lookup(index, Some(c.executeMethod)));
    AppendNewContents([], Lookup(index, c.canExecuteMethod));
    AppendNewContents(AppendNew([], Lookup(index, c.canExecuteMethod)), Lookup(index, Some(c.executeMethod)));
    if IndexValid(index) {
      AppendNewDistinct(Lookup(index, c.canExecuteMethod));
    }
  }

  /** After all members are scanned, a command is affected by exactly the properties that
      some member named like its execute or can-execute method invalidates, whether that
      member comes before or after the command's own method. */
  lemma AffectingPropertiesFromAnyMember(members: seq<Member>, c: CommandDecl, propertyName: string)
    ensures propertyName in AffectingProperties(BuildIndex(members), c) <==>
              exists i :: 0 <= i < |members| &&
                (Invalidates(members[i], c.executeMethod, propertyName) ||
                 (c.canExecuteMethod.Some? && Invalidates(members[i], c.canExecuteMethod.value, propertyName)))
  {
    AffectingPropertiesShape(BuildIndex(members), c);
    BuildIndexEntries(members, c.executeMethod, propertyName);
    if c.canExecuteMethod.Some? {
      BuildIndexEntries(members, c.canExecuteMethod.value, propertyName);
    }
  }
}
