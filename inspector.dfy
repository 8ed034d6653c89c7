/**
  The member inspector: one scan over the members that builds the properties, the
  commands and the invalidation index, then one pass over the commands that links each to
  the properties affecting it. The lists and the dictionary the source fills in place are
  passed in and handed back as values; the command objects are updated in place.
 */
module ViewModelMemberInspector {
  import opened Wrappers
  import opened Symbols
  import opened Arguments
  import opened Naming
  import opened NameLists
  import opened GenerationModel
  import opened InspectionSpec

  /** The commands are pairwise different objects. */
  predicate Distinct(commands: seq<CommandToGenerate>)
  {
    forall i, j :: 0 <= i < j < |commands| ==> commands[i] != commands[j]
  }

  /** The commands carry these declarations, one for one. */
  predicate Declares(commands: seq<CommandToGenerate>, decls: seq<CommandDecl>)
  {
    |commands| == |decls| && forall j :: 0 <= j < |commands| ==> commands[j].Decl() == decls[j]
  }

  /** A run of commands extended by commands for further declarations. */
  lemma DeclaresExtend(a: seq<CommandToGenerate>, c: seq<CommandToGenerate>, d: seq<CommandDecl>, e: seq<CommandDecl>)
    requires |a| <= |c| && c[..|a|] == a
    requires Declares(a, d) && Declares(c[|a|..], e)
    ensures Declares(c, d + e)
  {
    assert c == a + c[|a|..];
  }

  /** Inspects the members of a view model: the properties generated for its fields and the
      commands generated for its methods, each command linked to the properties that
      invalidate its can-execute state. */
  method Inspect(members: seq<Member>) returns (commandsToGenerate: seq<CommandToGenerate>, propertiesToGenerate: seq<PropertyToGenerate>)
    requires forall m :: m in members ==> NameResolvable(m)
    ensures propertiesToGenerate == Properties(members)
    ensures Declares(commandsToGenerate, CommandDecls(members)) && Distinct(commandsToGenerate)
    ensures forall i :: 0 <= i < |commandsToGenerate| ==>
              fresh(commandsToGenerate[i]) &&
              commandsToGenerate[i].canExecuteAffectingProperties ==
                AffectingProperties(BuildIndex(members), CommandDecls(members)[i])
  {
    var propertyInvalidations;
    commandsToGenerate, propertiesToGenerate, propertyInvalidations := ScanMembers(members);
    LinkCommands(commandsToGenerate, propertyInvalidations);
  }

  /** The scan over the members: fields yield properties, methods yield commands and
      entries of the invalidation index. */
  method ScanMembers(members: seq<Member>)
    returns (commandsToGenerate: seq<CommandToGenerate>, propertiesToGenerate: seq<PropertyToGenerate>, propertyInvalidations: Index)
    requires forall m :: m in members ==> NameResolvable(m)
    ensures propertiesToGenerate == Properties(members)
    ensures propertyInvalidations == BuildIndex(members)
    ensures Declares(commandsToGenerate, CommandDecls(members)) && Distinct(commandsToGenerate)
    ensures forall i :: 0 <= i < |commandsToGenerate| ==> fresh(commandsToGenerate[i])
  {
    commandsToGenerate := [];
    propertiesToGenerate := [];
    propertyInvalidations := map[];
    var i := 0;
    while i < |members|
      invariant 0 <= i <= |members|
      invariant propertiesToGenerate == Properties(members[..i])
      invariant propertyInvalidations == BuildIndex(members[..i])
      invariant Declares(commandsToGenerate, CommandDecls(members[..i])) && Distinct(commandsToGenerate)
      invariant forall j :: 0 <= j < |commandsToGenerate| ==> fresh(commandsToGenerate[j])
    {
      ScanStep(members, i);
      ghost var before := commandsToGenerate;
      commandsToGenerate, propertiesToGenerate, propertyInvalidations :=
        ScanMember(members[i], commandsToGenerate, propertiesToGenerate, propertyInvalidations);
      DeclaresExtend(before, commandsToGenerate, CommandDecls(members[..i]), MemberCommands(members[i]));
      i := i + 1;
    }
    assert members[..i] == members;
  }

  /** One member of the scan: a method may add a command and an index entry, a field may
      add a property, any other member adds nothing. */
  method ScanMember(memberSymbol: Member, commandsToGenerate: seq<CommandToGenerate>,
                    propertiesToGenerate: seq<PropertyToGenerate>, propertyInvalidations: Index)
    returns (commands: seq<CommandToGenerate>, properties: seq<PropertyToGenerate>, invalidations: Index)
    requires NameResolvable(memberSymbol)
    ensures properties == propertiesToGenerate + MemberProperties(memberSymbol)
    ensures invalidations == IndexAfterMember(propertyInvalidations, memberSymbol)
    ensures |commandsToGenerate| <= |commands| && commands[..|commandsToGenerate|] == commandsToGenerate
    ensures Declares(commands[|commandsToGenerate|..], MemberCommands(memberSymbol))
    ensures Distinct(commandsToGenerate) ==> Distinct(commands)
    ensures forall j :: |commandsToGenerate| <= j < |commands| ==> fresh(commands[j])
  {
    commands, properties, invalidations := commandsToGenerate, propertiesToGenerate, propertyInvalidations;
    if memberSymbol.Method? {
      commands, invalidations := FindCommandsToGenerate(commandsToGenerate, propertyInvalidations, memberSymbol);
    } else if memberSymbol.Field? {
      properties := FindPropertiesToGenerate(memberSymbol, propertiesToGenerate);
    }
  }

  /** The pass over the commands: each command's affecting properties are the entry of its
      can-execute method followed by the new names of its execute method's entry. */
  method LinkCommands(commandsToGenerate: seq<CommandToGenerate>, propertyInvalidations: Index)
    requires Distinct(commandsToGenerate)
    modifies commandsToGenerate
    ensures forall j :: 0 <= j < |commandsToGenerate| ==>
              commandsToGenerate[j].canExecuteAffectingProperties ==
                AffectingProperties(propertyInvalidations, commandsToGenerate[j].Decl())
  {
    var k := 0;
    while k < |commandsToGenerate|
      invariant 0 <= k <= |commandsToGenerate|
      invariant forall j :: 0 <= j < k ==>
                  commandsToGenerate[j].canExecuteAffectingProperties ==
                    AffectingProperties(propertyInvalidations, commandsToGenerate[j].Decl())
    {
      var commandInfo := commandsToGenerate[k];
      var canExecuteAffectingProperties := [];
      canExecuteAffectingProperties := AddPropertyNames(commandInfo.canExecuteMethod, canExecuteAffectingProperties, propertyInvalidations);
      canExecuteAffectingProperties := AddPropertyNames(Some(commandInfo.executeMethod), canExecuteAffectingProperties, propertyInvalidations);
      commandInfo.canExecuteAffectingProperties := canExecuteAffectingProperties;
      k := k + 1;
    }
  }

  /** Appends the property generated for a field, if it carries a [Property] attribute. */
  method FindPropertiesToGenerate(fieldSymbol: Member, propertiesToGenerate: seq<PropertyToGenerate>)
    returns (properties: seq<PropertyToGenerate>)
    requires fieldSymbol.Field? && NameResolvable(fieldSymbol)
    ensures properties == propertiesToGenerate + Entries(PropertyOf(fieldSymbol))
  {
    properties := propertiesToGenerate;
    var attributeDatas := fieldSymbol.annotations;
    var propertyAttributeData := FirstOfKind(attributeDatas, PropertyAttribute);
    if propertyAttributeData.Some? {
      var attr := propertyAttributeData.value;
      var propertyType := fieldSymbol.fieldType;
      var fieldName := fieldSymbol.name;

      var propertyName: Option<string> := None;
      var i := 0;
      while i < |attr.constructorArguments|
        invariant 0 <= i <= |attr.constructorArguments|
        invariant propertyName == LastValue(attr.constructorArguments[..i])
      {
        propertyName := attr.constructorArguments[i];
        i := i + 1;
      }
      assert attr.constructorArguments[..i] == attr.constructorArguments;

      var n := 0;
      var initial := propertyName;
      while n < |attr.namedArguments|
        invariant 0 <= n <= |attr.namedArguments|
        invariant propertyName == NamedValue(initial, attr.namedArguments[..n], "PropertyName")
      {
        var arg := attr.namedArguments[n];
        if arg.key == "PropertyName" {
          propertyName := arg.value;
        }
        NamedValueStep(initial, attr.namedArguments, n, "PropertyName");
        n := n + 1;
      }
      assert attr.namedArguments[..n] == attr.namedArguments;

      var name := if propertyName.None? then DefaultPropertyName(fieldName) else propertyName.value;

      var eventsToPublish := ReadEventsToPublish(OfKind(attributeDatas, OnChangePublishEventAttribute));
      var methodsToCall := ReadMethodsToCall(OfKind(attributeDatas, OnChangeCallMethodAttribute));
      properties := properties + [PropertyToGenerate(name, propertyType, fieldName, eventsToPublish, methodsToCall)];
    }
  }

  /** The loop over a field's [OnChangePublishEvent] attributes. */
  method ReadEventsToPublish(attrs: seq<Annotation>) returns (eventsToPublish: seq<EventToPublish>)
    ensures eventsToPublish == Collect(attrs, EventOf)
  {
    eventsToPublish := [];
    var j := 0;
    while j < |attrs|
      invariant 0 <= j <= |attrs|
      invariant eventsToPublish == Collect(attrs[..j], EventOf)
    {
      var eventToPublish := ReadEventToPublish(attrs[j]);
      if eventToPublish.Some? {
        eventsToPublish := eventsToPublish + [eventToPublish.value];
      }
      CollectStep(attrs, j, EventOf);
      j := j + 1;
    }
    assert attrs[..j] == attrs;
  }

  /** One [OnChangePublishEvent] attribute: none unless its event type is non-empty. */
  method ReadEventToPublish(attr: Annotation) returns (result: Option<EventToPublish>)
    ensures result == EventOf(attr)
  {
    var eventType := FirstValue(attr.constructorArguments);
    if eventType.Some? && |eventType.value| > 0 {
      var eventToPublish := EventToPublish(eventType.value, None, None);
      var n := 0;
      while n < |attr.namedArguments|
        invariant 0 <= n <= |attr.namedArguments|
        invariant eventToPublish == EventToPublish(eventType.value,
                    NamedValue(None, attr.namedArguments[..n], "EventConstructorArgs"),
                    NamedValue(None, attr.namedArguments[..n], "EventAggregatorMemberName"))
      {
        var arg := attr.namedArguments[n];
        if arg.key == "EventConstructorArgs" {
          eventToPublish := eventToPublish.(eventConstructorArgs := arg.value);
        } else if arg.key == "EventAggregatorMemberName" {
          eventToPublish := eventToPublish.(eventAggregatorMemberName := arg.value);
        }
        NamedValueStep(None, attr.namedArguments, n, "EventConstructorArgs");
        NamedValueStep(None, attr.namedArguments, n, "EventAggregatorMemberName");
        n := n + 1;
      }
      assert attr.namedArguments[..n] == attr.namedArguments;
      result := Some(eventToPublish);
    } else {
      result := None;
    }
  }

  /** The loop over a field's [OnChangeCallMethod] attributes. */
  method ReadMethodsToCall(attrs: seq<Annotation>) returns (methodsToCall: seq<MethodToCall>)
    ensures methodsToCall == Collect(attrs, MethodOf)
  {
    methodsToCall := [];
    var j := 0;
    while j < |attrs|
      invariant 0 <= j <= |attrs|
      invariant methodsToCall == Collect(attrs[..j], MethodOf)
    {
      var methodToCall := ReadMethodToCall(attrs[j]);
      if methodToCall.Some? {
        methodsToCall := methodsToCall + [methodToCall.value];
      }
      CollectStep(attrs, j, MethodOf);
      j := j + 1;
    }
    assert attrs[..j] == attrs;
  }

  /** One [OnChangeCallMethod] attribute: none unless its method name is non-empty. */
  method ReadMethodToCall(attr: Annotation) returns (result: Option<MethodToCall>)
    ensures result == MethodOf(attr)
  {
    var methodName := FirstValue(attr.constructorArguments);
    if methodName.Some? && |methodName.value| > 0 {
      var methodToCall := MethodToCall(methodName.value, None);
      var n := 0;
      while n < |attr.namedArguments|
        invariant 0 <= n <= |attr.namedArguments|
        invariant methodToCall == MethodToCall(methodName.value, NamedValue(None, attr.namedArguments[..n], "MethodArgs"))
      {
        var arg := attr.namedArguments[n];
        if arg.key == "MethodArgs" {
          methodToCall := methodToCall.(methodArgs := arg.value);
        }
        NamedValueStep(None, attr.namedArguments, n, "MethodArgs");
        n := n + 1;
      }
      assert attr.namedArguments[..n] == attr.namedArguments;
      result := Some(methodToCall);
    } else {
      result := None;
    }
  }

  /** Appends the command a method declares, if any, and records its invalidations. */
  method FindCommandsToGenerate(commandsToGenerate: seq<CommandToGenerate>, propertyInvalidations: Index, methodSymbol: Member)
    returns (commands: seq<CommandToGenerate>, invalidations: Index)
    requires methodSymbol.Method?
    ensures invalidations == IndexAfterMethod(propertyInvalidations, methodSymbol)
    ensures |commandsToGenerate| <= |commands| && commands[..|commandsToGenerate|] == commandsToGenerate
    ensures Declares(commands[|commandsToGenerate|..], Entries(CommandOf(methodSymbol)))
    ensures forall j :: |commandsToGenerate| <= j < |commands| ==>
              fresh(commands[j]) && commands[j].canExecuteAffectingProperties == []
    ensures Distinct(commandsToGenerate) ==> Distinct(commands)
  {
    var methodAttributes := methodSymbol.annotations;
    var commandAttributeData := FirstOfKind(methodAttributes, CommandAttribute);
    var invalidateAttributeDatas := OfKind(methodAttributes, CommandInvalidateAttribute);

    commands := commandsToGenerate;
    if commandAttributeData.Some? {
      var commandName, canExecuteMethod := ReadCommandArguments(methodSymbol.name, commandAttributeData.value);
      var command := new CommandToGenerate(methodSymbol.name, commandName, canExecuteMethod);
      commands := commands + [command];
      assert commands[|commandsToGenerate|..] == [command];
    } else {
      assert commands[|commandsToGenerate|..] == [];
    }

    invalidations := propertyInvalidations;
    if invalidateAttributeDatas != [] {
      invalidations := AddInvalidations(propertyInvalidations, methodSymbol.name, invalidateAttributeDatas);
    }
  }

  /** The command name and can-execute method a [Command] attribute on method `methodName`
      gives: the defaults, each overridden by its named argument. */
  method ReadCommandArguments(methodName: string, attr: Annotation) returns (commandName: Option<string>, canExecuteMethod: Option<string>)
    ensures commandName == NamedValue(Some(methodName + "Command"), attr.namedArguments, "CommandName")
    ensures canExecuteMethod == NamedValue(FirstValue(attr.constructorArguments), attr.namedArguments, "CanExecuteMethod")
  {
    commandName := Some(methodName + "Command");
    canExecuteMethod := FirstValue(attr.constructorArguments);
    var n := 0;
    while n < |attr.namedArguments|
      invariant 0 <= n <= |attr.namedArguments|
      invariant canExecuteMethod == NamedValue(FirstValue(attr.constructorArguments), attr.namedArguments[..n], "CanExecuteMethod")
      invariant commandName == NamedValue(Some(methodName + "Command"), attr.namedArguments[..n], "CommandName")
    {
      var arg := attr.namedArguments[n];
      if arg.key == "CanExecuteMethod" {
        canExecuteMethod := arg.value;
      } else if arg.key == "CommandName" {
        commandName := arg.value;
      }
      NamedValueStep(FirstValue(attr.constructorArguments), attr.namedArguments, n, "CanExecuteMethod");
      NamedValueStep(Some(methodName + "Command"), attr.namedArguments, n, "CommandName");
      n := n + 1;
    }
    assert attr.namedArguments[..n] == attr.namedArguments;
  }

  /** The loop over a method's [CommandInvalidate] attributes: the method's entry is created
      on first sight and each non-empty extracted name not yet in it is appended. */
  method AddInvalidations(propertyInvalidations: Index, methodIdentifier: string, attrs: seq<Annotation>)
    returns (invalidations: Index)
    requires attrs != []
    ensures invalidations ==
              propertyInvalidations[methodIdentifier := AppendNew(Lookup(propertyInvalidations, Some(methodIdentifier)), InvalidatedNames(attrs))]
  {
    ghost var entry := Lookup(propertyInvalidations, Some(methodIdentifier));
    invalidations := propertyInvalidations;
    var i := 0;
    while i < |attrs|
      invariant 0 <= i <= |attrs|
      invariant i == 0 ==> invalidations == propertyInvalidations
      invariant i > 0 ==> methodIdentifier in invalidations &&
                          invalidations == propertyInvalidations[methodIdentifier := invalidations[methodIdentifier]]
      invariant AddInvalidatedNames(Lookup(invalidations, Some(methodIdentifier)), attrs[i..]) == AddInvalidatedNames(entry, attrs)
    {
      assert attrs[i..][1..] == attrs[i + 1..];
      invalidations := AddInvalidation(invalidations, methodIdentifier, attrs[i]);
      i := i + 1;
    }
    AddInvalidatedNamesIsAppendNew(entry, attrs);
  }

  /** One iteration: create the method's entry if missing, then append the attribute's
      extracted name if it is non-empty and not yet there. */
  method AddInvalidation(propertyInvalidations: Index, methodIdentifier: string, attr: Annotation)
    returns (invalidations: Index)
    ensures invalidations ==
              propertyInvalidations[methodIdentifier := AddInvalidatedName(Lookup(propertyInvalidations, Some(methodIdentifier)), attr)]
  {
    invalidations := propertyInvalidations;
    if methodIdentifier !in invalidations {
      invalidations := invalidations[methodIdentifier := []];
    }
    var propertyName := attr.argumentText;
    if propertyName.Some? && |propertyName.value| > 0 {
      if propertyName.value !in invalidations[methodIdentifier] {
        invalidations := invalidations[methodIdentifier := invalidations[methodIdentifier] + [propertyName.value]];
      }
    }
  }

  /** Appends to `canExecuteAffectingProperties` the entry of `methodName`, skipping names
      already present; an absent method name or one without an entry adds nothing. */
  method AddPropertyNames(methodName: Option<string>, canExecuteAffectingProperties: seq<string>, propertyInvalidations: Index)
    returns (affecting: seq<string>)
    ensures affecting == AppendNew(canExecuteAffectingProperties, Lookup(propertyInvalidations, methodName))
  {
    affecting := canExecuteAffectingProperties;
    if methodName.None? {
      return;
    }
    if methodName.value in propertyInvalidations {
      var names := propertyInvalidations[methodName.value];
      var i := 0;
      while i < |names|
        invariant 0 <= i <= |names|
        invariant affecting == AppendNew(canExecuteAffectingProperties, names[..i])
      {
        var propertyName := names[i];
        if propertyName !in affecting {
          affecting := affecting + [propertyName];
        }
        assert names[..i + 1][..i] == names[..i];
        i := i + 1;
      }
      assert names[..i] == names;
    }
  }
}
