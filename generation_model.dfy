/** The generation model the inspector hands to the code emitter. */
module GenerationModel {
  import opened Wrappers

  /** An event a generated property setter publishes after a change. */
  datatype EventToPublish = EventToPublish(
    eventType: string,
    eventConstructorArgs: Option<string>,
    eventAggregatorMemberName: Option<string>)

  /** A method a generated property setter calls after a change. */
  datatype MethodToCall = MethodToCall(methodName: string, methodArgs: Option<string>)

  /** A property to generate over a backing field. */
  datatype PropertyToGenerate = PropertyToGenerate(
    propertyName: string,
    propertyType: string,
    backingField: string,
    eventsToPublish: seq<EventToPublish>,
    methodsToCall: seq<MethodToCall>)

  /** The parts of a command fixed when its method is scanned. */
  datatype CommandDecl = CommandDecl(
    executeMethod: string,
    commandName: Option<string>,
    canExecuteMethod: Option<string>)

  /**
    A command to generate. Its affecting-properties list is assigned in place once all
    members have been scanned; everything else is fixed at creation.
   */
  class CommandToGenerate {
    const executeMethod: string
    const commandName: Option<string>
    const canExecuteMethod: Option<string>
    var canExecuteAffectingProperties: seq<string>

    constructor (executeMethod: string, commandName: Option<string>, canExecuteMethod: Option<string>)
      ensures this.executeMethod == executeMethod
      ensures this.commandName == commandName
      ensures this.canExecuteMethod == canExecuteMethod
      ensures canExecuteAffectingProperties == []
    {
      this.executeMethod := executeMethod;
      this.commandName := commandName;
      this.canExecuteMethod := canExecuteMethod;
      canExecuteAffectingProperties := [];
    }

    /** The fixed part of this command as a value. */
    function Decl(): CommandDecl
    {
      CommandDecl(executeMethod, commandName, canExecuteMethod)
    }
  }
}
