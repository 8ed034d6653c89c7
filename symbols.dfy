/**
  The read-only view of a view-model type that the inspector consumes: its members in
  declaration order, each with its attributes in declaration order. This replaces the
  compiler's symbol API (GetMembers, GetAttributes, TypedConstant values).
 */
module Symbols {
  import opened Wrappers

  /** The attribute class an attribute instance belongs to; each stands for the class whose
      display string is "MvvmGen.<name>", and OtherAttribute for every other class. */
  datatype AnnotationKind =
    | PropertyAttribute
    | OnChangePublishEventAttribute
    | OnChangeCallMethodAttribute
    | CommandAttribute
    | CommandInvalidateAttribute
    | OtherAttribute

  /** A named argument `Key = value`; `value` is None when the argument's value is null. */
  datatype NamedArgument = NamedArgument(key: string, value: Option<string>)

  /**
    One attribute instance. `constructorArguments` holds `Value?.ToString()` of each
    positional argument (None for null). `argumentText` is what the source extracts from
    the attribute's syntax for its first argument (used for CommandInvalidate only, where
    the argument names a property that is not compiled yet); None when no syntax is
    available.
   */
  datatype Annotation = Annotation(
    kind: AnnotationKind,
    constructorArguments: seq<Option<string>>,
    namedArguments: seq<NamedArgument>,
    argumentText: Option<string>)

  /** A member of the inspected type; `fieldType` is the field type's display string. */
  datatype Member =
    | Field(name: string, fieldType: string, annotations: seq<Annotation>)
    | Method(name: string, annotations: seq<Annotation>)
    | OtherMember(name: string)
}
