/** The syntax trees of executable documents (graphql/ast/ast.go), without their token links. */
module Ast {
  import opened Wrappers

  datatype Value =
    | Variable(name: string)
    | IntValue(text: string)
    | FloatValue(text: string)
    | StringValue(value: string, block: bool)
    | BooleanValue(b: bool)
    | NullValue
    | EnumValue(name: string)
    | ListValue(values: seq<Value>)
    | ObjectValue(fields: seq<ObjectField>)

  datatype ObjectField = ObjectField(name: string, value: Value)

  datatype Type = NamedType(name: string) | ListType(item: Type) | NonNullType(inner: Type)

  datatype Argument = Argument(name: string, value: Value)

  datatype Directive = Directive(name: string, arguments: seq<Argument>)

  datatype Selection =
    | Field(alias: Option<string>, name: string, arguments: seq<Argument>, directives: seq<Directive>,
            selections: seq<Selection>)
    | FragmentSpread(name: string, directives: seq<Directive>)
    | InlineFragment(condition: Option<string>, directives: seq<Directive>, selections: seq<Selection>)

  datatype VariableDefinition =
    VariableDefinition(name: string, type_: Type, default_: Option<Value>, directives: seq<Directive>)

  datatype OperationType = Query | Mutation | Subscription

  /** An operation without a type is a query in shorthand form. */
  datatype Definition =
    | Operation(operation: Option<OperationType>, title: Option<string>, variables: seq<VariableDefinition>,
                directives: seq<Directive>, selections: seq<Selection>)
    | Fragment(name: string, variables: seq<VariableDefinition>, condition: string,
               directives: seq<Directive>, selections: seq<Selection>)
}
