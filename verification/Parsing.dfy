/**
 The parser of executable documents (graphql/parser/parser.go) as functions from the tokens that are left,
 the current one first, to a node and the tokens that are left behind it.
 */
module Parsing {
  import opened Wrappers
  import opened Ast
  import opened Lexing

  datatype SyntaxError = SyntaxError

  datatype Parsed<+T> = Parsed(node: T, rest: seq<Token>)

  type Tokens = ts: seq<Token> | ts != [] witness [END]

  /** The lexer moves on; an error of the lexer shows as soon as its token would become the current one. */
  function Advance(ts: Tokens): (r: Result<Tokens, SyntaxError>)
    ensures r.Ok? && ts[0].kind != EOF ==> |r.value| == |ts| - 1
    ensures r.Ok? ==> |r.value| <= |ts|
  {
    if ts[0].kind == EOF then Ok(ts)
    else if |ts| == 1 || ts[1].kind == Bad then Err(SyntaxError)
    else Ok(ts[1..])
  }

  function Expect(ts: Tokens, kind: Kind): (r: Result<Tokens, SyntaxError>)
    ensures r.Ok? && kind != EOF ==> |r.value| == |ts| - 1
  {
    if ts[0].kind == kind then Advance(ts) else Err(SyntaxError)
  }

  function ParseName(ts: Tokens): (r: Result<Parsed<string>, SyntaxError>)
    ensures r.Ok? ==> r.value.rest != [] && |r.value.rest| < |ts|
  {
    var rest :- Expect(ts, Name);
    Ok(Parsed(ts[0].value, rest))
  }

  function ExpectKeyword(ts: Tokens, keyword: string): (r: Result<Tokens, SyntaxError>)
    ensures r.Ok? ==> |r.value| < |ts|
  {
    if ts[0] == Token(Name, keyword) then Advance(ts) else Err(SyntaxError)
  }

  // ---------------------------------------------------------------------------------------------
  // Values
  // ---------------------------------------------------------------------------------------------

  function NameValue(name: string): Value {
    if name == "true" then BooleanValue(true)
    else if name == "false" then BooleanValue(false)
    else if name == "null" then NullValue
    else EnumValue(name)
  }

  function ParseValue(ts: Tokens, isConst: bool): (r: Result<Parsed<Value>, SyntaxError>)
    ensures r.Ok? ==> r.value.rest != [] && |r.value.rest| < |ts|
    decreases |ts|, 0
  {
    var t := ts[0];
    if t.kind == Dollar && !isConst then ParseVariable(ts)
    else if t.kind == LeftBracket then
      var rest :- Advance(ts);
      var values :- ParseValues(rest, isConst);
      Ok(Parsed(ListValue(values.node), values.rest))
    else if t.kind == LeftBrace then
      var rest :- Advance(ts);
      var fields :- ParseFields(rest, isConst);
      Ok(Parsed(ObjectValue(fields.node), fields.rest))
    else if t.kind == Int || t.kind == Float || t.kind == String || t.kind == BlockString || t.kind == Name then
      var rest :- Advance(ts);
      var value := if t.kind == Int then IntValue(t.value)
                   else if t.kind == Float then FloatValue(t.value)
                   else if t.kind == Name then NameValue(t.value)
                   else StringValue(t.value, t.kind == BlockString);
      Ok(Parsed(value, rest))
    else Err(SyntaxError)
  }

  function ParseVariable(ts: Tokens): (r: Result<Parsed<Value>, SyntaxError>)
    ensures r.Ok? ==> r.value.rest != [] && |r.value.rest| < |ts| && r.value.node.Variable?
  {
    var rest :- Expect(ts, Dollar);
    var name :- ParseName(rest);
    Ok(Parsed(Variable(name.node), name.rest))
  }

  /** Values up to the closing bracket. */
  function ParseValues(ts: Tokens, isConst: bool): (r: Result<Parsed<seq<Value>>, SyntaxError>)
    ensures r.Ok? ==> r.value.rest != [] && |r.value.rest| < |ts|
    decreases |ts|, 1
  {
    if ts[0].kind == RightBracket then
      var rest :- Advance(ts);
      Ok(Parsed([], rest))
    else
      var value :- ParseValue(ts, isConst);
      var more :- ParseValues(value.rest, isConst);
      Ok(Parsed([value.node] + more.node, more.rest))
  }

  function ParseField(ts: Tokens, isConst: bool): (r: Result<Parsed<ObjectField>, SyntaxError>)
    ensures r.Ok? ==> r.value.rest != [] && |r.value.rest| < |ts|
    decreases |ts|, 1
  {
    var name :- ParseName(ts);
    var rest :- Expect(name.rest, Colon);
    var value :- ParseValue(rest, isConst);
    Ok(Parsed(ObjectField(name.node, value.node), value.rest))
  }

  /** Object fields up to the closing brace. */
  function ParseFields(ts: Tokens, isConst: bool): (r: Result<Parsed<seq<ObjectField>>, SyntaxError>)
    ensures r.Ok? ==> r.value.rest != [] && |r.value.rest| < |ts|
    decreases |ts|, 2
  {
    if ts[0].kind == RightBrace then
      var rest :- Advance(ts);
      Ok(Parsed([], rest))
    else
      var field :- ParseField(ts, isConst);
      var more :- ParseFields(field.rest, isConst);
      Ok(Parsed([field.node] + more.node, more.rest))
  }

  // ---------------------------------------------------------------------------------------------
  // Types
  // ---------------------------------------------------------------------------------------------

  /** A type that may be followed by an exclamation mark. */
  function ParseBang(t: Type, ts: Tokens): (r: Result<Parsed<Type>, SyntaxError>)
    ensures r.Ok? ==> r.value.rest != [] && |r.value.rest| <= |ts|
  {
    if ts[0].kind == Bang then
      var rest :- Advance(ts);
      Ok(Parsed(NonNullType(t), rest))
    else Ok(Parsed(t, ts))
  }

  /** The grammar of types, by recursion. */
  function ParseType(ts: Tokens): (r: Result<Parsed<Type>, SyntaxError>)
    ensures r.Ok? ==> r.value.rest != [] && |r.value.rest| < |ts|
    decreases |ts|
  {
    if ts[0].kind == LeftBracket then
      var rest :- Advance(ts);
      var item :- ParseType(rest);
      var rest' :- Expect(item.rest, RightBracket);
      ParseBang(ListType(item.node), rest')
    else
      var name :- ParseName(ts);
      ParseBang(NamedType(name.node), name.rest)
  }

  // ---------------------------------------------------------------------------------------------
  // Arguments and directives
  // ---------------------------------------------------------------------------------------------

  function ParseArgument(ts: Tokens, isConst: bool): (r: Result<Parsed<Argument>, SyntaxError>)
    ensures r.Ok? ==> r.value.rest != [] && |r.value.rest| < |ts|
  {
    var name :- ParseName(ts);
    var rest :- Expect(name.rest, Colon);
    var value :- ParseValue(rest, isConst);
    Ok(Parsed(Argument(name.node, value.node), value.rest))
  }

  /** At least one argument, up to the closing parenthesis. */
  function ParseArgumentList(ts: Tokens, isConst: bool): (r: Result<Parsed<seq<Argument>>, SyntaxError>)
    ensures r.Ok? ==> r.value.rest != [] && |r.value.rest| < |ts|
    decreases |ts|
  {
    var argument :- ParseArgument(ts, isConst);
    if argument.rest[0].kind == RightParen then
      var rest :- Advance(argument.rest);
      Ok(Parsed([argument.node], rest))
    else
      var more :- ParseArgumentList(argument.rest, isConst);
      Ok(Parsed([argument.node] + more.node, more.rest))
  }

  /** Arguments, if a parenthesis opens. */
  function ParseArguments(ts: Tokens, isConst: bool): (r: Result<Parsed<seq<Argument>>, SyntaxError>)
    ensures r.Ok? ==> r.value.rest != [] && |r.value.rest| <= |ts|
  {
    if ts[0].kind == LeftParen then
      var rest :- Advance(ts);
      ParseArgumentList(rest, isConst)
    else Ok(Parsed([], ts))
  }

  function ParseDirective(ts: Tokens, isConst: bool): (r: Result<Parsed<Directive>, SyntaxError>)
    ensures r.Ok? ==> r.value.rest != [] && |r.value.rest| < |ts|
  {
    var rest :- Expect(ts, At);
    var name :- ParseName(rest);
    var arguments :- ParseArguments(name.rest, isConst);
    Ok(Parsed(Directive(name.node, arguments.node), arguments.rest))
  }

  /** Directives, as long as another one begins. */
  function ParseDirectives(ts: Tokens, isConst: bool): (r: Result<Parsed<seq<Directive>>, SyntaxError>)
    ensures r.Ok? ==> r.value.rest != [] && |r.value.rest| <= |ts|
    decreases |ts|
  {
    if ts[0].kind == At then
      var directive :- ParseDirective(ts, isConst);
      var more :- ParseDirectives(directive.rest, isConst);
      Ok(Parsed([directive.node] + more.node, more.rest))
    else Ok(Parsed([], ts))
  }

  // ---------------------------------------------------------------------------------------------
  // Selections
  // ---------------------------------------------------------------------------------------------

  function ParseSelectionSet(ts: Tokens): (r: Result<Parsed<seq<Selection>>, SyntaxError>)
    ensures r.Ok? ==> r.value.rest != [] && |r.value.rest| < |ts|
    decreases |ts|, 0
  {
    var rest :- Expect(ts, LeftBrace);
    ParseSelections(rest)
  }

  /** At least one selection, up to the closing brace. */
  function ParseSelections(ts: Tokens): (r: Result<Parsed<seq<Selection>>, SyntaxError>)
    ensures r.Ok? ==> r.value.rest != [] && |r.value.rest| < |ts|
    decreases |ts|, 4
  {
    var selection :- ParseSelection(ts);
    if selection.rest[0].kind == RightBrace then
      var rest :- Advance(selection.rest);
      Ok(Parsed([selection.node], rest))
    else
      var more :- ParseSelections(selection.rest);
      Ok(Parsed([selection.node] + more.node, more.rest))
  }

  function ParseSelection(ts: Tokens): (r: Result<Parsed<Selection>, SyntaxError>)
    ensures r.Ok? ==> r.value.rest != [] && |r.value.rest| < |ts|
    decreases |ts|, 3
  {
    if ts[0].kind == Spread then
      var rest :- Advance(ts);
      if rest[0].kind != Name || rest[0].value == "on" then ParseInlineFragment(rest) else ParseFragmentSpread(rest)
    else ParseFieldSelection(ts)
  }

  /** An optional selection set. */
  function ParseOptionalSet(ts: Tokens): (r: Result<Parsed<seq<Selection>>, SyntaxError>)
    ensures r.Ok? ==> r.value.rest != [] && |r.value.rest| <= |ts|
    decreases |ts|, 1
  {
    if ts[0].kind == LeftBrace then ParseSelectionSet(ts) else Ok(Parsed([], ts))
  }

  function ParseFieldSelection(ts: Tokens): (r: Result<Parsed<Selection>, SyntaxError>)
    ensures r.Ok? ==> r.value.rest != [] && |r.value.rest| < |ts|
    decreases |ts|, 1
  {
    var first :- ParseName(ts);
    var aliased := first.rest[0].kind == Colon;
    var rest :- if aliased then Advance(first.rest) else Ok(first.rest);
    var name :- if aliased then ParseName(rest) else Ok(first);
    ParseFieldTail(name.rest, if aliased then Some(first.node) else None, name.node)
  }

  /** What follows the name of a field. */
  function ParseFieldTail(ts: Tokens, alias: Option<string>, name: string): (r: Result<Parsed<Selection>, SyntaxError>)
    ensures r.Ok? ==> r.value.rest != [] && |r.value.rest| <= |ts|
    decreases |ts|, 2
  {
    var arguments :- ParseArguments(ts, false);
    var directives :- ParseDirectives(arguments.rest, false);
    var selections :- ParseOptionalSet(directives.rest);
    Ok(Parsed(Field(alias, name, arguments.node, directives.node, selections.node), selections.rest))
  }

  /** Behind the dots. */
  function ParseFragmentSpread(ts: Tokens): (r: Result<Parsed<Selection>, SyntaxError>)
    ensures r.Ok? ==> r.value.rest != [] && |r.value.rest| < |ts|
  {
    var name :- ParseName(ts);
    var directives :- ParseDirectives(name.rest, false);
    Ok(Parsed(FragmentSpread(name.node, directives.node), directives.rest))
  }

  function ParseTypeCondition(ts: Tokens): (r: Result<Parsed<string>, SyntaxError>)
    ensures r.Ok? ==> r.value.rest != [] && |r.value.rest| < |ts|
  {
    var rest :- ExpectKeyword(ts, "on");
    ParseName(rest)
  }

  /** Behind the dots. */
  function ParseInlineFragment(ts: Tokens): (r: Result<Parsed<Selection>, SyntaxError>)
    ensures r.Ok? ==> r.value.rest != [] && |r.value.rest| < |ts|
    decreases |ts|, 2
  {
    var conditioned := ts[0].kind == Name;
    var condition :- if conditioned then ParseTypeCondition(ts) else Ok(Parsed("", ts));
    ParseInlineTail(condition.rest, if conditioned then Some(condition.node) else None)
  }

  /** What follows the type condition of an inline fragment. */
  function ParseInlineTail(ts: Tokens, condition: Option<string>): (r: Result<Parsed<Selection>, SyntaxError>)
    ensures r.Ok? ==> r.value.rest != [] && |r.value.rest| < |ts|
    decreases |ts|, 1
  {
    var directives :- ParseDirectives(ts, false);
    var selections :- ParseSelectionSet(directives.rest);
    Ok(Parsed(InlineFragment(condition, directives.node, selections.node), selections.rest))
  }

  // ---------------------------------------------------------------------------------------------
  // Definitions
  // ---------------------------------------------------------------------------------------------

  function ParseVariableDefinition(ts: Tokens): (r: Result<Parsed<VariableDefinition>, SyntaxError>)
    ensures r.Ok? ==> r.value.rest != [] && |r.value.rest| < |ts|
  {
    var variable :- ParseVariable(ts);
    var rest :- Expect(variable.rest, Colon);
    var type_ :- ParseType(rest);
    var defaulted := type_.rest[0].kind == Equals;
    var rest' :- if defaulted then Advance(type_.rest) else Ok(type_.rest);
    var default_ :- if defaulted then ParseValue(rest', true) else Ok(Parsed(NullValue, rest'));
    var directives :- ParseDirectives(default_.rest, true);
    Ok(Parsed(VariableDefinition(variable.node.name, type_.node, if defaulted then Some(default_.node) else None, directives.node),
              directives.rest))
  }

  /** At least one variable definition, up to the closing parenthesis. */
  function ParseVariableList(ts: Tokens): (r: Result<Parsed<seq<VariableDefinition>>, SyntaxError>)
    ensures r.Ok? ==> r.value.rest != [] && |r.value.rest| < |ts|
    decreases |ts|
  {
    var definition :- ParseVariableDefinition(ts);
    if definition.rest[0].kind == RightParen then
      var rest :- Advance(definition.rest);
      Ok(Parsed([definition.node], rest))
    else
      var more :- ParseVariableList(definition.rest);
      Ok(Parsed([definition.node] + more.node, more.rest))
  }

  function ParseVariables(ts: Tokens): (r: Result<Parsed<seq<VariableDefinition>>, SyntaxError>)
    ensures r.Ok? ==> r.value.rest != [] && |r.value.rest| <= |ts|
  {
    if ts[0].kind == LeftParen then
      var rest :- Advance(ts);
      ParseVariableList(rest)
    else Ok(Parsed([], ts))
  }

  function OperationOf(keyword: string): Option<OperationType> {
    if keyword == "query" then Some(Query)
    else if keyword == "mutation" then Some(Mutation)
    else if keyword == "subscription" then Some(Subscription)
    else None
  }

  function ParseOperation(ts: Tokens): (r: Result<Parsed<Definition>, SyntaxError>)
    ensures r.Ok? ==> r.value.rest != [] && |r.value.rest| < |ts|
  {
    var keyword :- ParseName(ts);
    var titled := keyword.rest[0].kind == Name;
    var title :- if titled then ParseName(keyword.rest) else Ok(Parsed("", keyword.rest));
    ParseOperationTail(title.rest, OperationOf(keyword.node), if titled then Some(title.node) else None)
  }

  /** What follows the name of an operation. */
  function ParseOperationTail(ts: Tokens, operation: Option<OperationType>, title: Option<string>):
    (r: Result<Parsed<Definition>, SyntaxError>)
    ensures r.Ok? ==> r.value.rest != [] && |r.value.rest| < |ts|
  {
    var variables :- ParseVariables(ts);
    var directives :- ParseDirectives(variables.rest, false);
    var selections :- ParseSelectionSet(directives.rest);
    Ok(Parsed(Operation(operation, title, variables.node, directives.node, selections.node), selections.rest))
  }

  /** `variables` enables the experimental variables of fragments. */
  function ParseFragment(ts: Tokens, variables: bool): (r: Result<Parsed<Definition>, SyntaxError>)
    ensures r.Ok? ==> r.value.rest != [] && |r.value.rest| < |ts|
  {
    var keyword :- ParseName(ts);
    if keyword.rest[0] == Token(Name, "on") then Err(SyntaxError)
    else
      var name :- ParseName(keyword.rest);
      var definitions :- if variables then ParseVariables(name.rest) else Ok(Parsed([], name.rest));
      ParseFragmentTail(definitions.rest, name.node, definitions.node)
  }

  /** What follows the variables of a fragment. */
  function ParseFragmentTail(ts: Tokens, name: string, variables: seq<VariableDefinition>):
    (r: Result<Parsed<Definition>, SyntaxError>)
    ensures r.Ok? ==> r.value.rest != [] && |r.value.rest| < |ts|
  {
    var condition :- ParseTypeCondition(ts);
    var directives :- ParseDirectives(condition.rest, false);
    var selections :- ParseSelectionSet(directives.rest);
    Ok(Parsed(Fragment(name, variables, condition.node, directives.node, selections.node), selections.rest))
  }

  function ParseDefinition(ts: Tokens, variables: bool): (r: Result<Parsed<Definition>, SyntaxError>)
    ensures r.Ok? ==> r.value.rest != [] && |r.value.rest| < |ts|
  {
    if ts[0].kind == Name && OperationOf(ts[0].value).Some? then ParseOperation(ts)
    else if ts[0] == Token(Name, "fragment") then ParseFragment(ts, variables)
    else if ts[0].kind == LeftBrace then
      var selections :- ParseSelectionSet(ts);
      Ok(Parsed(Operation(None, None, [], [], selections.node), selections.rest))
    else Err(SyntaxError)
  }

  /** At least one definition, up to the end of the file. */
  function ParseDefinitions(ts: Tokens, variables: bool): Result<seq<Definition>, SyntaxError>
    decreases |ts|
  {
    var definition :- ParseDefinition(ts, variables);
    if definition.rest[0].kind == EOF then Ok([definition.node])
    else
      var more :- ParseDefinitions(definition.rest, variables);
      Ok([definition.node] + more)
  }

  /** A document, from the start-of-file token on. */
  function ParseDocument(ts: Tokens, variables: bool): Result<seq<Definition>, SyntaxError> {
    var rest :- Expect(ts, SOF);
    ParseDefinitions(rest, variables)
  }
}
