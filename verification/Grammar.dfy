/**
 The printed text and the tokens of a syntax tree in front of what follows them: PrintX(node, level, rest)
 is the text that graphql/ast/printer.go writes for the node, followed by `rest`, and TokensX(node, ts) the
 tokens of the node, followed by `ts`.
 */
module Grammar {
  import opened Wrappers
  import opened Ast
  import opened JsonStream
  import opened Lexing
  import opened BlockStringRoundTrip

  /** What may stand directly behind a name, a number or a string. */
  predicate Closes(rest: string) {
    rest == "" || IsWhitespace(rest[0]) || Punctuator(rest[0]).Some?
  }

  function Punct(kind: Kind): Token {
    Token(kind, "")
  }

  function NameToken(name: string): Token {
    Token(Name, name)
  }

  // ---------------------------------------------------------------------------------------------
  // Values
  // ---------------------------------------------------------------------------------------------

  function PrintValue(v: Value, level: nat, rest: string): string
    decreases v
  {
    match v
    case Variable(name) => "$" + (name + rest)
    case IntValue(text) => text + rest
    case FloatValue(text) => text + rest
    case StringValue(value, block) => (if block then PrintBlock(value, level) else Quoted(value)) + rest
    case BooleanValue(b) => (if b then "true" else "false") + rest
    case NullValue => "null" + rest
    case EnumValue(name) => name + rest
    case ListValue(values) =>
      "[" + if values == [] then "]" + rest else PrintValue(values[0], level, PrintMoreValues(values[1..], level, "]" + rest))
    case ObjectValue(fields) =>
      "{" + if fields == [] then "}" + rest
            else PrintObjectField(fields[0], level, PrintMoreFields(fields[1..], level, "}" + rest))
  }

  function PrintMoreValues(values: seq<Value>, level: nat, rest: string): (r: string)
    ensures Closes(rest) ==> Closes(r)
    decreases values
  {
    if values == [] then rest else ", " + PrintValue(values[0], level, PrintMoreValues(values[1..], level, rest))
  }

  function PrintObjectField(f: ObjectField, level: nat, rest: string): string
    decreases f
  {
    f.name + (": " + PrintValue(f.value, level, rest))
  }

  function PrintMoreFields(fields: seq<ObjectField>, level: nat, rest: string): (r: string)
    ensures Closes(rest) ==> Closes(r)
    decreases fields
  {
    if fields == [] then rest
    else ", " + PrintObjectField(fields[0], level, PrintMoreFields(fields[1..], level, rest))
  }

  function TokensValue(v: Value, ts: seq<Token>): seq<Token>
    decreases v
  {
    match v
    case Variable(name) => [Punct(Dollar), NameToken(name)] + ts
    case IntValue(text) => [Token(Int, text)] + ts
    case FloatValue(text) => [Token(Float, text)] + ts
    case StringValue(value, block) => [Token(if block then BlockString else String, value)] + ts
    case BooleanValue(b) => [NameToken(if b then "true" else "false")] + ts
    case NullValue => [NameToken("null")] + ts
    case EnumValue(name) => [NameToken(name)] + ts
    case ListValue(values) => [Punct(LeftBracket)] + TokensValues(values, [Punct(RightBracket)] + ts)
    case ObjectValue(fields) => [Punct(LeftBrace)] + TokensFields(fields, [Punct(RightBrace)] + ts)
  }

  function TokensValues(values: seq<Value>, ts: seq<Token>): seq<Token>
    decreases values
  {
    if values == [] then ts else TokensValue(values[0], TokensValues(values[1..], ts))
  }

  function TokensField(f: ObjectField, ts: seq<Token>): seq<Token>
    decreases f
  {
    [NameToken(f.name), Punct(Colon)] + TokensValue(f.value, ts)
  }

  function TokensFields(fields: seq<ObjectField>, ts: seq<Token>): seq<Token>
    decreases fields
  {
    if fields == [] then ts else TokensField(fields[0], TokensFields(fields[1..], ts))
  }

  // ---------------------------------------------------------------------------------------------
  // Types
  // ---------------------------------------------------------------------------------------------

  function PrintType(t: Type, rest: string): string {
    match t
    case NamedType(name) => name + rest
    case ListType(item) => "[" + PrintType(item, "]" + rest)
    case NonNullType(inner) => PrintType(inner, "!" + rest)
  }

  function TokensType(t: Type, ts: seq<Token>): seq<Token> {
    match t
    case NamedType(name) => [NameToken(name)] + ts
    case ListType(item) => [Punct(LeftBracket)] + TokensType(item, [Punct(RightBracket)] + ts)
    case NonNullType(inner) => TokensType(inner, [Punct(Bang)] + ts)
  }

  // ---------------------------------------------------------------------------------------------
  // Arguments and directives
  // ---------------------------------------------------------------------------------------------

  function PrintArgument(a: Argument, level: nat, rest: string): string {
    a.name + (": " + PrintValue(a.value, level, rest))
  }

  function PrintMoreArguments(args: seq<Argument>, level: nat, rest: string): (r: string)
    ensures Closes(rest) ==> Closes(r)
  {
    if args == [] then rest else ", " + PrintArgument(args[0], level, PrintMoreArguments(args[1..], level, rest))
  }

  function PrintArguments(args: seq<Argument>, level: nat, rest: string): (r: string)
    ensures Closes(rest) ==> Closes(r)
  {
    if args == [] then rest
    else "(" + PrintArgument(args[0], level, PrintMoreArguments(args[1..], level, ")" + rest))
  }

  function TokensArgument(a: Argument, ts: seq<Token>): seq<Token> {
    [NameToken(a.name), Punct(Colon)] + TokensValue(a.value, ts)
  }

  function TokensArgumentList(args: seq<Argument>, ts: seq<Token>): seq<Token> {
    if args == [] then ts else TokensArgument(args[0], TokensArgumentList(args[1..], ts))
  }

  function TokensArguments(args: seq<Argument>, ts: seq<Token>): seq<Token> {
    if args == [] then ts else [Punct(LeftParen)] + TokensArgumentList(args, [Punct(RightParen)] + ts)
  }

  function PrintDirective(d: Directive, level: nat, rest: string): string {
    "@" + (d.name + PrintArguments(d.arguments, level, rest))
  }

  function PrintMoreDirectives(ds: seq<Directive>, level: nat, rest: string): (r: string)
    ensures Closes(rest) ==> Closes(r)
  {
    if ds == [] then rest else " " + PrintDirective(ds[0], level, PrintMoreDirectives(ds[1..], level, rest))
  }

  function TokensDirective(d: Directive, ts: seq<Token>): seq<Token> {
    [Punct(At), NameToken(d.name)] + TokensArguments(d.arguments, ts)
  }

  function TokensDirectives(ds: seq<Directive>, ts: seq<Token>): seq<Token> {
    if ds == [] then ts else TokensDirective(ds[0], TokensDirectives(ds[1..], ts))
  }

  // ---------------------------------------------------------------------------------------------
  // Selections
  // ---------------------------------------------------------------------------------------------

  /** A newline and the indentation of the level. */
  function Newline(level: nat): (r: string)
    ensures r != "" && forall i | 0 <= i < |r| :: IsWhitespace(r[i])
  {
    "\n" + Spaces(2 * level)
  }

  /** A selection set that has selections, at the level around it. */
  function PrintSelectionSet(selections: seq<Selection>, level: nat, rest: string): (r: string)
    ensures Closes(rest) ==> Closes(r)
    decreases selections, 1
  {
    if selections == [] then rest
    else
      "{" + (Newline(level + 1)
      + PrintSelection(selections[0], level + 1, PrintMoreSelections(selections[1..], level + 1, Newline(level) + ("}" + rest))))
  }

  function PrintMoreSelections(selections: seq<Selection>, level: nat, rest: string): (r: string)
    ensures Closes(rest) ==> Closes(r)
    decreases selections
  {
    if selections == [] then rest
    else Newline(level) + PrintSelection(selections[0], level, PrintMoreSelections(selections[1..], level, rest))
  }

  /** A selection set behind a space, if it has selections. */
  function PrintSpacedSet(selections: seq<Selection>, level: nat, rest: string): (r: string)
    ensures Closes(rest) ==> Closes(r)
    decreases selections, 2
  {
    if selections == [] then rest else " " + PrintSelectionSet(selections, level, rest)
  }

  function PrintSelection(s: Selection, level: nat, rest: string): string
    decreases s
  {
    match s
    case Field(alias, name, arguments, directives, selections) =>
      var more := PrintArguments(arguments, level, PrintMoreDirectives(directives, level, PrintSpacedSet(selections, level, rest)));
      if alias == None then name + more else alias.value + (": " + (name + more))
    case FragmentSpread(name, directives) => "..." + (name + PrintMoreDirectives(directives, level, rest))
    case InlineFragment(condition, directives, selections) =>
      var more := PrintMoreDirectives(directives, level, PrintSpacedSet(selections, level, rest));
      "..." + if condition == None then more else " on " + (condition.value + more)
  }

  function TokensSelections(selections: seq<Selection>, ts: seq<Token>): seq<Token>
    decreases selections, 0
  {
    if selections == [] then ts else TokensSelection(selections[0], TokensSelections(selections[1..], ts))
  }

  function TokensSelectionSet(selections: seq<Selection>, ts: seq<Token>): seq<Token>
    decreases selections, 1
  {
    if selections == [] then ts else [Punct(LeftBrace)] + TokensSelections(selections, [Punct(RightBrace)] + ts)
  }

  function TokensSelection(s: Selection, ts: seq<Token>): seq<Token>
    decreases s
  {
    match s
    case Field(alias, name, arguments, directives, selections) =>
      (if alias == None then [] else [NameToken(alias.value), Punct(Colon)])
      + ([NameToken(name)] + TokensArguments(arguments, TokensDirectives(directives, TokensSelectionSet(selections, ts))))
    case FragmentSpread(name, directives) => [Punct(Spread), NameToken(name)] + TokensDirectives(directives, ts)
    case InlineFragment(condition, directives, selections) =>
      [Punct(Spread)]
      + ((if condition == None then [] else [NameToken("on"), NameToken(condition.value)])
      + TokensDirectives(directives, TokensSelectionSet(selections, ts)))
  }

  // ---------------------------------------------------------------------------------------------
  // Definitions
  // ---------------------------------------------------------------------------------------------

  function PrintVariableDefinition(d: VariableDefinition, level: nat, rest: string): string {
    var more := PrintMoreDirectives(d.directives, level, rest);
    "$" + (d.name + (": " + PrintType(d.type_, if d.default_ == None then more else " = " + PrintValue(d.default_.value, level, more))))
  }

  function PrintMoreVariables(ds: seq<VariableDefinition>, level: nat, rest: string): (r: string)
    ensures Closes(rest) ==> Closes(r)
  {
    if ds == [] then rest else ", " + PrintVariableDefinition(ds[0], level, PrintMoreVariables(ds[1..], level, rest))
  }

  function PrintVariables(ds: seq<VariableDefinition>, level: nat, rest: string): (r: string)
    ensures Closes(rest) ==> Closes(r)
  {
    if ds == [] then rest else "(" + PrintVariableDefinition(ds[0], level, PrintMoreVariables(ds[1..], level, ")" + rest))
  }

  function TokensVariableDefinition(d: VariableDefinition, ts: seq<Token>): seq<Token> {
    var more := TokensDirectives(d.directives, ts);
    [Punct(Dollar), NameToken(d.name), Punct(Colon)]
    + TokensType(d.type_, if d.default_ == None then more else [Punct(Equals)] + TokensValue(d.default_.value, more))
  }

  function TokensVariableList(ds: seq<VariableDefinition>, ts: seq<Token>): seq<Token> {
    if ds == [] then ts else TokensVariableDefinition(ds[0], TokensVariableList(ds[1..], ts))
  }

  function TokensVariables(ds: seq<VariableDefinition>, ts: seq<Token>): seq<Token> {
    if ds == [] then ts else [Punct(LeftParen)] + TokensVariableList(ds, [Punct(RightParen)] + ts)
  }

  function Keyword(operation: Option<OperationType>): string {
    match operation
    case None => "query"
    case Some(Query) => "query"
    case Some(Mutation) => "mutation"
    case Some(Subscription) => "subscription"
  }

  /** The operation is printed as its selection set alone. */
  predicate IsShorthand(d: Definition) {
    d.Operation? && d.title == None && d.directives == [] && d.variables == [] && Keyword(d.operation) == "query"
  }

  function PrintDefinition(d: Definition, level: nat, rest: string): string {
    match d
    case Operation(operation, title, variables, directives, selections) =>
      if IsShorthand(d) then PrintSelectionSet(selections, level, rest)
      else
        var more := PrintMoreDirectives(directives, level, PrintSpacedSet(selections, level, rest));
        Keyword(operation)
        + if title == None && variables == [] then more
          else " " + (if title == None then PrintVariables(variables, level, more)
                      else title.value + PrintVariables(variables, level, more))
    case Fragment(name, variables, condition, directives, selections) =>
      "fragment " + (name + PrintVariables(variables, level, " on " + (condition
      + PrintMoreDirectives(directives, level, " " + PrintSelectionSet(selections, level, rest)))))
  }

  function PrintMoreDefinitions(ds: seq<Definition>, level: nat, rest: string): (r: string)
    ensures Closes(rest) ==> Closes(r)
  {
    if ds == [] then rest else "\n\n" + PrintDefinition(ds[0], level, PrintMoreDefinitions(ds[1..], level, rest))
  }

  /** printDocument, at level 0. */
  function PrintDocument(ds: seq<Definition>): string {
    if ds == [] then "\n" else PrintDefinition(ds[0], 0, PrintMoreDefinitions(ds[1..], 0, "\n"))
  }

  function TokensDefinition(d: Definition, ts: seq<Token>): seq<Token> {
    match d
    case Operation(operation, title, variables, directives, selections) =>
      if IsShorthand(d) then TokensSelectionSet(selections, ts)
      else
        [NameToken(Keyword(operation))] + ((if title == None then [] else [NameToken(title.value)])
        + TokensVariables(variables, TokensDirectives(directives, TokensSelectionSet(selections, ts))))
    case Fragment(name, variables, condition, directives, selections) =>
      [NameToken("fragment"), NameToken(name)]
      + TokensVariables(variables, [NameToken("on"), NameToken(condition)]
                                   + TokensDirectives(directives, TokensSelectionSet(selections, ts)))
  }

  function TokensDefinitions(ds: seq<Definition>, ts: seq<Token>): seq<Token> {
    if ds == [] then ts else TokensDefinition(ds[0], TokensDefinitions(ds[1..], ts))
  }
}
