/**
 Every document that the parser accepts is well-formed and has the tokens that it was parsed from. So its
 printed form is accepted as the same document exactly if the strings of the source text are printable.
 */
module AcceptedDocuments {
  import opened Wrappers
  import opened Ast
  import opened Lexing
  import opened Parsing
  import opened Grammar
  import opened WellFormed
  import opened LexedTokens
  import opened PrintableTokens
  import opened PrintedTokens
  import opened ParseRoundTrip

  // ---------------------------------------------------------------------------------------------
  // Tokens that were read
  // ---------------------------------------------------------------------------------------------

  /** `ts` are the tokens of a node and those that are left behind it. */
  ghost predicate Read(ts: seq<Token>, tokens: seq<Token>, rest: seq<Token>) {
    ts == tokens && TokensOk(rest)
  }

  lemma AdvanceReads(ts: Tokens)
    requires TokensOk(ts) && Advance(ts).Ok? && ts[0].kind != EOF
    ensures Read(ts, [ts[0]] + Advance(ts).value, Advance(ts).value) && TokenOk(ts[0])
  {
    var rest := Advance(ts).value;
    assert forall i | 0 <= i < |rest| :: rest[i] == ts[i + 1];
  }

  /** A token without a value. */
  predicate IsPunct(kind: Kind) {
    kind != EOF && kind != Name && kind != Int && kind != Float && kind != String && kind != BlockString
  }

  lemma ExpectReads(ts: Tokens, kind: Kind)
    requires TokensOk(ts) && Expect(ts, kind).Ok? && IsPunct(kind)
    ensures Read(ts, [Punct(kind)] + Expect(ts, kind).value, Expect(ts, kind).value)
  {
    AdvanceReads(ts);
  }

  lemma NameReads(ts: Tokens)
    requires TokensOk(ts) && ParseName(ts).Ok?
    ensures var p := ParseName(ts).value; IsName(p.node) && Read(ts, [NameToken(p.node)] + p.rest, p.rest)
  {
    AdvanceReads(ts);
  }

  lemma NameColonReads(ts: Tokens)
    requires TokensOk(ts) && ParseName(ts).Ok? && Expect(ParseName(ts).value.rest, Colon).Ok?
    ensures var name := ParseName(ts).value.node; var rest := Expect(ParseName(ts).value.rest, Colon).value;
            IsName(name) && Read(ts, [NameToken(name), Punct(Colon)] + rest, rest)
  {
    NameReads(ts);
    var p := ParseName(ts).value;
    ExpectReads(p.rest, Colon);
    var rest := Expect(p.rest, Colon).value;
    assert [NameToken(p.node)] + ([Punct(Colon)] + rest) == [NameToken(p.node), Punct(Colon)] + rest;
  }

  // ---------------------------------------------------------------------------------------------
  // Values
  // ---------------------------------------------------------------------------------------------

  lemma VariableReads(ts: Tokens)
    requires TokensOk(ts) && ParseVariable(ts).Ok?
    ensures var p := ParseVariable(ts).value;
            IsName(p.node.name) && Read(ts, [Punct(Dollar), NameToken(p.node.name)] + p.rest, p.rest)
  {
    ExpectReads(ts, Dollar);
    NameReads(Expect(ts, Dollar).value);
    var p := ParseVariable(ts).value;
    assert [Punct(Dollar)] + ([NameToken(p.node.name)] + p.rest) == [Punct(Dollar), NameToken(p.node.name)] + p.rest;
  }

  lemma {:induction false} ValueReads(ts: Tokens, isConst: bool)
    requires TokensOk(ts) && ParseValue(ts, isConst).Ok?
    ensures var p := ParseValue(ts, isConst).value; ValueOk(p.node, isConst) && Read(ts, TokensValue(p.node, p.rest), p.rest)
    decreases |ts|, 0
  {
    var t := ts[0];
    if t.kind == Dollar && !isConst {
      VariableReads(ts);
    } else if t.kind == LeftBracket {
      ExpectReads(ts, LeftBracket);
      ValuesRead(Advance(ts).value, isConst);
    } else if t.kind == LeftBrace {
      ExpectReads(ts, LeftBrace);
      FieldsRead(Advance(ts).value, isConst);
    } else {
      AdvanceReads(ts);
    }
  }

  lemma {:induction false} ValuesRead(ts: Tokens, isConst: bool)
    requires TokensOk(ts) && ParseValues(ts, isConst).Ok?
    ensures var p := ParseValues(ts, isConst).value;
            && (forall v | v in p.node :: ValueOk(v, isConst))
            && Read(ts, TokensValues(p.node, [Punct(RightBracket)] + p.rest), p.rest)
    decreases |ts|, 1
  {
    if ts[0].kind == RightBracket {
      ExpectReads(ts, RightBracket);
    } else {
      ValueReads(ts, isConst);
      var value := ParseValue(ts, isConst).value;
      ValuesRead(value.rest, isConst);
      assert ([value.node] + ParseValues(value.rest, isConst).value.node)[1..] == ParseValues(value.rest, isConst).value.node;
    }
  }

  lemma {:induction false} FieldReads(ts: Tokens, isConst: bool)
    requires TokensOk(ts) && ParseField(ts, isConst).Ok?
    ensures var p := ParseField(ts, isConst).value;
            IsName(p.node.name) && ValueOk(p.node.value, isConst) && Read(ts, TokensField(p.node, p.rest), p.rest)
    decreases |ts|, 1
  {
    NameColonReads(ts);
    ValueReads(Expect(ParseName(ts).value.rest, Colon).value, isConst);
  }

  lemma {:induction false} FieldsRead(ts: Tokens, isConst: bool)
    requires TokensOk(ts) && ParseFields(ts, isConst).Ok?
    ensures var p := ParseFields(ts, isConst).value;
            && (forall f | f in p.node :: IsName(f.name) && ValueOk(f.value, isConst))
            && Read(ts, TokensFields(p.node, [Punct(RightBrace)] + p.rest), p.rest)
    decreases |ts|, 2
  {
    if ts[0].kind == RightBrace {
      ExpectReads(ts, RightBrace);
    } else {
      FieldReads(ts, isConst);
      var field := ParseField(ts, isConst).value;
      FieldsRead(field.rest, isConst);
      assert ([field.node] + ParseFields(field.rest, isConst).value.node)[1..] == ParseFields(field.rest, isConst).value.node;
    }
  }

  // ---------------------------------------------------------------------------------------------
  // Types, arguments, directives
  // ---------------------------------------------------------------------------------------------

  lemma BangReads(t: Type, ts: Tokens)
    requires TokensOk(ts) && ParseBang(t, ts).Ok? && TypeOk(t) && !t.NonNullType?
    ensures var p := ParseBang(t, ts).value;
            TypeOk(p.node) && TokensOk(p.rest) && TokensType(p.node, p.rest) == TokensType(t, ts)
  {
    if ts[0].kind == Bang { ExpectReads(ts, Bang); }
  }

  lemma {:induction false} TypeReads(ts: Tokens)
    requires TokensOk(ts) && ParseType(ts).Ok?
    ensures var p := ParseType(ts).value; TypeOk(p.node) && Read(ts, TokensType(p.node, p.rest), p.rest)
    decreases |ts|
  {
    if ts[0].kind == LeftBracket {
      ExpectReads(ts, LeftBracket);
      TypeReads(Advance(ts).value);
      var item := ParseType(Advance(ts).value).value;
      ExpectReads(item.rest, RightBracket);
      BangReads(ListType(item.node), Expect(item.rest, RightBracket).value);
    } else {
      NameReads(ts);
      var name := ParseName(ts).value;
      BangReads(NamedType(name.node), name.rest);
    }
  }

  lemma ArgumentReads(ts: Tokens, isConst: bool)
    requires TokensOk(ts) && ParseArgument(ts, isConst).Ok?
    ensures var p := ParseArgument(ts, isConst).value;
            IsName(p.node.name) && ValueOk(p.node.value, isConst) && Read(ts, TokensArgument(p.node, p.rest), p.rest)
  {
    NameColonReads(ts);
    ValueReads(Expect(ParseName(ts).value.rest, Colon).value, isConst);
  }

  lemma {:induction false} ArgumentListReads(ts: Tokens, isConst: bool)
    requires TokensOk(ts) && ParseArgumentList(ts, isConst).Ok?
    ensures var p := ParseArgumentList(ts, isConst).value;
            p.node != [] && ArgumentsOk(p.node, isConst) && Read(ts, TokensArgumentList(p.node, [Punct(RightParen)] + p.rest), p.rest)
    decreases |ts|
  {
    ArgumentReads(ts, isConst);
    var argument := ParseArgument(ts, isConst).value;
    if argument.rest[0].kind == RightParen {
      ExpectReads(argument.rest, RightParen);
      assert [argument.node][1..] == [];
    } else {
      ArgumentListReads(argument.rest, isConst);
      var more := ParseArgumentList(argument.rest, isConst).value.node;
      assert ([argument.node] + more)[1..] == more;
    }
  }

  lemma ArgumentsRead(ts: Tokens, isConst: bool)
    requires TokensOk(ts) && ParseArguments(ts, isConst).Ok?
    ensures var p := ParseArguments(ts, isConst).value;
            ArgumentsOk(p.node, isConst) && Read(ts, TokensArguments(p.node, p.rest), p.rest)
  {
    if ts[0].kind == LeftParen {
      ExpectReads(ts, LeftParen);
      ArgumentListReads(Advance(ts).value, isConst);
    }
  }

  lemma DirectiveReads(ts: Tokens, isConst: bool)
    requires TokensOk(ts) && ParseDirective(ts, isConst).Ok?
    ensures var p := ParseDirective(ts, isConst).value;
            IsName(p.node.name) && ArgumentsOk(p.node.arguments, isConst) && Read(ts, TokensDirective(p.node, p.rest), p.rest)
  {
    ExpectReads(ts, At);
    var rest := Expect(ts, At).value;
    NameReads(rest);
    var name := ParseName(rest).value;
    ArgumentsRead(name.rest, isConst);
    assert [Punct(At)] + ([NameToken(name.node)] + name.rest) == [Punct(At), NameToken(name.node)] + name.rest;
  }

  lemma {:induction false} DirectivesRead(ts: Tokens, isConst: bool)
    requires TokensOk(ts) && ParseDirectives(ts, isConst).Ok?
    ensures var p := ParseDirectives(ts, isConst).value;
            DirectivesOk(p.node, isConst) && Read(ts, TokensDirectives(p.node, p.rest), p.rest)
    decreases |ts|
  {
    if ts[0].kind == At {
      DirectiveReads(ts, isConst);
      var directive := ParseDirective(ts, isConst).value;
      DirectivesRead(directive.rest, isConst);
      var more := ParseDirectives(directive.rest, isConst).value.node;
      assert ([directive.node] + more)[1..] == more;
    }
  }

  // ---------------------------------------------------------------------------------------------
  // Selections
  // ---------------------------------------------------------------------------------------------

  lemma {:induction false} SelectionSetReads(ts: Tokens)
    requires TokensOk(ts) && ParseSelectionSet(ts).Ok?
    ensures var p := ParseSelectionSet(ts).value;
            p.node != [] && SelectionsOk(p.node) && Read(ts, TokensSelectionSet(p.node, p.rest), p.rest)
    decreases |ts|, 0
  {
    ExpectReads(ts, LeftBrace);
    SelectionsRead(Expect(ts, LeftBrace).value);
  }

  lemma {:induction false} SelectionsRead(ts: Tokens)
    requires TokensOk(ts) && ParseSelections(ts).Ok?
    ensures var p := ParseSelections(ts).value;
            p.node != [] && SelectionsOk(p.node) && Read(ts, TokensSelections(p.node, [Punct(RightBrace)] + p.rest), p.rest)
    decreases |ts|, 4
  {
    SelectionReads(ts);
    var selection := ParseSelection(ts).value;
    if selection.rest[0].kind == RightBrace {
      ExpectReads(selection.rest, RightBrace);
      assert [selection.node][1..] == [];
    } else {
      SelectionsRead(selection.rest);
      var more := ParseSelections(selection.rest).value.node;
      assert ([selection.node] + more)[1..] == more;
    }
  }

  lemma {:induction false} SelectionReads(ts: Tokens)
    requires TokensOk(ts) && ParseSelection(ts).Ok?
    ensures var p := ParseSelection(ts).value; SelectionOk(p.node) && Read(ts, TokensSelection(p.node, p.rest), p.rest)
    decreases |ts|, 3
  {
    if ts[0].kind == Spread {
      ExpectReads(ts, Spread);
      var rest := Advance(ts).value;
      if rest[0].kind != Name || rest[0].value == "on" {
        InlineFragmentReads(rest);
      } else {
        SpreadReads(rest);
      }
    } else {
      FieldSelectionReads(ts);
    }
  }

  lemma SpreadReads(ts: Tokens)
    requires TokensOk(ts) && ts[0].value != "on" && ParseFragmentSpread(ts).Ok?
    ensures var p := ParseFragmentSpread(ts).value;
            && SelectionOk(p.node) && p.node.FragmentSpread?
            && Read([Punct(Spread)] + ts, TokensSelection(p.node, p.rest), p.rest)
  {
    NameReads(ts);
    var name := ParseName(ts).value;
    DirectivesRead(name.rest, false);
    assert [Punct(Spread)] + ([NameToken(name.node)] + name.rest) == [Punct(Spread), NameToken(name.node)] + name.rest;
  }

  lemma {:induction false} OptionalSetReads(ts: Tokens)
    requires TokensOk(ts) && ParseOptionalSet(ts).Ok?
    ensures var p := ParseOptionalSet(ts).value; SelectionsOk(p.node) && Read(ts, TokensSelectionSet(p.node, p.rest), p.rest)
    decreases |ts|, 1
  {
    if ts[0].kind == LeftBrace { SelectionSetReads(ts); }
  }

  lemma {:induction false} FieldSelectionReads(ts: Tokens)
    requires TokensOk(ts) && ParseFieldSelection(ts).Ok?
    ensures var p := ParseFieldSelection(ts).value; SelectionOk(p.node) && Read(ts, TokensSelection(p.node, p.rest), p.rest)
    decreases |ts|, 1
  {
    NameReads(ts);
    var first := ParseName(ts).value;
    if first.rest[0].kind == Colon {
      NameColonReads(ts);
      var rest := Advance(first.rest).value;
      NameReads(rest);
      var name := ParseName(rest).value;
      FieldTailReads(name.rest, Some(first.node), name.node);
    } else {
      FieldTailReads(first.rest, None, first.node);
      assert [] + ts == ts;
    }
  }

  /** The tokens of a field, up to its name. */
  function FieldNameTokensOf(alias: Option<string>, name: string, ts: seq<Token>): seq<Token> {
    (if alias == None then [] else [NameToken(alias.value), Punct(Colon)]) + ([NameToken(name)] + ts)
  }

  lemma {:induction false} FieldTailReads(ts: Tokens, alias: Option<string>, name: string)
    requires TokensOk(ts) && ParseFieldTail(ts, alias, name).Ok? && (alias == None || IsName(alias.value)) && IsName(name)
    ensures var p := ParseFieldTail(ts, alias, name).value;
            SelectionOk(p.node) && Read(FieldNameTokensOf(alias, name, ts), TokensSelection(p.node, p.rest), p.rest)
    decreases |ts|, 2
  {
    ArgumentsRead(ts, false);
    var arguments := ParseArguments(ts, false).value;
    DirectivesRead(arguments.rest, false);
    OptionalSetReads(ParseDirectives(arguments.rest, false).value.rest);
  }

  lemma ConditionReads(ts: Tokens)
    requires TokensOk(ts) && ParseTypeCondition(ts).Ok?
    ensures var p := ParseTypeCondition(ts).value;
            IsName(p.node) && Read(ts, [NameToken("on"), NameToken(p.node)] + p.rest, p.rest)
  {
    AdvanceReads(ts);
    NameReads(Advance(ts).value);
    var p := ParseTypeCondition(ts).value;
    assert [NameToken("on")] + ([NameToken(p.node)] + p.rest) == [NameToken("on"), NameToken(p.node)] + p.rest;
  }

  lemma {:induction false} InlineFragmentReads(ts: Tokens)
    requires TokensOk(ts) && ParseInlineFragment(ts).Ok?
    ensures var p := ParseInlineFragment(ts).value;
            SelectionOk(p.node) && Read([Punct(Spread)] + ts, TokensSelection(p.node, p.rest), p.rest)
    decreases |ts|, 2
  {
    if ts[0].kind == Name {
      ConditionReads(ts);
      var condition := ParseTypeCondition(ts).value;
      InlineTailReads(condition.rest, Some(condition.node));
    } else {
      InlineTailReads(ts, None);
      assert [] + ts == ts;
    }
  }

  lemma {:induction false} InlineTailReads(ts: Tokens, condition: Option<string>)
    requires TokensOk(ts) && ParseInlineTail(ts, condition).Ok? && (condition == None || IsName(condition.value))
    ensures var p := ParseInlineTail(ts, condition).value;
            SelectionOk(p.node) && Read(ConditionTokensOf(condition, ts), TokensSelection(p.node, p.rest), p.rest)
    decreases |ts|, 1
  {
    DirectivesRead(ts, false);
    SelectionSetReads(ParseDirectives(ts, false).value.rest);
  }

  /** The tokens of an inline fragment, up to its type condition. */
  function ConditionTokensOf(condition: Option<string>, ts: seq<Token>): seq<Token> {
    [Punct(Spread)] + ((if condition == None then [] else [NameToken("on"), NameToken(condition.value)]) + ts)
  }

  // ---------------------------------------------------------------------------------------------
  // Definitions
  // ---------------------------------------------------------------------------------------------

  /** The parts of a variable definition, one behind the other. */
  lemma VariableParts(ts: Tokens) returns (colon: Tokens, type_: Tokens, more: Tokens, tail: Tokens)
    requires ParseVariableDefinition(ts).Ok?
    ensures var p := ParseVariableDefinition(ts).value; var d := p.node;
            && ParseVariable(ts) == Ok(Parsed(Variable(d.name), colon)) && Expect(colon, Colon) == Ok(type_)
            && ParseType(type_) == Ok(Parsed(d.type_, more))
            && (if d.default_ == None then more == tail
                else Expect(more, Equals).Ok? && ParseValue(Expect(more, Equals).value, true) == Ok(Parsed(d.default_.value, tail)))
            && ParseDirectives(tail, true) == Ok(Parsed(d.directives, p.rest))
  {
    colon := ParseVariable(ts).value.rest;
    type_ := Expect(colon, Colon).value;
    more := ParseType(type_).value.rest;
    tail := if more[0].kind == Equals then ParseValue(Advance(more).value, true).value.rest else more;
  }

  lemma VariableDefinitionReads(ts: Tokens)
    requires TokensOk(ts) && ParseVariableDefinition(ts).Ok?
    ensures var p := ParseVariableDefinition(ts).value;
            VariableOk(p.node) && Read(ts, TokensVariableDefinition(p.node, p.rest), p.rest)
  {
    var colon, type_, more, tail := VariableParts(ts);
    var d := ParseVariableDefinition(ts).value.node;
    VariableReads(ts);
    ExpectReads(colon, Colon);
    TypeReads(type_);
    if d.default_.Some? {
      ExpectReads(more, Equals);
      ValueReads(Expect(more, Equals).value, true);
    }
    DirectivesRead(tail, true);
    assert [Punct(Dollar), NameToken(d.name)] + ([Punct(Colon)] + type_) == [Punct(Dollar), NameToken(d.name), Punct(Colon)] + type_;
  }

  lemma {:induction false} VariableListReads(ts: Tokens)
    requires TokensOk(ts) && ParseVariableList(ts).Ok?
    ensures var p := ParseVariableList(ts).value;
            p.node != [] && VariablesOk(p.node) && Read(ts, TokensVariableList(p.node, [Punct(RightParen)] + p.rest), p.rest)
    decreases |ts|
  {
    VariableDefinitionReads(ts);
    var definition := ParseVariableDefinition(ts).value;
    if definition.rest[0].kind == RightParen {
      ExpectReads(definition.rest, RightParen);
      assert [definition.node][1..] == [];
    } else {
      VariableListReads(definition.rest);
      var more := ParseVariableList(definition.rest).value.node;
      assert ([definition.node] + more)[1..] == more;
    }
  }

  lemma VariablesRead(ts: Tokens)
    requires TokensOk(ts) && ParseVariables(ts).Ok?
    ensures var p := ParseVariables(ts).value; VariablesOk(p.node) && Read(ts, TokensVariables(p.node, p.rest), p.rest)
  {
    if ts[0].kind == LeftParen {
      ExpectReads(ts, LeftParen);
      VariableListReads(Advance(ts).value);
    }
  }

  /** The tokens of a definition as it was written: the keyword of an anonymous query may be there. */
  function SourceTokens(d: Definition, ts: seq<Token>): seq<Token> {
    if IsShorthand(d) && d.operation.Some? then [NameToken("query")] + TokensSelectionSet(d.selections, ts)
    else TokensDefinition(d, ts)
  }

  /** The tokens of a full operation, up to its name. */
  function HeadTokens(keyword: string, title: Option<string>, ts: seq<Token>): seq<Token> {
    [NameToken(keyword)] + ((if title == None then [] else [NameToken(title.value)]) + ts)
  }

  lemma OperationTailReads(ts: Tokens, operation: OperationType, title: Option<string>)
    requires TokensOk(ts) && (title == None || IsName(title.value))
    requires ParseOperationTail(ts, Some(operation), title).Ok?
    ensures var p := ParseOperationTail(ts, Some(operation), title).value;
            && DefinitionOk(p.node)
            && Read(HeadTokens(Keyword(Some(operation)), title, ts), SourceTokens(p.node, p.rest), p.rest)
  {
    VariablesRead(ts);
    var variables := ParseVariables(ts).value;
    DirectivesRead(variables.rest, false);
    SelectionSetReads(ParseDirectives(variables.rest, false).value.rest);
    var d := ParseOperationTail(ts, Some(operation), title).value.node;
    if IsShorthand(d) { assert [] + ts == ts; }
  }

  lemma KeywordOf(keyword: string)
    requires OperationOf(keyword).Some?
    ensures Keyword(OperationOf(keyword)) == keyword
  {
  }

  lemma OperationReads(ts: Tokens)
    requires TokensOk(ts) && ts[0].kind == Name && OperationOf(ts[0].value).Some? && ParseOperation(ts).Ok?
    ensures var p := ParseOperation(ts).value; DefinitionOk(p.node) && Read(ts, SourceTokens(p.node, p.rest), p.rest)
  {
    NameReads(ts);
    var keyword := ParseName(ts).value;
    KeywordOf(keyword.node);
    if keyword.rest[0].kind == Name {
      NameReads(keyword.rest);
      var title := ParseName(keyword.rest).value;
      OperationTailReads(title.rest, OperationOf(keyword.node).value, Some(title.node));
    } else {
      OperationTailReads(keyword.rest, OperationOf(keyword.node).value, None);
      assert [] + keyword.rest == keyword.rest;
    }
  }

  lemma FragmentTailReads(ts: Tokens, name: string, variables: seq<VariableDefinition>)
    requires TokensOk(ts) && IsName(name) && name != "on" && VariablesOk(variables)
    requires ParseFragmentTail(ts, name, variables).Ok?
    ensures var p := ParseFragmentTail(ts, name, variables).value;
            && DefinitionOk(p.node) && p.node.Fragment?
            && Read([NameToken("fragment"), NameToken(name)] + TokensVariables(variables, ts), TokensDefinition(p.node, p.rest), p.rest)
  {
    ConditionReads(ts);
    var condition := ParseTypeCondition(ts).value;
    DirectivesRead(condition.rest, false);
    SelectionSetReads(ParseDirectives(condition.rest, false).value.rest);
  }

  lemma FragmentReads(ts: Tokens, variables: bool)
    requires TokensOk(ts) && ts[0] == NameToken("fragment") && ParseFragment(ts, variables).Ok?
    ensures var p := ParseFragment(ts, variables).value;
            DefinitionOk(p.node) && p.node.Fragment? && Read(ts, TokensDefinition(p.node, p.rest), p.rest)
  {
    NameReads(ts);
    var keyword := ParseName(ts).value;
    NameReads(keyword.rest);
    var name := ParseName(keyword.rest).value;
    assert [NameToken("fragment")] + ([NameToken(name.node)] + name.rest) == [NameToken("fragment"), NameToken(name.node)] + name.rest;
    if variables {
      VariablesRead(name.rest);
      var definitions := ParseVariables(name.rest).value;
      FragmentTailReads(definitions.rest, name.node, definitions.node);
    } else {
      FragmentTailReads(name.rest, name.node, []);
    }
  }

  lemma DefinitionReads(ts: Tokens, variables: bool)
    requires TokensOk(ts) && ParseDefinition(ts, variables).Ok?
    ensures var p := ParseDefinition(ts, variables).value; DefinitionOk(p.node) && Read(ts, SourceTokens(p.node, p.rest), p.rest)
  {
    if ts[0].kind == Name && OperationOf(ts[0].value).Some? {
      OperationReads(ts);
    } else if ts[0] == NameToken("fragment") {
      FragmentReads(ts, variables);
    } else {
      SelectionSetReads(ts);
    }
  }

  function AllSourceTokens(ds: seq<Definition>): seq<Token> {
    if ds == [] then [END] else SourceTokens(ds[0], AllSourceTokens(ds[1..]))
  }

  /** Parsing loses nothing: the tokens of the definitions are the tokens that they were parsed from. */
  lemma {:induction false} DefinitionsRead(ts: Tokens, variables: bool)
    requires TokensOk(ts) && ParseDefinitions(ts, variables).Ok?
    ensures var ds := ParseDefinitions(ts, variables).value; DocumentOk(ds) && ts == AllSourceTokens(ds)
    decreases |ts|
  {
    DefinitionReads(ts, variables);
    var definition := ParseDefinition(ts, variables).value;
    if definition.rest[0].kind == EOF {
      assert TokenOk(definition.rest[0]);
      assert definition.rest == [END] && [definition.node][1..] == [];
    } else {
      DefinitionsRead(definition.rest, variables);
      var more := ParseDefinitions(definition.rest, variables).value;
      assert ([definition.node] + more)[1..] == more;
    }
  }

  // ---------------------------------------------------------------------------------------------
  // Documents
  // ---------------------------------------------------------------------------------------------

  function Unmarked(body: string): string {
    if BYTE_ORDER_MARK <= body then body[3..] else body
  }

  /** What the parser accepts is well-formed, and its tokens are those of the source text. */
  lemma AcceptedIsWellFormed(body: string, variables: bool)
    requires ParseDocument(Lexing.Tokens(body), variables).Ok?
    ensures var ds := ParseDocument(Lexing.Tokens(body), variables).value;
            DocumentOk(ds) && Lex(Unmarked(body)) == AllSourceTokens(ds)
  {
    LexedTokensOk(Unmarked(body));
    assert Lexing.Tokens(body)[1..] == Lex(Unmarked(body));
    DefinitionsRead(Lex(Unmarked(body)), variables);
  }

  lemma SourcePrintable(d: Definition, ts: seq<Token>)
    ensures AllPrintable(SourceTokens(d, ts)) <==> PrintableDefinition(d) && AllPrintable(ts)
  {
    DefinitionTokens(d, ts);
    if IsShorthand(d) && d.operation.Some? {
      PlainInFront(NameToken("query"), TokensSelectionSet(d.selections, ts));
    }
  }

  lemma {:induction false} SourceTokensPrintable(ds: seq<Definition>)
    ensures AllPrintable(AllSourceTokens(ds)) <==> PrintableDocument(ds)
  {
    if ds == [] {
      assert Printable(END);
    } else {
      SourceTokensPrintable(ds[1..]);
      SourcePrintable(ds[0], AllSourceTokens(ds[1..]));
      assert forall x :: x in ds <==> x == ds[0] || x in ds[1..];
    }
  }

  /** A normalized document is written as it is printed. */
  lemma {:induction false} NormalizedSource(ds: seq<Definition>)
    ensures AllSourceTokens(NormalizedAll(ds)) == TokensDefinitions(ds, [END])
  {
    if ds != [] {
      NormalizedSource(ds[1..]);
      NormalizedTail(ds);
    }
  }

  /** If the printed form is accepted as the same document then its tokens are those of the document. */
  lemma SameDocumentSameTokens(ds: seq<Definition>)
    requires DocumentOk(ds) && ParseDocument(Lexing.Tokens(PrintDocument(ds)), true) == Ok(NormalizedAll(ds))
    ensures Lex(PrintDocument(ds)) == TokensDefinitions(ds, [END])
  {
    AcceptedIsWellFormed(PrintDocument(ds), true);
    NoByteOrderMark(ds);
    NormalizedSource(ds);
  }

  /** Parsing undoes printing exactly for the documents whose strings are all printable. */
  lemma DocumentRoundTripExactly(ds: seq<Definition>)
    requires DocumentOk(ds)
    ensures ParseDocument(Lexing.Tokens(PrintDocument(ds)), true) == Ok(NormalizedAll(ds)) <==> PrintableDocument(ds)
  {
    if PrintableDocument(ds) {
      DocumentRoundTrip(ds);
    } else if ParseDocument(Lexing.Tokens(PrintDocument(ds)), true) == Ok(NormalizedAll(ds)) {
      SameDocumentSameTokens(ds);
      PrintedDocumentLexes(ds);
      DocumentTokens(ds, [END]);
      assert false;
    }
  }

  /** The printed form of an accepted source text is accepted as the same document, up to the shorthand of
      queries, exactly if the string tokens of the text are printable. */
  lemma AcceptedRoundTrip(body: string, variables: bool)
    requires ParseDocument(Lexing.Tokens(body), variables).Ok?
    ensures var ds := ParseDocument(Lexing.Tokens(body), variables).value;
            ParseDocument(Lexing.Tokens(PrintDocument(ds)), true) == Ok(NormalizedAll(ds)) <==> AllPrintable(Lexing.Tokens(body))
  {
    var ds := ParseDocument(Lexing.Tokens(body), variables).value;
    AcceptedIsWellFormed(body, variables);
    SourceTokensPrintable(ds);
    PlainInFront(Token(SOF, ""), Lex(Unmarked(body)));
    DocumentRoundTripExactly(ds);
  }
}
