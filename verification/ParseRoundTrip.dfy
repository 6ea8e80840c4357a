/** Parsing the tokens of a well-formed syntax tree gives the tree back. */
module ParseRoundTrip {
  import opened Wrappers
  import opened Ast
  import opened Lexing
  import opened Parsing
  import opened Grammar
  import opened WellFormed
  import opened PrintableTokens
  import opened PrintedTokens

  /** Tokens that the parser can move on to. */
  predicate Good(ts: seq<Token>) {
    ts != [] && ts[0].kind != Bad
  }

  lemma AdvanceOver(t: Token, ts: seq<Token>)
    requires Good(ts) && t.kind != EOF
    ensures Advance([t] + ts) == Ok(ts)
  {
    assert ([t] + ts)[1..] == ts;
  }

  lemma NameOver(name: string, ts: seq<Token>)
    requires Good(ts)
    ensures ParseName([NameToken(name)] + ts) == Ok(Parsed(name, ts))
  {
    AdvanceOver(NameToken(name), ts);
  }

  /** A name and a colon in front of more. */
  lemma NameColonOver(name: string, ts: seq<Token>)
    requires Good(ts)
    ensures var all := [NameToken(name), Punct(Colon)] + ts; var more := [Punct(Colon)] + ts;
            ParseName(all) == Ok(Parsed(name, more)) && Expect(more, Colon) == Ok(ts)
  {
    var more := [Punct(Colon)] + ts;
    assert [NameToken(name), Punct(Colon)] + ts == [NameToken(name)] + more;
    NameOver(name, more);
    AdvanceOver(Punct(Colon), ts);
  }

  // ---------------------------------------------------------------------------------------------
  // Values
  // ---------------------------------------------------------------------------------------------

  predicate StartsValue(kind: Kind) {
    kind == Dollar || kind == Int || kind == Float || kind == String || kind == BlockString || kind == Name
    || kind == LeftBracket || kind == LeftBrace
  }

  lemma ValueHead(v: Value, ts: seq<Token>)
    ensures TokensValue(v, ts) != [] && StartsValue(TokensValue(v, ts)[0].kind)
  {
  }

  lemma {:induction false} ValueParses(v: Value, isConst: bool, ts: seq<Token>)
    requires ValueOk(v, isConst) && Good(ts)
    ensures TokensValue(v, ts) != [] && ParseValue(TokensValue(v, ts), isConst) == Ok(Parsed(v, ts))
    decreases v, 0
  {
    ValueHead(v, ts);
    match v
    case Variable(name) =>
      assert [Punct(Dollar), NameToken(name)] + ts == [Punct(Dollar)] + ([NameToken(name)] + ts);
      AdvanceOver(Punct(Dollar), [NameToken(name)] + ts);
      NameOver(name, ts);
    case IntValue(text) => AdvanceOver(Token(Int, text), ts);
    case FloatValue(text) => AdvanceOver(Token(Float, text), ts);
    case StringValue(value, block) => AdvanceOver(Token(if block then BlockString else String, value), ts);
    case BooleanValue(b) => AdvanceOver(NameToken(if b then "true" else "false"), ts);
    case NullValue => AdvanceOver(NameToken("null"), ts);
    case EnumValue(name) => AdvanceOver(NameToken(name), ts);
    case ListValue(values) =>
      var more := TokensValues(values, [Punct(RightBracket)] + ts);
      ValuesParse(values, isConst, ts);
      AdvanceOver(Punct(LeftBracket), more);
    case ObjectValue(fields) =>
      var more := TokensFields(fields, [Punct(RightBrace)] + ts);
      FieldsParse(fields, isConst, ts);
      AdvanceOver(Punct(LeftBrace), more);
  }

  lemma {:induction false} ValuesParse(values: seq<Value>, isConst: bool, ts: seq<Token>)
    requires (forall x | x in values :: ValueOk(x, isConst)) && Good(ts)
    ensures var all := TokensValues(values, [Punct(RightBracket)] + ts);
            Good(all) && ParseValues(all, isConst) == Ok(Parsed(values, ts))
    decreases values
  {
    if values == [] {
      ValuesEnd(isConst, ts);
    } else {
      ValuesParse(values[1..], isConst, ts);
      assert values[0] in values && [values[0]] + values[1..] == values;
      ValueFirst(values[0], isConst, TokensValues(values[1..], [Punct(RightBracket)] + ts), values[1..], ts);
    }
  }

  lemma {:induction false} ValueFirst(v: Value, isConst: bool, more: seq<Token>, values: seq<Value>, ts: seq<Token>)
    requires ValueOk(v, isConst) && Good(more) && ParseValues(more, isConst) == Ok(Parsed(values, ts))
    ensures var all := TokensValue(v, more); Good(all) && ParseValues(all, isConst) == Ok(Parsed([v] + values, ts))
    decreases v, 1
  {
    ValueHead(v, more);
    ValueParses(v, isConst, more);
    ValueStep(TokensValue(v, more), isConst, v, more, values, ts);
  }

  lemma ValuesEnd(isConst: bool, ts: seq<Token>)
    requires Good(ts)
    ensures ParseValues([Punct(RightBracket)] + ts, isConst) == Ok(Parsed([], ts))
  {
    AdvanceOver(Punct(RightBracket), ts);
  }

  /** A value in front of more values. */
  lemma ValueStep(all: Tokens, isConst: bool, v: Value, more: Tokens, values: seq<Value>, ts: seq<Token>)
    requires all[0].kind != RightBracket && ParseValue(all, isConst) == Ok(Parsed(v, more))
    requires ParseValues(more, isConst) == Ok(Parsed(values, ts))
    ensures ParseValues(all, isConst) == Ok(Parsed([v] + values, ts))
  {
  }

  lemma {:induction false} FieldParses(f: ObjectField, isConst: bool, ts: seq<Token>)
    requires IsName(f.name) && ValueOk(f.value, isConst) && Good(ts)
    ensures ParseField(TokensField(f, ts), isConst) == Ok(Parsed(f, ts))
    decreases f, 0
  {
    ValueHead(f.value, ts);
    NameColonOver(f.name, TokensValue(f.value, ts));
    ValueParses(f.value, isConst, ts);
  }

  lemma {:induction false} FieldsParse(fields: seq<ObjectField>, isConst: bool, ts: seq<Token>)
    requires (forall f | f in fields :: IsName(f.name) && ValueOk(f.value, isConst)) && Good(ts)
    ensures var all := TokensFields(fields, [Punct(RightBrace)] + ts);
            Good(all) && ParseFields(all, isConst) == Ok(Parsed(fields, ts))
    decreases fields
  {
    if fields == [] {
      FieldsEnd(isConst, ts);
    } else {
      FieldsParse(fields[1..], isConst, ts);
      assert fields[0] in fields && [fields[0]] + fields[1..] == fields;
      FieldFirst(fields[0], isConst, TokensFields(fields[1..], [Punct(RightBrace)] + ts), fields[1..], ts);
    }
  }

  lemma {:induction false} FieldFirst(f: ObjectField, isConst: bool, more: seq<Token>, fields: seq<ObjectField>, ts: seq<Token>)
    requires IsName(f.name) && ValueOk(f.value, isConst) && Good(more) && ParseFields(more, isConst) == Ok(Parsed(fields, ts))
    ensures var all := TokensField(f, more); Good(all) && ParseFields(all, isConst) == Ok(Parsed([f] + fields, ts))
    decreases f, 1
  {
    FieldParses(f, isConst, more);
    FieldStep(TokensField(f, more), isConst, f, more, fields, ts);
  }

  lemma FieldsEnd(isConst: bool, ts: seq<Token>)
    requires Good(ts)
    ensures ParseFields([Punct(RightBrace)] + ts, isConst) == Ok(Parsed([], ts))
  {
    AdvanceOver(Punct(RightBrace), ts);
  }

  /** A field in front of more fields. */
  lemma FieldStep(all: Tokens, isConst: bool, f: ObjectField, more: Tokens, fields: seq<ObjectField>, ts: seq<Token>)
    requires all[0].kind != RightBrace && ParseField(all, isConst) == Ok(Parsed(f, more))
    requires ParseFields(more, isConst) == Ok(Parsed(fields, ts))
    ensures ParseFields(all, isConst) == Ok(Parsed([f] + fields, ts))
  {
  }

  // ---------------------------------------------------------------------------------------------
  // Types
  // ---------------------------------------------------------------------------------------------

  lemma {:induction false} TypeHead(t: Type, ts: seq<Token>)
    ensures Good(TokensType(t, ts))
  {
    if t.ListType? {
      TypeHead(t.item, [Punct(RightBracket)] + ts);
    } else if t.NonNullType? {
      TypeHead(t.inner, [Punct(Bang)] + ts);
    }
  }

  lemma {:induction false} TypeParses(t: Type, ts: seq<Token>)
    requires TypeOk(t) && Good(ts) && ts[0].kind != Bang
    ensures TokensType(t, ts) != [] && ParseType(TokensType(t, ts)) == Ok(Parsed(t, ts))
    decreases t
  {
    TypeHead(t, ts);
    if t.NonNullType? {
      AdvanceOver(Punct(Bang), ts);
      NullableParses(t.inner, [Punct(Bang)] + ts);
    } else {
      NullableParses(t, ts);
    }
  }

  /** A type that is not non-null: what is behind it decides on the exclamation mark. */
  lemma {:induction false} NullableParses(t: Type, ts: seq<Token>)
    requires TypeOk(t) && !t.NonNullType? && Good(ts)
    ensures TokensType(t, ts) != [] && ParseType(TokensType(t, ts)) == ParseBang(t, ts)
    decreases t, 0
  {
    TypeHead(t, ts);
    match t
    case NamedType(name) => NameOver(name, ts);
    case ListType(item) =>
      var more := [Punct(RightBracket)] + ts;
      TypeHead(item, more);
      TypeParses(item, more);
      AdvanceOver(Punct(LeftBracket), TokensType(item, more));
      AdvanceOver(Punct(RightBracket), ts);
  }

  // ---------------------------------------------------------------------------------------------
  // Arguments and directives
  // ---------------------------------------------------------------------------------------------

  lemma ArgumentParses(a: Argument, isConst: bool, ts: seq<Token>)
    requires IsName(a.name) && ValueOk(a.value, isConst) && Good(ts)
    ensures ParseArgument(TokensArgument(a, ts), isConst) == Ok(Parsed(a, ts))
  {
    ValueHead(a.value, ts);
    NameColonOver(a.name, TokensValue(a.value, ts));
    ValueParses(a.value, isConst, ts);
  }

  /** One argument in front of `all`, which closes the list or parses to `more`. */
  lemma {:induction false} ArgumentStep(a: Argument, isConst: bool, all: seq<Token>, more: seq<Argument>, ts: seq<Token>)
    requires IsName(a.name) && ValueOk(a.value, isConst) && Good(all)
    requires if all[0].kind == RightParen then more == [] && Advance(all) == Ok(ts)
             else ParseArgumentList(all, isConst) == Ok(Parsed(more, ts))
    ensures var r := TokensArgument(a, all);
            Good(r) && r[0].kind == Name && ParseArgumentList(r, isConst) == Ok(Parsed([a] + more, ts))
  {
    ArgumentParses(a, isConst, all);
    assert [a] + [] == [a];
  }

  lemma {:induction false} ArgumentListParses(args: seq<Argument>, isConst: bool, ts: seq<Token>)
    requires ArgumentsOk(args, isConst) && args != [] && Good(ts)
    ensures var all := TokensArgumentList(args, [Punct(RightParen)] + ts);
            Good(all) && all[0].kind == Name && ParseArgumentList(all, isConst) == Ok(Parsed(args, ts))
  {
    assert args[0] in args && args == [args[0]] + args[1..];
    if |args| > 1 {
      ArgumentListParses(args[1..], isConst, ts);
    } else {
      AdvanceOver(Punct(RightParen), ts);
    }
    ArgumentStep(args[0], isConst, TokensArgumentList(args[1..], [Punct(RightParen)] + ts), args[1..], ts);
  }

  lemma ArgumentsParse(args: seq<Argument>, isConst: bool, ts: seq<Token>)
    requires ArgumentsOk(args, isConst) && Good(ts) && ts[0].kind != LeftParen
    ensures var all := TokensArguments(args, ts);
            Good(all) && all[0].kind == (if args == [] then ts[0].kind else LeftParen)
            && ParseArguments(all, isConst) == Ok(Parsed(args, ts))
  {
    if args != [] {
      ArgumentListParses(args, isConst, ts);
      AdvanceOver(Punct(LeftParen), TokensArgumentList(args, [Punct(RightParen)] + ts));
    }
  }

  lemma DirectiveParses(d: Directive, isConst: bool, ts: seq<Token>)
    requires IsName(d.name) && ArgumentsOk(d.arguments, isConst) && Good(ts) && ts[0].kind != LeftParen
    ensures ParseDirective(TokensDirective(d, ts), isConst) == Ok(Parsed(d, ts))
  {
    var more := TokensArguments(d.arguments, ts);
    ArgumentsParse(d.arguments, isConst, ts);
    assert [Punct(At), NameToken(d.name)] + more == [Punct(At)] + ([NameToken(d.name)] + more);
    AdvanceOver(Punct(At), [NameToken(d.name)] + more);
    NameOver(d.name, more);
  }

  lemma {:induction false} DirectiveStep(d: Directive, isConst: bool, all: seq<Token>, more: seq<Directive>, ts: seq<Token>)
    requires IsName(d.name) && ArgumentsOk(d.arguments, isConst) && Good(all) && all[0].kind != LeftParen
    requires ParseDirectives(all, isConst) == Ok(Parsed(more, ts))
    ensures ParseDirectives(TokensDirective(d, all), isConst) == Ok(Parsed([d] + more, ts))
  {
    DirectiveParses(d, isConst, all);
  }

  lemma {:induction false} DirectivesParse(ds: seq<Directive>, isConst: bool, ts: seq<Token>)
    requires DirectivesOk(ds, isConst) && Good(ts) && ts[0].kind != LeftParen && ts[0].kind != At
    ensures var all := TokensDirectives(ds, ts);
            Good(all) && all[0].kind == (if ds == [] then ts[0].kind else At)
            && ParseDirectives(all, isConst) == Ok(Parsed(ds, ts))
  {
    if ds != [] {
      DirectivesParse(ds[1..], isConst, ts);
      assert ds[0] in ds && [ds[0]] + ds[1..] == ds;
      DirectiveStep(ds[0], isConst, TokensDirectives(ds[1..], ts), ds[1..], ts);
    }
  }

  // ---------------------------------------------------------------------------------------------
  // Selections
  // ---------------------------------------------------------------------------------------------

  /** What can stand behind a selection. */
  predicate EndsSelection(ts: seq<Token>) {
    ts != [] && (ts[0].kind == Name || ts[0].kind == Spread || ts[0].kind == RightBrace)
  }

  lemma SelectionHead(s: Selection, ts: seq<Token>)
    ensures var all := TokensSelection(s, ts); all != [] && (all[0].kind == Name || all[0].kind == Spread)
  {
  }

  /** One selection in front of `all`, which closes the set or parses to `more`. */
  lemma {:induction false} SelectionStep(s: Selection, all: seq<Token>, more: seq<Selection>, ts: seq<Token>)
    requires TokensSelection(s, all) != [] && ParseSelection(TokensSelection(s, all)) == Ok(Parsed(s, all)) && Good(all)
    requires if all[0].kind == RightBrace then more == [] && Advance(all) == Ok(ts)
             else ParseSelections(all) == Ok(Parsed(more, ts))
    ensures ParseSelections(TokensSelection(s, all)) == Ok(Parsed([s] + more, ts))
  {
    assert [s] + [] == [s];
  }

  lemma {:induction false} SelectionsParse(selections: seq<Selection>, ts: seq<Token>)
    requires SelectionsOk(selections) && selections != [] && Good(ts)
    ensures var all := TokensSelections(selections, [Punct(RightBrace)] + ts);
            EndsSelection(all) && (all[0].kind == Name || all[0].kind == Spread)
            && ParseSelections(all) == Ok(Parsed(selections, ts))
    decreases selections, 0
  {
    var more := TokensSelections(selections[1..], [Punct(RightBrace)] + ts);
    assert selections[0] in selections && selections == [selections[0]] + selections[1..];
    SelectionHead(selections[0], more);
    if |selections| > 1 {
      SelectionsParse(selections[1..], ts);
    } else {
      AdvanceOver(Punct(RightBrace), ts);
    }
    SelectionParses(selections[0], more);
    SelectionStep(selections[0], more, selections[1..], ts);
  }

  lemma {:induction false} SetParses(selections: seq<Selection>, ts: seq<Token>)
    requires SelectionsOk(selections) && selections != [] && Good(ts)
    ensures var all := TokensSelectionSet(selections, ts);
            all != [] && all[0].kind == LeftBrace && ParseSelectionSet(all) == Ok(Parsed(selections, ts))
    decreases selections, 1
  {
    SelectionsParse(selections, ts);
    AdvanceOver(Punct(LeftBrace), TokensSelections(selections, [Punct(RightBrace)] + ts));
  }

  lemma {:induction false} OptionalSetParses(selections: seq<Selection>, ts: seq<Token>)
    requires SelectionsOk(selections) && Good(ts) && ts[0].kind != LeftBrace
    ensures var all := TokensSelectionSet(selections, ts);
            Good(all) && all[0].kind == (if selections == [] then ts[0].kind else LeftBrace)
            && ParseOptionalSet(all) == Ok(Parsed(selections, ts))
    decreases selections, 2
  {
    if selections != [] {
      SetParses(selections, ts);
    }
  }

  lemma {:induction false} SelectionParses(s: Selection, ts: seq<Token>)
    requires SelectionOk(s) && EndsSelection(ts)
    ensures TokensSelection(s, ts) != [] && ParseSelection(TokensSelection(s, ts)) == Ok(Parsed(s, ts))
    decreases s
  {
    SelectionHead(s, ts);
    if s.Field? {
      FieldTailParses(s, ts);
      FieldHeadParses(s.alias, s.name, TokensArguments(s.arguments, TokensDirectives(s.directives, TokensSelectionSet(s.selections, ts))));
    } else if s.FragmentSpread? {
      SpreadParses(s.name, s.directives, ts);
    } else {
      InlineTailParses(s, ts);
      InlineHeadParses(s.condition, TokensDirectives(s.directives, TokensSelectionSet(s.selections, ts)));
    }
  }

  lemma {:induction false} SpreadParses(name: string, directives: seq<Directive>, ts: seq<Token>)
    requires IsName(name) && name != "on" && DirectivesOk(directives, false) && EndsSelection(ts)
    ensures ParseSelection([Punct(Spread), NameToken(name)] + TokensDirectives(directives, ts))
              == Ok(Parsed(FragmentSpread(name, directives), ts))
  {
    var more := TokensDirectives(directives, ts);
    DirectivesParse(directives, false, ts);
    SpreadOver(name, more);
  }

  lemma SpreadOver(name: string, ts: seq<Token>)
    requires name != "on" && Good(ts)
    ensures ParseSelection([Punct(Spread), NameToken(name)] + ts) == ParseFragmentSpread([NameToken(name)] + ts)
    ensures ParseName([NameToken(name)] + ts) == Ok(Parsed(name, ts))
  {
    assert [Punct(Spread), NameToken(name)] + ts == [Punct(Spread)] + ([NameToken(name)] + ts);
    AdvanceOver(Punct(Spread), [NameToken(name)] + ts);
    NameOver(name, ts);
  }

  lemma {:induction false} FieldTailParses(s: Selection, ts: seq<Token>)
    requires s.Field? && SelectionOk(s) && EndsSelection(ts)
    ensures var all := TokensArguments(s.arguments, TokensDirectives(s.directives, TokensSelectionSet(s.selections, ts)));
            Good(all) && all[0].kind != Colon && ParseFieldTail(all, s.alias, s.name) == Ok(Parsed(s, ts))
    decreases s, 0
  {
    var set_ := TokensSelectionSet(s.selections, ts);
    OptionalSetParses(s.selections, ts);
    DirectivesParse(s.directives, false, set_);
    ArgumentsParse(s.arguments, false, TokensDirectives(s.directives, set_));
  }

  /** The name of a field, with or without an alias. */
  lemma FieldHeadParses(alias: Option<string>, name: string, ts: seq<Token>)
    requires Good(ts) && ts[0].kind != Colon
    ensures var all := (if alias == None then [] else [NameToken(alias.value), Punct(Colon)]) + ([NameToken(name)] + ts);
            ParseSelection(all) == ParseFieldTail(ts, alias, name)
  {
    var more := [NameToken(name)] + ts;
    NameOver(name, ts);
    if alias.Some? {
      NameColonOver(alias.value, more);
    } else {
      assert [] + more == more;
    }
  }

  lemma {:induction false} InlineTailParses(s: Selection, ts: seq<Token>)
    requires s.InlineFragment? && SelectionOk(s) && EndsSelection(ts)
    ensures var all := TokensDirectives(s.directives, TokensSelectionSet(s.selections, ts));
            Good(all) && all[0].kind != Name && ParseInlineTail(all, s.condition) == Ok(Parsed(s, ts))
    decreases s, 0
  {
    SetParses(s.selections, ts);
    DirectivesParse(s.directives, false, TokensSelectionSet(s.selections, ts));
  }

  lemma InlineHeadParses(condition: Option<string>, ts: seq<Token>)
    requires Good(ts) && ts[0].kind != Name
    ensures var all := [Punct(Spread)] + ((if condition == None then [] else [NameToken("on"), NameToken(condition.value)]) + ts);
            ParseSelection(all) == ParseInlineTail(ts, condition)
  {
    if condition == None {
      assert [] + ts == ts;
      AdvanceOver(Punct(Spread), ts);
    } else {
      AdvanceOver(Punct(Spread), [NameToken("on"), NameToken(condition.value)] + ts);
      ConditionParses(condition.value, ts);
    }
  }

  lemma ConditionParses(name: string, ts: seq<Token>)
    requires Good(ts)
    ensures ParseTypeCondition([NameToken("on"), NameToken(name)] + ts) == Ok(Parsed(name, ts))
  {
    assert [NameToken("on"), NameToken(name)] + ts == [NameToken("on")] + ([NameToken(name)] + ts);
    AdvanceOver(NameToken("on"), [NameToken(name)] + ts);
    NameOver(name, ts);
  }

  // ---------------------------------------------------------------------------------------------
  // Definitions
  // ---------------------------------------------------------------------------------------------

  /** What can stand behind a variable definition. */
  predicate EndsVariable(ts: seq<Token>) {
    ts != [] && (ts[0].kind == Dollar || ts[0].kind == RightParen)
  }

  lemma VariableParses(d: VariableDefinition, ts: seq<Token>)
    requires VariableOk(d) && EndsVariable(ts)
    ensures ParseVariableDefinition(TokensVariableDefinition(d, ts)) == Ok(Parsed(d, ts))
  {
    var tail := TokensDirectives(d.directives, ts);
    DirectivesParse(d.directives, true, ts);
    var more := if d.default_ == None then tail else [Punct(Equals)] + TokensValue(d.default_.value, tail);
    if d.default_.Some? {
      ValueHead(d.default_.value, tail);
      ValueParses(d.default_.value, true, tail);
      AdvanceOver(Punct(Equals), TokensValue(d.default_.value, tail));
    }
    TypeHead(d.type_, more);
    TypeParses(d.type_, more);
    VariableHeadParses(d.name, TokensType(d.type_, more));
    VariableOf(d, TokensVariableDefinition(d, ts), [Punct(Colon)] + TokensType(d.type_, more), more, tail, ts);
  }

  /** The parts of a variable definition, one behind the other. */
  lemma VariableOf(d: VariableDefinition, all: Tokens, colon: Tokens, more: Tokens, tail: Tokens, ts: Tokens)
    requires ParseVariable(all) == Ok(Parsed(Variable(d.name), colon)) && Expect(colon, Colon).Ok?
    requires ParseType(Expect(colon, Colon).value) == Ok(Parsed(d.type_, more))
    requires if d.default_ == None then more[0].kind != Equals && more == tail
             else more[0].kind == Equals && Advance(more).Ok?
                  && ParseValue(Advance(more).value, true) == Ok(Parsed(d.default_.value, tail))
    requires ParseDirectives(tail, true) == Ok(Parsed(d.directives, ts))
    ensures ParseVariableDefinition(all) == Ok(Parsed(d, ts))
  {
  }

  lemma VariableHeadParses(name: string, ts: seq<Token>)
    requires Good(ts)
    ensures var all := [Punct(Dollar), NameToken(name), Punct(Colon)] + ts; var more := [Punct(Colon)] + ts;
            ParseVariable(all) == Ok(Parsed(Variable(name), more)) && Expect(more, Colon) == Ok(ts)
  {
    var more := [Punct(Colon)] + ts;
    assert [Punct(Dollar), NameToken(name), Punct(Colon)] + ts == [Punct(Dollar)] + ([NameToken(name)] + more);
    AdvanceOver(Punct(Dollar), [NameToken(name)] + more);
    NameOver(name, more);
    AdvanceOver(Punct(Colon), ts);
  }

  /** One variable definition in front of `all`, which closes the list or parses to `more`. */
  lemma {:induction false} VariableStep(d: VariableDefinition, all: seq<Token>, more: seq<VariableDefinition>, ts: seq<Token>)
    requires VariableOk(d) && Good(all) && (all[0].kind == RightParen || all[0].kind == Dollar)
    requires if all[0].kind == RightParen then more == [] && Advance(all) == Ok(ts)
             else ParseVariableList(all) == Ok(Parsed(more, ts))
    ensures var r := TokensVariableDefinition(d, all);
            r != [] && r[0].kind == Dollar && ParseVariableList(r) == Ok(Parsed([d] + more, ts))
  {
    VariableParses(d, all);
    assert [d] + [] == [d];
  }

  lemma {:induction false} VariableListParses(ds: seq<VariableDefinition>, ts: seq<Token>)
    requires VariablesOk(ds) && ds != [] && Good(ts)
    ensures var all := TokensVariableList(ds, [Punct(RightParen)] + ts);
            all != [] && all[0].kind == Dollar && ParseVariableList(all) == Ok(Parsed(ds, ts))
  {
    assert ds[0] in ds && ds == [ds[0]] + ds[1..];
    if |ds| > 1 {
      VariableListParses(ds[1..], ts);
    } else {
      AdvanceOver(Punct(RightParen), ts);
    }
    VariableStep(ds[0], TokensVariableList(ds[1..], [Punct(RightParen)] + ts), ds[1..], ts);
  }

  lemma VariablesParse(ds: seq<VariableDefinition>, ts: seq<Token>)
    requires VariablesOk(ds) && Good(ts) && ts[0].kind != LeftParen
    ensures var all := TokensVariables(ds, ts);
            Good(all) && all[0].kind == (if ds == [] then ts[0].kind else LeftParen)
            && ParseVariables(all) == Ok(Parsed(ds, ts))
  {
    if ds != [] {
      VariableListParses(ds, ts);
      AdvanceOver(Punct(LeftParen), TokensVariableList(ds, [Punct(RightParen)] + ts));
    }
  }

  /** An anonymous query without variables or directives is the same as its shorthand. */
  function Normalized(d: Definition): Definition {
    if IsShorthand(d) then d.(operation := None) else d
  }

  lemma OperationTailParses(d: Definition, ts: seq<Token>)
    requires DefinitionOk(d) && d.Operation? && Good(ts)
    ensures var all := TokensVariables(d.variables, TokensDirectives(d.directives, TokensSelectionSet(d.selections, ts)));
            Good(all) && all[0].kind != Name && ParseOperationTail(all, d.operation, d.title) == Ok(Parsed(d, ts))
  {
    var set_ := TokensSelectionSet(d.selections, ts);
    SetParses(d.selections, ts);
    DirectivesParse(d.directives, false, set_);
    VariablesParse(d.variables, TokensDirectives(d.directives, set_));
  }

  lemma OperationHeadParses(operation: OperationType, title: Option<string>, ts: seq<Token>)
    requires Good(ts) && ts[0].kind != Name
    ensures var all := [NameToken(Keyword(Some(operation)))] + ((if title == None then [] else [NameToken(title.value)]) + ts);
            ParseDefinition(all, true) == ParseOperationTail(ts, Some(operation), title)
  {
    var keyword := Keyword(Some(operation));
    if title == None {
      assert [] + ts == ts;
      KeywordOver(operation, ts);
    } else {
      KeywordOver(operation, [NameToken(title.value)] + ts);
      NameOver(title.value, ts);
    }
  }

  lemma KeywordOver(operation: OperationType, ts: seq<Token>)
    requires Good(ts)
    ensures var all := [NameToken(Keyword(Some(operation)))] + ts;
            && ParseDefinition(all, true) == ParseOperation(all)
            && ParseName(all) == Ok(Parsed(Keyword(Some(operation)), ts))
            && OperationOf(Keyword(Some(operation))) == Some(operation)
  {
    NameOver(Keyword(Some(operation)), ts);
  }

  lemma FragmentTailParses(d: Definition, ts: seq<Token>)
    requires DefinitionOk(d) && d.Fragment? && Good(ts)
    ensures var all := [NameToken("on"), NameToken(d.condition)] + TokensDirectives(d.directives, TokensSelectionSet(d.selections, ts));
            ParseFragmentTail(all, d.name, d.variables) == Ok(Parsed(d, ts))
  {
    var set_ := TokensSelectionSet(d.selections, ts);
    SetParses(d.selections, ts);
    DirectivesParse(d.directives, false, set_);
    ConditionParses(d.condition, TokensDirectives(d.directives, set_));
  }

  lemma FragmentHeadParses(name: string, variables: seq<VariableDefinition>, ts: seq<Token>)
    requires name != "on" && VariablesOk(variables) && Good(ts) && ts[0].kind != LeftParen
    ensures ParseDefinition([NameToken("fragment"), NameToken(name)] + TokensVariables(variables, ts), true)
              == ParseFragmentTail(ts, name, variables)
  {
    VariablesParse(variables, ts);
    FragmentHeadOf(name, TokensVariables(variables, ts), variables, ts);
  }

  lemma FragmentHeadOf(name: string, more: Tokens, variables: seq<VariableDefinition>, ts: Tokens)
    requires name != "on" && Good(more) && ParseVariables(more) == Ok(Parsed(variables, ts))
    ensures ParseDefinition([NameToken("fragment"), NameToken(name)] + more, true) == ParseFragmentTail(ts, name, variables)
  {
    FragmentStarts(name, more);
    FragmentOf([NameToken("fragment"), NameToken(name)] + more, [NameToken(name)] + more, name, more, variables, ts);
  }

  lemma FragmentStarts(name: string, ts: seq<Token>)
    requires name != "on" && Good(ts)
    ensures ParseName([NameToken("fragment"), NameToken(name)] + ts) == Ok(Parsed("fragment", [NameToken(name)] + ts))
    ensures ParseName([NameToken(name)] + ts) == Ok(Parsed(name, ts))
  {
    assert [NameToken("fragment"), NameToken(name)] + ts == [NameToken("fragment")] + ([NameToken(name)] + ts);
    NameOver("fragment", [NameToken(name)] + ts);
    NameOver(name, ts);
  }

  lemma FragmentOf(all: Tokens, more: Tokens, name: string, ts: Tokens, variables: seq<VariableDefinition>, rest: Tokens)
    requires all[0] == NameToken("fragment") && ParseName(all) == Ok(Parsed("fragment", more))
    requires more[0] != NameToken("on") && ParseName(more) == Ok(Parsed(name, ts))
    requires ParseVariables(ts) == Ok(Parsed(variables, rest))
    ensures ParseDefinition(all, true) == ParseFragmentTail(rest, name, variables)
  {
    assert OperationOf("fragment") == None;
  }

  lemma DefinitionParses(d: Definition, ts: seq<Token>)
    requires DefinitionOk(d) && Good(ts)
    ensures var all := TokensDefinition(d, ts);
            all != [] && (all[0].kind == Name || all[0].kind == LeftBrace)
            && ParseDefinition(all, true) == Ok(Parsed(Normalized(d), ts))
  {
    var tail := TokensDirectives(d.directives, TokensSelectionSet(d.selections, ts));
    if d.Fragment? {
      FragmentTailParses(d, ts);
      FragmentHeadParses(d.name, d.variables, [NameToken("on"), NameToken(d.condition)] + tail);
    } else if IsShorthand(d) {
      SetParses(d.selections, ts);
    } else {
      OperationTailParses(d, ts);
      OperationHeadParses(d.operation.value, d.title, TokensVariables(d.variables, tail));
    }
  }

  function NormalizedAll(ds: seq<Definition>): (r: seq<Definition>)
    ensures |r| == |ds| && forall i | 0 <= i < |r| :: r[i] == Normalized(ds[i])
  {
    seq(|ds|, i requires 0 <= i < |ds| => Normalized(ds[i]))
  }

  lemma NormalizedTail(ds: seq<Definition>)
    requires ds != []
    ensures NormalizedAll(ds) == [Normalized(ds[0])] + NormalizedAll(ds[1..])
    ensures NormalizedAll(ds)[1..] == NormalizedAll(ds[1..])
  {
    var all, rest := NormalizedAll(ds), NormalizedAll(ds[1..]);
    assert |all| == |rest| + 1 && forall i | 0 <= i < |rest| :: all[i + 1] == rest[i];
  }

  /** One definition in front of `ts`, which is the end of the file or parses to `more`. */
  lemma {:induction false} DefinitionsStep(d: Definition, ts: seq<Token>, more: seq<Definition>)
    requires DefinitionOk(d) && Good(ts)
    requires if ts[0].kind == EOF then more == [] else ParseDefinitions(ts, true) == Ok(more)
    ensures var all := TokensDefinition(d, ts);
            all != [] && (all[0].kind == Name || all[0].kind == LeftBrace)
            && ParseDefinitions(all, true) == Ok([Normalized(d)] + more)
  {
    DefinitionParses(d, ts);
    assert [Normalized(d)] + [] == [Normalized(d)];
  }

  lemma {:induction false} DefinitionsParse(ds: seq<Definition>)
    requires DocumentOk(ds)
    ensures var all := TokensDefinitions(ds, [END]);
            all != [] && (all[0].kind == Name || all[0].kind == LeftBrace)
            && ParseDefinitions(all, true) == Ok(NormalizedAll(ds))
  {
    assert ds[0] in ds;
    NormalizedTail(ds);
    if |ds| > 1 {
      DefinitionsParse(ds[1..]);
    }
    DefinitionsStep(ds[0], TokensDefinitions(ds[1..], [END]), NormalizedAll(ds[1..]));
  }

  /** Parsing undoes printing: a well-formed document whose strings are printable is what its printed form
      parses to, fragment variables enabled, up to the shorthand of queries. */
  lemma DocumentRoundTrip(ds: seq<Definition>)
    requires DocumentOk(ds) && PrintableDocument(ds)
    ensures ParseDocument(Lexing.Tokens(PrintDocument(ds)), true) == Ok(NormalizedAll(ds))
  {
    var text := PrintDocument(ds);
    DocumentTokens(ds, [END]);
    PrintedDocumentLexes(ds);
    DefinitionsParse(ds);
    NoByteOrderMark(ds);
    AdvanceOver(Token(SOF, ""), TokensDefinitions(ds, [END]));
  }

  /** A printed document starts with a letter or a brace. */
  lemma NoByteOrderMark(ds: seq<Definition>)
    requires DocumentOk(ds)
    ensures !(BYTE_ORDER_MARK <= PrintDocument(ds))
  {
    assert ds[0] in ds;
    var d := ds[0];
    var text := PrintDefinition(d, 0, PrintMoreDefinitions(ds[1..], 0, "\n"));
    assert text[0] == 'f' || text[0] == '{' || text[0] == 'q' || text[0] == 'm' || text[0] == 's';
  }
}
