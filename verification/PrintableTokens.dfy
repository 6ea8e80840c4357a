/** The tokens of a syntax tree are printable exactly if its strings are. */
module PrintableTokens {
  import opened Wrappers
  import opened Ast
  import opened Lexing
  import opened Grammar
  import opened WellFormed

  predicate PrintableValue(v: Value)
    decreases v
  {
    match v
    case StringValue(s, block) => Printable(Token(if block then BlockString else String, s))
    case ListValue(values) => forall x | x in values :: PrintableValue(x)
    case ObjectValue(fields) => forall f | f in fields :: PrintableValue(f.value)
    case _ => true
  }

  predicate PrintableArguments(args: seq<Argument>) {
    forall a | a in args :: PrintableValue(a.value)
  }

  predicate PrintableDirectives(ds: seq<Directive>) {
    forall d | d in ds :: PrintableArguments(d.arguments)
  }

  predicate PrintableSelection(s: Selection)
    decreases s
  {
    && PrintableDirectives(s.directives) && (s.Field? ==> PrintableArguments(s.arguments))
    && (!s.FragmentSpread? ==> forall x | x in s.selections :: PrintableSelection(x))
  }

  predicate PrintableSelections(selections: seq<Selection>) {
    forall s | s in selections :: PrintableSelection(s)
  }

  predicate PrintableVariable(d: VariableDefinition) {
    (d.default_.Some? ==> PrintableValue(d.default_.value)) && PrintableDirectives(d.directives)
  }

  predicate PrintableVariables(ds: seq<VariableDefinition>) {
    forall d | d in ds :: PrintableVariable(d)
  }

  predicate PrintableDefinition(d: Definition) {
    PrintableVariables(d.variables) && PrintableDirectives(d.directives) && PrintableSelections(d.selections)
  }

  /** Every string of the document is printable. */
  predicate PrintableDocument(ds: seq<Definition>) {
    forall d | d in ds :: PrintableDefinition(d)
  }

  // ---------------------------------------------------------------------------------------------
  // Their tokens
  // ---------------------------------------------------------------------------------------------

  /** Tokens that are no strings do not matter. */
  lemma PlainInFront(t: Token, ts: seq<Token>)
    requires t.kind != String && t.kind != BlockString
    ensures AllPrintable([t] + ts) <==> AllPrintable(ts)
  {
    PrintableMore(t, ts);
  }

  lemma TwoInFront(t: Token, u: Token, ts: seq<Token>)
    requires t.kind != String && t.kind != BlockString && u.kind != String && u.kind != BlockString
    ensures AllPrintable([t, u] + ts) <==> AllPrintable(ts)
  {
    assert [t, u] + ts == [t] + ([u] + ts);
    PlainInFront(u, ts);
    PlainInFront(t, [u] + ts);
  }

  lemma {:induction false} ValueTokens(v: Value, ts: seq<Token>)
    ensures AllPrintable(TokensValue(v, ts)) <==> PrintableValue(v) && AllPrintable(ts)
    decreases v
  {
    match v
    case Variable(name) => TwoInFront(Punct(Dollar), NameToken(name), ts);
    case IntValue(text) => PlainInFront(Token(Int, text), ts);
    case FloatValue(text) => PlainInFront(Token(Float, text), ts);
    case StringValue(s, block) => PrintableMore(Token(if block then BlockString else String, s), ts);
    case BooleanValue(b) => PlainInFront(NameToken(if b then "true" else "false"), ts);
    case NullValue => PlainInFront(NameToken("null"), ts);
    case EnumValue(name) => PlainInFront(NameToken(name), ts);
    case ListValue(values) =>
      var close := [Punct(RightBracket)] + ts;
      PlainInFront(Punct(RightBracket), ts);
      ValuesTokens(values, close);
      PlainInFront(Punct(LeftBracket), TokensValues(values, close));
    case ObjectValue(fields) =>
      var close := [Punct(RightBrace)] + ts;
      PlainInFront(Punct(RightBrace), ts);
      FieldsTokens(fields, close);
      PlainInFront(Punct(LeftBrace), TokensFields(fields, close));
  }

  lemma {:induction false} ValuesTokens(values: seq<Value>, ts: seq<Token>)
    ensures AllPrintable(TokensValues(values, ts)) <==> (forall x | x in values :: PrintableValue(x)) && AllPrintable(ts)
    decreases values
  {
    if values != [] {
      ValueTokens(values[0], TokensValues(values[1..], ts));
      ValuesTokens(values[1..], ts);
      assert forall x :: x in values <==> x == values[0] || x in values[1..];
    }
  }

  lemma {:induction false} FieldsTokens(fields: seq<ObjectField>, ts: seq<Token>)
    ensures AllPrintable(TokensFields(fields, ts)) <==> (forall f | f in fields :: PrintableValue(f.value)) && AllPrintable(ts)
    decreases fields
  {
    if fields != [] {
      var f, more := fields[0], TokensFields(fields[1..], ts);
      ValueTokens(f.value, more);
      TwoInFront(NameToken(f.name), Punct(Colon), TokensValue(f.value, more));
      FieldsTokens(fields[1..], ts);
      assert forall x :: x in fields <==> x == fields[0] || x in fields[1..];
    }
  }

  lemma {:induction false} TypeTokens(t: Type, ts: seq<Token>)
    ensures AllPrintable(TokensType(t, ts)) <==> AllPrintable(ts)
  {
    match t
    case NamedType(name) => PlainInFront(NameToken(name), ts);
    case ListType(item) =>
      PlainInFront(Punct(RightBracket), ts);
      TypeTokens(item, [Punct(RightBracket)] + ts);
      PlainInFront(Punct(LeftBracket), TokensType(item, [Punct(RightBracket)] + ts));
    case NonNullType(inner) =>
      PlainInFront(Punct(Bang), ts);
      TypeTokens(inner, [Punct(Bang)] + ts);
  }

  lemma {:induction false} ArgumentListTokens(args: seq<Argument>, ts: seq<Token>)
    ensures AllPrintable(TokensArgumentList(args, ts)) <==> PrintableArguments(args) && AllPrintable(ts)
  {
    if args != [] {
      var a, more := args[0], TokensArgumentList(args[1..], ts);
      ValueTokens(a.value, more);
      TwoInFront(NameToken(a.name), Punct(Colon), TokensValue(a.value, more));
      ArgumentListTokens(args[1..], ts);
      assert forall x :: x in args <==> x == args[0] || x in args[1..];
    }
  }

  lemma ArgumentsTokens(args: seq<Argument>, ts: seq<Token>)
    ensures AllPrintable(TokensArguments(args, ts)) <==> PrintableArguments(args) && AllPrintable(ts)
  {
    if args != [] {
      PlainInFront(Punct(RightParen), ts);
      ArgumentListTokens(args, [Punct(RightParen)] + ts);
      PlainInFront(Punct(LeftParen), TokensArgumentList(args, [Punct(RightParen)] + ts));
    }
  }

  lemma {:induction false} DirectivesTokens(ds: seq<Directive>, ts: seq<Token>)
    ensures AllPrintable(TokensDirectives(ds, ts)) <==> PrintableDirectives(ds) && AllPrintable(ts)
  {
    if ds != [] {
      var d, more := ds[0], TokensDirectives(ds[1..], ts);
      ArgumentsTokens(d.arguments, more);
      TwoInFront(Punct(At), NameToken(d.name), TokensArguments(d.arguments, more));
      DirectivesTokens(ds[1..], ts);
      assert forall x :: x in ds <==> x == ds[0] || x in ds[1..];
    }
  }

  lemma {:induction false} SelectionsTokens(selections: seq<Selection>, ts: seq<Token>)
    ensures AllPrintable(TokensSelections(selections, ts)) <==> PrintableSelections(selections) && AllPrintable(ts)
    decreases selections, 0
  {
    if selections != [] {
      SelectionTokens(selections[0], TokensSelections(selections[1..], ts));
      SelectionsTokens(selections[1..], ts);
      assert forall x :: x in selections <==> x == selections[0] || x in selections[1..];
    }
  }

  lemma {:induction false} SelectionSetTokens(selections: seq<Selection>, ts: seq<Token>)
    ensures AllPrintable(TokensSelectionSet(selections, ts)) <==> PrintableSelections(selections) && AllPrintable(ts)
    decreases selections, 1
  {
    if selections != [] {
      PlainInFront(Punct(RightBrace), ts);
      SelectionsTokens(selections, [Punct(RightBrace)] + ts);
      PlainInFront(Punct(LeftBrace), TokensSelections(selections, [Punct(RightBrace)] + ts));
    }
  }

  /** Directives and a selection set, as they stand at the end of most nodes. */
  lemma {:induction false} TailTokens(ds: seq<Directive>, selections: seq<Selection>, ts: seq<Token>)
    ensures AllPrintable(TokensDirectives(ds, TokensSelectionSet(selections, ts)))
            <==> PrintableDirectives(ds) && PrintableSelections(selections) && AllPrintable(ts)
    decreases selections, 2
  {
    SelectionSetTokens(selections, ts);
    DirectivesTokens(ds, TokensSelectionSet(selections, ts));
  }

  lemma {:induction false} SelectionTokens(s: Selection, ts: seq<Token>)
    ensures AllPrintable(TokensSelection(s, ts)) <==> PrintableSelection(s) && AllPrintable(ts)
    decreases s
  {
    match s
    case Field(alias, name, arguments, directives, selections) =>
      var tail := TokensDirectives(directives, TokensSelectionSet(selections, ts));
      TailTokens(directives, selections, ts);
      ArgumentsTokens(arguments, tail);
      FieldNameTokens(alias, name, TokensArguments(arguments, tail));
    case FragmentSpread(name, directives) =>
      DirectivesTokens(directives, ts);
      TwoInFront(Punct(Spread), NameToken(name), TokensDirectives(directives, ts));
    case InlineFragment(condition, directives, selections) =>
      TailTokens(directives, selections, ts);
      ConditionTokens(condition, TokensDirectives(directives, TokensSelectionSet(selections, ts)));
  }

  lemma FieldNameTokens(alias: Option<string>, name: string, ts: seq<Token>)
    ensures AllPrintable((if alias == None then [] else [NameToken(alias.value), Punct(Colon)]) + ([NameToken(name)] + ts))
            <==> AllPrintable(ts)
  {
    PlainInFront(NameToken(name), ts);
    if alias == None {
      assert [] + ([NameToken(name)] + ts) == [NameToken(name)] + ts;
    } else {
      TwoInFront(NameToken(alias.value), Punct(Colon), [NameToken(name)] + ts);
    }
  }

  lemma ConditionTokens(condition: Option<string>, ts: seq<Token>)
    ensures AllPrintable([Punct(Spread)] + ((if condition == None then [] else [NameToken("on"), NameToken(condition.value)]) + ts))
            <==> AllPrintable(ts)
  {
    if condition == None {
      assert [] + ts == ts;
      PlainInFront(Punct(Spread), ts);
    } else {
      TwoInFront(NameToken("on"), NameToken(condition.value), ts);
      PlainInFront(Punct(Spread), [NameToken("on"), NameToken(condition.value)] + ts);
    }
  }

  lemma VariableTokens(d: VariableDefinition, ts: seq<Token>)
    ensures AllPrintable(TokensVariableDefinition(d, ts)) <==> PrintableVariable(d) && AllPrintable(ts)
  {
    var more := TokensDirectives(d.directives, ts);
    DirectivesTokens(d.directives, ts);
    if d.default_.Some? {
      ValueTokens(d.default_.value, more);
      PlainInFront(Punct(Equals), TokensValue(d.default_.value, more));
    }
    var rest := if d.default_ == None then more else [Punct(Equals)] + TokensValue(d.default_.value, more);
    TypeTokens(d.type_, rest);
    VariableNameTokens(d.name, TokensType(d.type_, rest));
  }

  lemma VariableNameTokens(name: string, ts: seq<Token>)
    ensures AllPrintable([Punct(Dollar), NameToken(name), Punct(Colon)] + ts) <==> AllPrintable(ts)
  {
    TwoInFront(NameToken(name), Punct(Colon), ts);
    PlainInFront(Punct(Dollar), [NameToken(name), Punct(Colon)] + ts);
    assert [Punct(Dollar), NameToken(name), Punct(Colon)] + ts == [Punct(Dollar)] + ([NameToken(name), Punct(Colon)] + ts);
  }

  lemma {:induction false} VariableListTokens(ds: seq<VariableDefinition>, ts: seq<Token>)
    ensures AllPrintable(TokensVariableList(ds, ts)) <==> PrintableVariables(ds) && AllPrintable(ts)
  {
    if ds != [] {
      VariableTokens(ds[0], TokensVariableList(ds[1..], ts));
      VariableListTokens(ds[1..], ts);
      assert forall x :: x in ds <==> x == ds[0] || x in ds[1..];
    }
  }

  lemma VariablesTokens(ds: seq<VariableDefinition>, ts: seq<Token>)
    ensures AllPrintable(TokensVariables(ds, ts)) <==> PrintableVariables(ds) && AllPrintable(ts)
  {
    if ds != [] {
      PlainInFront(Punct(RightParen), ts);
      VariableListTokens(ds, [Punct(RightParen)] + ts);
      PlainInFront(Punct(LeftParen), TokensVariableList(ds, [Punct(RightParen)] + ts));
    }
  }

  lemma TitleTokens(keyword: string, title: Option<string>, ts: seq<Token>)
    ensures AllPrintable([NameToken(keyword)] + ((if title == None then [] else [NameToken(title.value)]) + ts))
            <==> AllPrintable(ts)
  {
    if title == None {
      assert [] + ts == ts;
      PlainInFront(NameToken(keyword), ts);
    } else {
      PlainInFront(NameToken(title.value), ts);
      PlainInFront(NameToken(keyword), [NameToken(title.value)] + ts);
    }
  }

  lemma DefinitionTokens(d: Definition, ts: seq<Token>)
    ensures AllPrintable(TokensDefinition(d, ts)) <==> PrintableDefinition(d) && AllPrintable(ts)
  {
    var tail := TokensDirectives(d.directives, TokensSelectionSet(d.selections, ts));
    TailTokens(d.directives, d.selections, ts);
    if d.Fragment? {
      var on := [NameToken("on"), NameToken(d.condition)] + tail;
      TwoInFront(NameToken("on"), NameToken(d.condition), tail);
      VariablesTokens(d.variables, on);
      TwoInFront(NameToken("fragment"), NameToken(d.name), TokensVariables(d.variables, on));
    } else if IsShorthand(d) {
      SelectionSetTokens(d.selections, ts);
    } else {
      VariablesTokens(d.variables, tail);
      TitleTokens(Keyword(d.operation), d.title, TokensVariables(d.variables, tail));
    }
  }

  lemma {:induction false} DocumentTokens(ds: seq<Definition>, ts: seq<Token>)
    ensures AllPrintable(TokensDefinitions(ds, ts)) <==> PrintableDocument(ds) && AllPrintable(ts)
  {
    if ds != [] {
      DefinitionTokens(ds[0], TokensDefinitions(ds[1..], ts));
      DocumentTokens(ds[1..], ts);
      assert forall x :: x in ds <==> x == ds[0] || x in ds[1..];
    }
  }
}
