/** The recursive-descent parser (graphql/parser/parser.go), which advances a lexer as it goes. */
module Parsers {
  import opened Wrappers
  import opened Ast
  import opened Lexing
  import opened Lexers
  import opened Parsing

  /** The outcome `r` and the tokens `ts` that are left are the wanted ones. */
  ghost predicate Agrees<T>(r: Result<T, SyntaxError>, want: Result<Parsed<T>, SyntaxError>, ts: seq<Token>) {
    r.Ok? == want.Ok? && (r.Ok? ==> r.value == want.value.node && ts == want.value.rest)
  }

  ghost predicate Same<T>(r: Result<T, SyntaxError>, want: Result<T, SyntaxError>) {
    r.Ok? == want.Ok? && (r.Ok? ==> r.value == want.value)
  }

  lemma SameIsEqual<T>(r: Result<T, SyntaxError>, want: Result<T, SyntaxError>)
    requires Same(r, want)
    ensures r == want
  {
    assert r.Err? ==> r.error.SyntaxError? && want.error.SyntaxError?;
  }

  /** The nodes `done` in front of the ones that are still to be parsed. */
  function Joined<T>(done: seq<T>, r: Result<Parsed<seq<T>>, SyntaxError>): Result<Parsed<seq<T>>, SyntaxError> {
    match r
    case Ok(p) => Ok(Parsed(done + p.node, p.rest))
    case Err(e) => Err(e)
  }

  lemma JoinedNone<T>(r: Result<Parsed<seq<T>>, SyntaxError>)
    ensures Joined([], r) == r
  {
    if r.Ok? { assert [] + r.value.node == r.value.node; }
  }

  lemma JoinedMore<T>(done: seq<T>, x: T, r: Result<Parsed<seq<T>>, SyntaxError>)
    ensures Joined(done, Joined([x], r)) == Joined(done + [x], r)
  {
    if r.Ok? { assert done + ([x] + r.value.node) == done + [x] + r.value.node; }
  }

  class Parser {
    const lexer: Lexer
    const variables: bool
    ghost const remains: RemainsPredicate

    constructor (lexer: Lexer, variables: bool)
      ensures this.lexer == lexer && this.variables == variables
    {
      this.lexer, this.variables := lexer, variables;
      remains := (want: TypeResult, level: nat, t: Type, ts: Tokens) => Remains(want, level, t, ts);
    }

    method Skip(kind: Kind) returns (r: Result<bool, SyntaxError>)
      requires lexer.Valid()
      modifies lexer
      ensures lexer.Valid()
      ensures old(lexer.token).kind != kind ==> r == Ok(false) && lexer.Stream() == old(lexer.Stream())
      ensures old(lexer.token).kind == kind ==> r.Ok? == Advance(old(lexer.Stream())).Ok?
      ensures old(lexer.token).kind == kind && r.Ok? ==> r.value && lexer.Stream() == Advance(old(lexer.Stream())).value
    {
      if lexer.token.kind != kind { return Ok(false); }
      var _ :- lexer.Advance();
      r := Ok(true);
    }

    method Expect(kind: Kind) returns (r: Result<Token, SyntaxError>)
      requires lexer.Valid()
      modifies lexer
      ensures lexer.Valid() && r.Ok? == Parsing.Expect(old(lexer.Stream()), kind).Ok?
      ensures r.Ok? ==> r.value == old(lexer.token) && lexer.Stream() == Parsing.Expect(old(lexer.Stream()), kind).value
    {
      var token := lexer.token;
      if token.kind != kind { return Err(SyntaxError); }
      var _ :- lexer.Advance();
      r := Ok(token);
    }

    method ExpectKeyword(keyword: string) returns (r: Result<Token, SyntaxError>)
      requires lexer.Valid()
      modifies lexer
      ensures lexer.Valid() && r.Ok? == Parsing.ExpectKeyword(old(lexer.Stream()), keyword).Ok?
      ensures r.Ok? ==> lexer.Stream() == Parsing.ExpectKeyword(old(lexer.Stream()), keyword).value
    {
      var token := lexer.token;
      if !(token.kind == Name && token.value == keyword) { return Err(SyntaxError); }
      var _ :- lexer.Advance();
      r := Ok(token);
    }

    method ParseName() returns (r: Result<string, SyntaxError>)
      requires lexer.Valid()
      modifies lexer
      ensures lexer.Valid() && Agrees(r, Parsing.ParseName(old(lexer.Stream())), lexer.Stream())
    {
      var token :- Expect(Name);
      r := Ok(token.value);
    }

    // -------------------------------------------------------------------------------------------
    // Values
    // -------------------------------------------------------------------------------------------

    method ParseVariable() returns (r: Result<Value, SyntaxError>)
      requires lexer.Valid()
      modifies lexer
      ensures lexer.Valid() && Agrees(r, Parsing.ParseVariable(old(lexer.Stream())), lexer.Stream())
    {
      var _ :- Expect(Dollar);
      var name :- ParseName();
      r := Ok(Variable(name));
    }

    method ParseValue(isConst: bool) returns (r: Result<Value, SyntaxError>)
      requires lexer.Valid()
      modifies lexer
      ensures lexer.Valid() && Agrees(r, Parsing.ParseValue(old(lexer.Stream()), isConst), lexer.Stream())
      decreases |lexer.Stream()|, 2
    {
      var token := lexer.token;
      match token.kind {
        case Dollar =>
          if isConst { return Err(SyntaxError); }
          r := ParseVariable();
        case LeftBracket =>
          r := ParseListValue(isConst);
        case LeftBrace =>
          r := ParseObjectValue(isConst);
        case Int =>
          var _ :- lexer.Advance();
          r := Ok(IntValue(token.value));
        case Float =>
          var _ :- lexer.Advance();
          r := Ok(FloatValue(token.value));
        case String =>
          var _ :- lexer.Advance();
          r := Ok(StringValue(token.value, false));
        case BlockString =>
          var _ :- lexer.Advance();
          r := Ok(StringValue(token.value, true));
        case Name =>
          var _ :- lexer.Advance();
          r := Ok(NameValue(token.value));
        case _ =>
          r := Err(SyntaxError);
      }
    }

    method ParseListValue(isConst: bool) returns (r: Result<Value, SyntaxError>)
      requires lexer.Valid() && lexer.token.kind == LeftBracket
      modifies lexer
      ensures lexer.Valid() && Agrees(r, Parsing.ParseValue(old(lexer.Stream()), isConst), lexer.Stream())
      decreases |lexer.Stream()|, 1
    {
      var _ :- Expect(LeftBracket);
      var values :- ParseValueList(isConst);
      r := Ok(ListValue(values));
    }

    /** Values up to the closing bracket. */
    method ParseValueList(isConst: bool) returns (r: Result<seq<Value>, SyntaxError>)
      requires lexer.Valid()
      modifies lexer
      ensures lexer.Valid() && Agrees(r, ParseValues(old(lexer.Stream()), isConst), lexer.Stream())
      decreases |lexer.Stream()|, 4
    {
      ghost var want := ParseValues(lexer.Stream(), isConst);
      var values: seq<Value> := [];
      JoinedNone(want);
      while true
        invariant lexer.Valid() && want == Joined(values, ParseValues(lexer.Stream(), isConst))
        invariant |lexer.Stream()| <= old(|lexer.Stream()|)
        decreases |lexer.Stream()|
      {
        var stop :- Skip(RightBracket);
        if stop {
          assert values + [] == values;
          break;
        }
        var value :- ParseValue(isConst);
        JoinedMore(values, value, ParseValues(lexer.Stream(), isConst));
        values := values + [value];
      }
      r := Ok(values);
    }

    method ParseObjectValue(isConst: bool) returns (r: Result<Value, SyntaxError>)
      requires lexer.Valid() && lexer.token.kind == LeftBrace
      modifies lexer
      ensures lexer.Valid() && Agrees(r, Parsing.ParseValue(old(lexer.Stream()), isConst), lexer.Stream())
      decreases |lexer.Stream()|, 1
    {
      var _ :- Expect(LeftBrace);
      var fields :- ParseObjectFields(isConst);
      r := Ok(ObjectValue(fields));
    }

    /** Object fields up to the closing brace. */
    method ParseObjectFields(isConst: bool) returns (r: Result<seq<ObjectField>, SyntaxError>)
      requires lexer.Valid()
      modifies lexer
      ensures lexer.Valid() && Agrees(r, ParseFields(old(lexer.Stream()), isConst), lexer.Stream())
      decreases |lexer.Stream()|, 4
    {
      ghost var want := ParseFields(lexer.Stream(), isConst);
      var fields: seq<ObjectField> := [];
      JoinedNone(want);
      while true
        invariant lexer.Valid() && want == Joined(fields, ParseFields(lexer.Stream(), isConst))
        invariant |lexer.Stream()| <= old(|lexer.Stream()|)
        decreases |lexer.Stream()|
      {
        var stop :- Skip(RightBrace);
        if stop {
          assert fields + [] == fields;
          break;
        }
        var field :- ParseObjectField(isConst);
        JoinedMore(fields, field, ParseFields(lexer.Stream(), isConst));
        fields := fields + [field];
      }
      r := Ok(fields);
    }

    method ParseObjectField(isConst: bool) returns (r: Result<ObjectField, SyntaxError>)
      requires lexer.Valid()
      modifies lexer
      ensures lexer.Valid() && Agrees(r, Parsing.ParseField(old(lexer.Stream()), isConst), lexer.Stream())
      decreases |lexer.Stream()|, 3
    {
      var name :- ParseName();
      var _ :- Expect(Colon);
      var value :- ParseValue(isConst);
      r := Ok(ObjectField(name, value));
    }

    // -------------------------------------------------------------------------------------------
    // Types
    // -------------------------------------------------------------------------------------------

    /** Counts the brackets that open, and closes as many around the name. */
    method ParseType() returns (r: Result<Type, SyntaxError>)
      requires lexer.Valid()
      modifies lexer
      ensures lexer.Valid() && Agrees(r, Parsing.ParseType(old(lexer.Stream())), lexer.Stream())
    {
      ghost var want := Parsing.ParseType(lexer.Stream());
      var listLevel := 0;
      while true
        invariant lexer.Valid() && listLevel >= 0 && want == Wrapped(listLevel, Parsing.ParseType(lexer.Stream()))
        decreases |lexer.Stream()|
      {
        if lexer.token.kind == LeftBracket { OpeningStep(listLevel, lexer.Stream()); }
        var opening :- Skip(LeftBracket);
        if !opening { break; }
        listLevel := listLevel + 1;
      }
      NameStep(want, listLevel, lexer.Stream());
      var name :- ParseName();
      assert Remains(want, listLevel, NamedType(name), lexer.Stream());
      r := CloseLists(NamedType(name), listLevel, want);
    }

    /** Closes `level` lists around the type. */
    method CloseLists(inner: Type, level: nat, ghost want: TypeResult) returns (r: Result<Type, SyntaxError>)
      requires lexer.Valid() && remains(want, level, inner, lexer.Stream())
      modifies lexer
      ensures lexer.Valid() && Agrees(r, want, lexer.Stream())
    {
      var t, listLevel := inner, level;
      while listLevel > 0
        invariant lexer.Valid() && remains(want, listLevel, t, lexer.Stream())
      {
        t :- CloseList(t, listLevel, want);
        listLevel := listLevel - 1;
      }
      r := ParseLast(t, want);
    }

    /** No list is left to be closed. */
    method ParseLast(t: Type, ghost want: TypeResult) returns (r: Result<Type, SyntaxError>)
      requires lexer.Valid() && remains(want, 0, t, lexer.Stream())
      modifies lexer
      ensures lexer.Valid() && Agrees(r, want, lexer.Stream())
    {
      assert Remains(want, 0, t, lexer.Stream());
      r := ParseNonNull(t);
    }

    /** An exclamation mark wraps a type that is not wrapped yet. */
    method ParseNonNull(t: Type) returns (r: Result<Type, SyntaxError>)
      requires lexer.Valid() && !t.NonNullType?
      modifies lexer
      ensures lexer.Valid() && Agrees(r, ParseBang(t, old(lexer.Stream())), lexer.Stream())
    {
      var bang :- Skip(Bang);
      r := Ok(if bang then NonNullType(t) else t);
    }

    method CloseList(t: Type, ghost level: nat, ghost want: TypeResult) returns (r: Result<Type, SyntaxError>)
      requires lexer.Valid() && level > 0 && remains(want, level, t, lexer.Stream())
      modifies lexer
      ensures lexer.Valid() && if r.Err? then want.Err? else remains(want, level - 1, r.value, lexer.Stream())
    {
      assert Remains(want, level, t, lexer.Stream());
      var item :- ParseNonNull(t);
      var _ :- Expect(RightBracket);
      r := Ok(ListType(item));
      assert Remains(want, level - 1, r.value, lexer.Stream());
    }

    // -------------------------------------------------------------------------------------------
    // Arguments and directives
    // -------------------------------------------------------------------------------------------

    method ParseArgument(isConst: bool) returns (r: Result<Argument, SyntaxError>)
      requires lexer.Valid()
      modifies lexer
      ensures lexer.Valid() && Agrees(r, Parsing.ParseArgument(old(lexer.Stream()), isConst), lexer.Stream())
    {
      var name :- ParseName();
      var _ :- Expect(Colon);
      var value :- ParseValue(isConst);
      r := Ok(Argument(name, value));
    }

    /** Arguments, if a parenthesis opens. */
    method ParseArguments(isConst: bool) returns (r: Result<seq<Argument>, SyntaxError>)
      requires lexer.Valid()
      modifies lexer
      ensures lexer.Valid() && Agrees(r, Parsing.ParseArguments(old(lexer.Stream()), isConst), lexer.Stream())
    {
      if lexer.token.kind != LeftParen { return Ok([]); }
      var _ :- Expect(LeftParen);
      ghost var want := ParseArgumentList(lexer.Stream(), isConst);
      var arguments: seq<Argument> := [];
      JoinedNone(want);
      while true
        invariant lexer.Valid() && want == Joined(arguments, ParseArgumentList(lexer.Stream(), isConst))
        decreases |lexer.Stream()|
      {
        var argument :- ParseArgument(isConst);
        JoinedMore(arguments, argument, ParseArgumentList(lexer.Stream(), isConst));
        arguments := arguments + [argument];
        var stop :- Skip(RightParen);
        if stop { break; }
      }
      r := Ok(arguments);
    }

    method ParseDirective(isConst: bool) returns (r: Result<Directive, SyntaxError>)
      requires lexer.Valid()
      modifies lexer
      ensures lexer.Valid() && Agrees(r, Parsing.ParseDirective(old(lexer.Stream()), isConst), lexer.Stream())
    {
      var _ :- Expect(At);
      var name :- ParseName();
      var arguments :- ParseArguments(isConst);
      r := Ok(Directive(name, arguments));
    }

    /** Directives, as long as another one begins. */
    method ParseDirectives(isConst: bool) returns (r: Result<seq<Directive>, SyntaxError>)
      requires lexer.Valid()
      modifies lexer
      ensures lexer.Valid() && Agrees(r, Parsing.ParseDirectives(old(lexer.Stream()), isConst), lexer.Stream())
    {
      ghost var want := Parsing.ParseDirectives(lexer.Stream(), isConst);
      var directives: seq<Directive> := [];
      JoinedNone(want);
      while lexer.token.kind == At
        invariant lexer.Valid() && want == Joined(directives, Parsing.ParseDirectives(lexer.Stream(), isConst))
        decreases |lexer.Stream()|
      {
        var directive :- ParseDirective(isConst);
        JoinedMore(directives, directive, Parsing.ParseDirectives(lexer.Stream(), isConst));
        directives := directives + [directive];
      }
      assert directives + [] == directives;
      r := Ok(directives);
    }

    // -------------------------------------------------------------------------------------------
    // Selections
    // -------------------------------------------------------------------------------------------

    method ParseSelectionSet() returns (r: Result<seq<Selection>, SyntaxError>)
      requires lexer.Valid()
      modifies lexer
      ensures lexer.Valid() && Agrees(r, Parsing.ParseSelectionSet(old(lexer.Stream())), lexer.Stream())
      decreases |lexer.Stream()|, 0
    {
      var _ :- Expect(LeftBrace);
      ghost var want := ParseSelections(lexer.Stream());
      var selections: seq<Selection> := [];
      JoinedNone(want);
      while true
        invariant lexer.Valid() && want == Joined(selections, ParseSelections(lexer.Stream()))
        invariant |lexer.Stream()| < old(|lexer.Stream()|)
        decreases |lexer.Stream()|
      {
        var selection :- ParseSelection();
        JoinedMore(selections, selection, ParseSelections(lexer.Stream()));
        selections := selections + [selection];
        var stop :- Skip(RightBrace);
        if stop { break; }
      }
      r := Ok(selections);
    }

    method ParseSelection() returns (r: Result<Selection, SyntaxError>)
      requires lexer.Valid()
      modifies lexer
      ensures lexer.Valid() && Agrees(r, Parsing.ParseSelection(old(lexer.Stream())), lexer.Stream())
      decreases |lexer.Stream()|, 2
    {
      var fragment :- Skip(Spread);
      if fragment {
        if lexer.token.kind != Name || lexer.token.value == "on" {
          r := ParseInlineFragment();
        } else {
          r := ParseFragmentSpread();
        }
      } else {
        r := ParseField();
      }
    }

    method ParseField() returns (r: Result<Selection, SyntaxError>)
      requires lexer.Valid()
      modifies lexer
      ensures lexer.Valid() && Agrees(r, ParseFieldSelection(old(lexer.Stream())), lexer.Stream())
      decreases |lexer.Stream()|, 1
    {
      var name :- ParseName();
      var alias := None;
      var aliased :- Skip(Colon);
      if aliased {
        alias := Some(name);
        name :- ParseName();
      }
      r := ParseFieldTail(alias, name);
    }

    /** What follows the name of a field. */
    method ParseFieldTail(alias: Option<string>, name: string) returns (r: Result<Selection, SyntaxError>)
      requires lexer.Valid()
      modifies lexer
      ensures lexer.Valid() && Agrees(r, Parsing.ParseFieldTail(old(lexer.Stream()), alias, name), lexer.Stream())
      decreases |lexer.Stream()|, 1
    {
      var arguments :- ParseArguments(false);
      var directives :- ParseDirectives(false);
      var selections: seq<Selection> := [];
      if lexer.token.kind == LeftBrace {
        selections :- ParseSelectionSet();
      }
      r := Ok(Field(alias, name, arguments, directives, selections));
    }

    method ParseFragmentSpread() returns (r: Result<Selection, SyntaxError>)
      requires lexer.Valid()
      modifies lexer
      ensures lexer.Valid() && Agrees(r, Parsing.ParseFragmentSpread(old(lexer.Stream())), lexer.Stream())
    {
      var name :- ParseName();
      var directives :- ParseDirectives(false);
      r := Ok(FragmentSpread(name, directives));
    }

    method ParseTypeCondition() returns (r: Result<string, SyntaxError>)
      requires lexer.Valid()
      modifies lexer
      ensures lexer.Valid() && Agrees(r, Parsing.ParseTypeCondition(old(lexer.Stream())), lexer.Stream())
    {
      var _ :- ExpectKeyword("on");
      r := ParseName();
    }

    method ParseInlineFragment() returns (r: Result<Selection, SyntaxError>)
      requires lexer.Valid()
      modifies lexer
      ensures lexer.Valid() && Agrees(r, Parsing.ParseInlineFragment(old(lexer.Stream())), lexer.Stream())
      decreases |lexer.Stream()|, 1
    {
      var condition := None;
      if lexer.token.kind == Name {
        var name :- ParseTypeCondition();
        condition := Some(name);
      }
      var directives :- ParseDirectives(false);
      var selections :- ParseSelectionSet();
      r := Ok(InlineFragment(condition, directives, selections));
    }

    // -------------------------------------------------------------------------------------------
    // Definitions
    // -------------------------------------------------------------------------------------------

    method ParseVariableDefinition() returns (r: Result<VariableDefinition, SyntaxError>)
      requires lexer.Valid()
      modifies lexer
      ensures lexer.Valid() && Agrees(r, Parsing.ParseVariableDefinition(old(lexer.Stream())), lexer.Stream())
    {
      var variable :- ParseVariable();
      var _ :- Expect(Colon);
      var type_ :- ParseType();
      var default_ := None;
      if lexer.token.kind == Equals {
        var _ :- Expect(Equals);
        var value :- ParseValue(true);
        default_ := Some(value);
      }
      var directives :- ParseDirectives(true);
      r := Ok(VariableDefinition(variable.name, type_, default_, directives));
    }

    /** Variable definitions, if a parenthesis opens. */
    method ParseVariableDefinitions() returns (r: Result<seq<VariableDefinition>, SyntaxError>)
      requires lexer.Valid()
      modifies lexer
      ensures lexer.Valid() && Agrees(r, ParseVariables(old(lexer.Stream())), lexer.Stream())
    {
      if lexer.token.kind != LeftParen { return Ok([]); }
      var _ :- Expect(LeftParen);
      ghost var want := ParseVariableList(lexer.Stream());
      var definitions: seq<VariableDefinition> := [];
      JoinedNone(want);
      while true
        invariant lexer.Valid() && want == Joined(definitions, ParseVariableList(lexer.Stream()))
        decreases |lexer.Stream()|
      {
        var definition :- ParseVariableDefinition();
        JoinedMore(definitions, definition, ParseVariableList(lexer.Stream()));
        definitions := definitions + [definition];
        var stop :- Skip(RightParen);
        if stop { break; }
      }
      r := Ok(definitions);
    }

    method ParseOperationDefinition() returns (r: Result<Definition, SyntaxError>)
      requires lexer.Valid()
      modifies lexer
      ensures lexer.Valid() && Agrees(r, ParseOperation(old(lexer.Stream())), lexer.Stream())
    {
      var keyword :- Expect(Name);
      var title := None;
      if lexer.token.kind == Name {
        var name :- ParseName();
        title := Some(name);
      }
      r := ParseOperationTail(OperationOf(keyword.value), title);
    }

    /** What follows the name of an operation. */
    method ParseOperationTail(operation: Option<OperationType>, title: Option<string>) returns (r: Result<Definition, SyntaxError>)
      requires lexer.Valid()
      modifies lexer
      ensures lexer.Valid() && Agrees(r, Parsing.ParseOperationTail(old(lexer.Stream()), operation, title), lexer.Stream())
    {
      var definitions :- ParseVariableDefinitions();
      var directives :- ParseDirectives(false);
      var selections :- ParseSelectionSet();
      r := Ok(Operation(operation, title, definitions, directives, selections));
    }

    method ParseFragmentDefinition() returns (r: Result<Definition, SyntaxError>)
      requires lexer.Valid()
      modifies lexer
      ensures lexer.Valid() && Agrees(r, ParseFragment(old(lexer.Stream()), variables), lexer.Stream())
    {
      var _ :- Expect(Name);
      if lexer.token.kind == Name && lexer.token.value == "on" { return Err(SyntaxError); }
      var name :- ParseName();
      var definitions: seq<VariableDefinition> := [];
      if variables {
        definitions :- ParseVariableDefinitions();
      }
      r := ParseFragmentTail(name, definitions);
    }

    /** What follows the variables of a fragment. */
    method ParseFragmentTail(name: string, definitions: seq<VariableDefinition>) returns (r: Result<Definition, SyntaxError>)
      requires lexer.Valid()
      modifies lexer
      ensures lexer.Valid() && Agrees(r, Parsing.ParseFragmentTail(old(lexer.Stream()), name, definitions), lexer.Stream())
    {
      var condition :- ParseTypeCondition();
      var directives :- ParseDirectives(false);
      var selections :- ParseSelectionSet();
      r := Ok(Fragment(name, definitions, condition, directives, selections));
    }

    method ParseDefinition() returns (r: Result<Definition, SyntaxError>)
      requires lexer.Valid()
      modifies lexer
      ensures lexer.Valid() && Agrees(r, Parsing.ParseDefinition(old(lexer.Stream()), variables), lexer.Stream())
    {
      var token := lexer.token;
      if token.kind == Name && OperationOf(token.value).Some? {
        r := ParseOperationDefinition();
      } else if token.kind == Name && token.value == "fragment" {
        r := ParseFragmentDefinition();
      } else if token.kind == LeftBrace {
        var selections :- ParseSelectionSet();
        r := Ok(Operation(None, None, [], [], selections));
      } else {
        r := Err(SyntaxError);
      }
    }

    /** Definitions up to the end of the file. */
    method ParseDefinitions() returns (r: Result<seq<Definition>, SyntaxError>)
      requires lexer.Valid()
      modifies lexer
      ensures lexer.Valid() && Same(r, Parsing.ParseDefinitions(old(lexer.Stream()), variables))
    {
      ghost var want := Parsing.ParseDefinitions(lexer.Stream(), variables);
      var definitions: seq<Definition> := [];
      BeforeNone(want);
      while true
        invariant lexer.Valid() && want == Before(definitions, Parsing.ParseDefinitions(lexer.Stream(), variables))
        decreases |lexer.Stream()|
      {
        var definition :- ParseDefinition();
        BeforeMore(definitions, definition, Parsing.ParseDefinitions(lexer.Stream(), variables));
        definitions := definitions + [definition];
        var stop := Skip(EOF);
        if stop == Ok(true) { break; }
      }
      r := Ok(definitions);
    }

    method ParseDocument() returns (r: Result<seq<Definition>, SyntaxError>)
      requires lexer.Valid()
      modifies lexer
      ensures lexer.Valid() && Same(r, Parsing.ParseDocument(old(lexer.Stream()), variables))
    {
      var _ :- Expect(SOF);
      r := ParseDefinitions();
    }
  }

  // ---------------------------------------------------------------------------------------------
  // Loops
  // ---------------------------------------------------------------------------------------------

  function Before<T>(done: seq<T>, r: Result<seq<T>, SyntaxError>): Result<seq<T>, SyntaxError> {
    if r.Ok? then Ok(done + r.value) else r
  }

  lemma BeforeNone<T>(r: Result<seq<T>, SyntaxError>)
    ensures Before([], r) == r
  {
    if r.Ok? { assert [] + r.value == r.value; }
  }

  lemma BeforeMore<T>(done: seq<T>, x: T, r: Result<seq<T>, SyntaxError>)
    ensures Before(done, Before([x], r)) == Before(done + [x], r)
  {
    if r.Ok? { assert done + ([x] + r.value) == done + [x] + r.value; }
  }

  type TypeResult = r: Result<Parsed<Type>, SyntaxError> | r.Ok? ==> r.value.rest != [] witness Err(SyntaxError)

  /** The type in a list, which may be followed by an exclamation mark. */
  function Wrap(r: TypeResult): TypeResult {
    var item :- r;
    var rest :- Expect(item.rest, RightBracket);
    ParseBang(ListType(item.node), rest)
  }

  /** `want` is what comes of closing `level` lists around the type `t`. */
  ghost predicate Remains(want: TypeResult, level: nat, t: Type, ts: Tokens)
    decreases level
  {
    && !t.NonNullType?
    && if level == 0 then want == ParseBang(t, ts)
       else if Closed(t, ts).Err? then want.Err?
       else Remains(want, level - 1, Closed(t, ts).value.node, Closed(t, ts).value.rest)
  }

  /** Remains as a value, so that the loop does not look into it. */
  type RemainsPredicate = f: (TypeResult, nat, Type, Tokens) -> bool
    | forall want, level, t, ts {:trigger Remains(want, level, t, ts)} ::
        f(want, level, t, ts) == Remains(want, level, t, ts)
    ghost witness (want: TypeResult, level: nat, t: Type, ts: Tokens) => Remains(want, level, t, ts)

  function Wrapped(level: nat, r: TypeResult): TypeResult {
    if level == 0 then r else Wrap(Wrapped(level - 1, r))
  }

  lemma {:induction false} WrapInside(level: nat, r: TypeResult)
    ensures Wrapped(level + 1, r) == Wrapped(level, Wrap(r))
  {
    if level > 0 { WrapInside(level - 1, r); }
  }

  lemma {:induction false} WrappedError(level: nat)
    ensures Wrapped(level, Err(SyntaxError)) == Err(SyntaxError)
  {
    if level > 0 { WrappedError(level - 1); }
  }

  /** The list of `t`, behind its closing bracket. */
  function Closed(t: Type, ts: Tokens): (r: TypeResult)
    ensures r.Ok? ==> r.value.node.ListType?
  {
    var item :- ParseBang(t, ts);
    var rest :- Expect(item.rest, RightBracket);
    Ok(Parsed(ListType(item.node), rest))
  }

  lemma OpeningStep(level: nat, ts: Tokens)
    requires ts[0].kind == LeftBracket
    ensures Advance(ts).Err? ==> Wrapped(level, Parsing.ParseType(ts)).Err?
    ensures Advance(ts).Ok? ==> Wrapped(level, Parsing.ParseType(ts)) == Wrapped(level + 1, Parsing.ParseType(Advance(ts).value))
  {
    WrappedError(level);
    if Advance(ts).Ok? {
      var inner := Parsing.ParseType(Advance(ts).value);
      assert Parsing.ParseType(ts) == Wrap(inner);
      WrapInside(level, inner);
    }
  }

  lemma NameStep(want: TypeResult, level: nat, ts: Tokens)
    requires ts[0].kind != LeftBracket && want == Wrapped(level, Parsing.ParseType(ts))
    ensures var name := ParseName(ts);
            if name.Err? then want.Err? else Remains(want, level, NamedType(name.value.node), name.value.rest)
  {
    WrappedError(level);
    if ParseName(ts).Ok? {
      var name := ParseName(ts).value;
      assert Parsing.ParseType(ts) == ParseBang(NamedType(name.node), name.rest);
      WrappedRemains(want, level, NamedType(name.node), name.rest);
    }
  }

  /** Wrapping from the inside is closing one list after the other. */
  lemma {:induction false} WrappedRemains(want: TypeResult, level: nat, t: Type, ts: Tokens)
    requires want == Wrapped(level, ParseBang(t, ts)) && !t.NonNullType?
    ensures Remains(want, level, t, ts)
    decreases level
  {
    if level > 0 {
      UnwrapOnce(want, level, ParseBang(t, ts));
      ClosedThenBang(t, ts);
      if Closed(t, ts).Ok? { WrappedRemains(want, level - 1, Closed(t, ts).value.node, Closed(t, ts).value.rest); }
    }
  }

  lemma UnwrapOnce(want: TypeResult, level: nat, r: TypeResult)
    requires level > 0 && want == Wrapped(level, r)
    ensures want == Wrapped(level - 1, Wrap(r)) && (Wrap(r) == Err(SyntaxError) ==> want.Err?)
  {
    WrapInside(level - 1, r);
    WrappedError(level - 1);
  }

  lemma ClosedThenBang(t: Type, ts: Tokens)
    ensures var list := Closed(t, ts);
            Wrap(ParseBang(t, ts)) == if list.Err? then Err(SyntaxError) else ParseBang(list.value.node, list.value.rest)
  {
  }

  /** Parses a source text. */
  method Parse(body: string, variables: bool) returns (r: Result<seq<Definition>, SyntaxError>)
    ensures r == Parsing.ParseDocument(Lexing.Tokens(body), variables)
  {
    var lexer := new Lexer(body);
    var p := new Parser(lexer, variables);
    r := p.ParseDocument();
    SameIsEqual(r, Parsing.ParseDocument(Lexing.Tokens(body), variables));
  }
}
