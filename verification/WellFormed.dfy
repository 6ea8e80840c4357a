/** The documents that the grammar of section 2 of the GraphQL specification (June 2018) produces. */
module WellFormed {
  import opened Wrappers
  import opened Utf8
  import opened Ast
  import opened Lexing
  import opened BlockStringRoundTrip

  predicate IsName(s: string) {
    s != "" && IsNameStart(s[0]) && forall i | 0 <= i < |s| :: IsNameChar(s[i])
  }

  /** The text of one number token. */
  predicate IsNumber(kind: Kind, s: string) {
    s != "" && (s[0] == '-' || IsDigit(s[0])) && LexNumber(s) == Ok((Token(kind, s), |s|))
  }

  /** A string that a string token may have: any, or a block string's value of source characters. */
  ghost predicate IsStringValue(s: string, block: bool) {
    block ==> IsBlockValue(s) && SourceText(s)
  }

  /** The printed form of a string stands for it: it is valid UTF-8, or a block string's value that is not a
      single line ending in a backslash. */
  predicate Printable(t: Token) {
    && (t.kind == String ==> Valid(t.value))
    && (t.kind == BlockString ==> !(SingleLine(t.value) && EndsWith(t.value, '\\')))
  }

  predicate AllPrintable(ts: seq<Token>) {
    forall i | 0 <= i < |ts| :: Printable(ts[i])
  }

  lemma PrintableMore(t: Token, ts: seq<Token>)
    ensures AllPrintable([t] + ts) <==> Printable(t) && AllPrintable(ts)
  {
    assert ([t] + ts)[0] == t && forall i | 0 <= i < |ts| :: ([t] + ts)[i + 1] == ts[i];
  }

  /** `isConst` forbids variables. */
  ghost predicate ValueOk(v: Value, isConst: bool)
    decreases v
  {
    match v
    case Variable(name) => !isConst && IsName(name)
    case IntValue(text) => IsNumber(Int, text)
    case FloatValue(text) => IsNumber(Float, text)
    case StringValue(s, block) => IsStringValue(s, block)
    case BooleanValue(_) => true
    case NullValue => true
    case EnumValue(name) => IsName(name) && name != "true" && name != "false" && name != "null"
    case ListValue(values) => forall x | x in values :: ValueOk(x, isConst)
    case ObjectValue(fields) => forall f | f in fields :: IsName(f.name) && ValueOk(f.value, isConst)
  }

  predicate TypeOk(t: Type) {
    match t
    case NamedType(name) => IsName(name)
    case ListType(item) => TypeOk(item)
    case NonNullType(inner) => !inner.NonNullType? && TypeOk(inner)
  }

  ghost predicate ArgumentsOk(args: seq<Argument>, isConst: bool) {
    forall a | a in args :: IsName(a.name) && ValueOk(a.value, isConst)
  }

  ghost predicate DirectivesOk(ds: seq<Directive>, isConst: bool) {
    forall d | d in ds :: IsName(d.name) && ArgumentsOk(d.arguments, isConst)
  }

  ghost predicate SelectionOk(s: Selection)
    decreases s
  {
    && DirectivesOk(s.directives, false)
    && match s
       case Field(alias, name, arguments, _, selections) =>
         && (alias == None || IsName(alias.value)) && IsName(name) && ArgumentsOk(arguments, false)
         && forall x | x in selections :: SelectionOk(x)
       case FragmentSpread(name, _) => IsName(name) && name != "on"
       case InlineFragment(condition, _, selections) =>
         && (condition == None || IsName(condition.value)) && selections != []
         && forall x | x in selections :: SelectionOk(x)
  }

  ghost predicate SelectionsOk(selections: seq<Selection>) {
    forall s | s in selections :: SelectionOk(s)
  }

  ghost predicate VariableOk(d: VariableDefinition) {
    && IsName(d.name) && TypeOk(d.type_) && (d.default_ == None || ValueOk(d.default_.value, true))
    && DirectivesOk(d.directives, true)
  }

  ghost predicate VariablesOk(ds: seq<VariableDefinition>) {
    forall d | d in ds :: VariableOk(d)
  }

  ghost predicate DefinitionOk(d: Definition) {
    && VariablesOk(d.variables) && DirectivesOk(d.directives, false) && d.selections != [] && SelectionsOk(d.selections)
    && match d
       case Operation(operation, title, _, _, _) =>
         && (title == None || IsName(title.value))
         && (operation == None ==> title == None && d.variables == [] && d.directives == [])
       case Fragment(name, _, condition, _, _) => IsName(name) && name != "on" && IsName(condition)
  }

  ghost predicate DocumentOk(ds: seq<Definition>) {
    ds != [] && forall d | d in ds :: DefinitionOk(d)
  }
}
