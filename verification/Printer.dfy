/** The printer of syntax trees (graphql/ast/printer.go): it appends to an output and keeps an indent level. */
module Printers {
  import opened Wrappers
  import opened Ast
  import opened JsonStream
  import opened BlockStringRoundTrip
  import opened Grammar

  /**
   Every method takes the text `rest` that is still to come, and promises that with it the output is the old
   output followed by the text of the node in front of `rest`.
   */
  class Printer {
    var output: string
    var indentLevel: nat

    constructor ()
      ensures output == "" && indentLevel == 0
    {
      output, indentLevel := "", 0;
    }

    method WriteString(s: string, ghost rest: string)
      modifies this`output
      ensures output == old(output) + s && output + rest == old(output) + (s + rest)
    {
      output := output + s;
    }

    method WriteIndent(ghost rest: string)
      modifies this`output
      ensures output + rest == old(output) + (Spaces(2 * indentLevel) + rest)
    {
      WriteString(Spaces(2 * indentLevel), rest);
    }

    method WriteNewLineWithIndent(ghost rest: string)
      modifies this`output
      ensures output + rest == old(output) + (Newline(indentLevel) + rest)
    {
      WriteString("\n", Spaces(2 * indentLevel) + rest);
      WriteIndent(rest);
      assert Newline(indentLevel) + rest == "\n" + (Spaces(2 * indentLevel) + rest);
    }

    method BeginBlock(ghost rest: string)
      modifies this
      ensures indentLevel == old(indentLevel) + 1
      ensures output + (Spaces(2 * indentLevel) + rest) == old(output) + ("{" + (Newline(indentLevel) + rest))
    {
      indentLevel := indentLevel + 1;
      ghost var text := Spaces(2 * indentLevel) + rest;
      WriteString("{\n", text);
      assert "{\n" + text == "{" + (Newline(indentLevel) + rest);
    }

    method EndBlock(ghost rest: string)
      requires indentLevel > 0
      modifies this
      ensures indentLevel == old(indentLevel) - 1
      ensures output + rest == old(output) + (Newline(indentLevel) + ("}" + rest))
    {
      indentLevel := indentLevel - 1;
      WriteNewLineWithIndent("}" + rest);
      WriteString("}", rest);
    }

    // -------------------------------------------------------------------------------------------
    // Values
    // -------------------------------------------------------------------------------------------

    /** The line break and the indentation in front of a block string's text. */
    method BreakLine(ghost rest: string)
      modifies this`output
      ensures output + rest == old(output) + ("\n" + Spaces(2 * indentLevel) + "  " + rest)
    {
      WriteNewLineWithIndent("  " + rest);
      WriteString("  ", rest);
      Regroup3(Newline(indentLevel), "  ", rest);
    }

    method PrintBlockString(value: string, ghost rest: string)
      modifies this`output
      ensures output + rest == old(output) + (PrintBlock(value, indentLevel) + rest)
    {
      var singleLine := '\n' !in value;
      var leadingSpace := |value| > 0 && (value[0] == ' ' || value[0] == '\t');
      var trailingQuote := |value| > 0 && value[|value| - 1] == '"';
      var multipleLines := !singleLine || trailingQuote;
      var text := IndentLines(EscapeQuotes(value), Spaces(2 * indentLevel) + "  ");
      ghost var head, foot := Head(value, indentLevel), Foot(value, indentLevel);
      ghost var footed := foot + (QUOTES + rest);
      Regroup5(QUOTES, head, text, foot, QUOTES, rest);
      WriteString(QUOTES, head + (text + footed));
      if multipleLines && !(singleLine && leadingSpace) {
        BreakLine(text + footed);
      } else {
        EmptyFront(text + footed);
      }
      WriteString(text, footed);
      if multipleLines {
        WriteNewLineWithIndent(QUOTES + rest);
      } else {
        EmptyFront(QUOTES + rest);
      }
      WriteString(QUOTES, rest);
    }

    /** A quoted string goes through a JSON stream whose sink is the printer. */
    method PrintStringValue(value: string, block: bool, ghost rest: string)
      modifies this`output
      ensures output + rest == old(output) + ((if block then PrintBlock(value, indentLevel) else Quoted(value)) + rest)
    {
      if block {
        PrintBlockString(value, rest);
      } else {
        var sink := new Sink(_ => None);
        var stream := new Stream(sink);
        stream.WriteString(value);
        var ok := stream.Flush();
        WriteString(sink.written, rest);
      }
    }

    method PrintValue(v: Value, ghost rest: string)
      modifies this`output
      ensures output + rest == old(output) + Grammar.PrintValue(v, indentLevel, rest)
      decreases v
    {
      match v {
        case Variable(name) => PrintVariable(name, rest);
        case IntValue(text) => WriteString(text, rest);
        case FloatValue(text) => WriteString(text, rest);
        case StringValue(value, block) => PrintStringValue(value, block, rest);
        case BooleanValue(b) => WriteString(if b then "true" else "false", rest);
        case NullValue => WriteString("null", rest);
        case EnumValue(name) => WriteString(name, rest);
        case ListValue(values) => PrintListValue(v, rest);
        case ObjectValue(fields) => PrintObjectValue(v, rest);
      }
    }

    method PrintVariable(name: string, ghost rest: string)
      modifies this`output
      ensures output + rest == old(output) + ("$" + (name + rest))
    {
      WriteString("$", name + rest);
      WriteString(name, rest);
    }

    method PrintListValue(v: Value, ghost rest: string)
      requires v.ListValue?
      modifies this`output
      ensures output + rest == old(output) + Grammar.PrintValue(v, indentLevel, rest)
      decreases v, 0
    {
      var values := v.values;
      ghost var end := "]" + rest;
      ghost var all := old(output) + Grammar.PrintValue(v, indentLevel, rest);
      if |values| > 0 {
        WriteString("[", Grammar.PrintValue(values[0], indentLevel, PrintMoreValues(values[1..], indentLevel, end)));
        PrintValue(values[0], PrintMoreValues(values[1..], indentLevel, end));
        for i := 1 to |values|
          invariant output + PrintMoreValues(values[i..], indentLevel, end) == all
        {
          assert values[i..][1..] == values[i + 1..];
          ghost var more := PrintMoreValues(values[i + 1..], indentLevel, end);
          WriteString(", ", Grammar.PrintValue(values[i], indentLevel, more));
          PrintValue(values[i], more);
        }
      } else {
        WriteString("[", end);
      }
      WriteString("]", rest);
    }

    method PrintObjectValue(v: Value, ghost rest: string)
      requires v.ObjectValue?
      modifies this`output
      ensures output + rest == old(output) + Grammar.PrintValue(v, indentLevel, rest)
      decreases v, 0
    {
      var fields := v.fields;
      ghost var end := "}" + rest;
      ghost var all := old(output) + Grammar.PrintValue(v, indentLevel, rest);
      if |fields| > 0 {
        WriteString("{", Grammar.PrintObjectField(fields[0], indentLevel, PrintMoreFields(fields[1..], indentLevel, end)));
        PrintObjectField(fields[0], PrintMoreFields(fields[1..], indentLevel, end));
        for i := 1 to |fields|
          invariant output + PrintMoreFields(fields[i..], indentLevel, end) == all
        {
          assert fields[i..][1..] == fields[i + 1..];
          ghost var more := PrintMoreFields(fields[i + 1..], indentLevel, end);
          WriteString(", ", Grammar.PrintObjectField(fields[i], indentLevel, more));
          PrintObjectField(fields[i], more);
        }
      } else {
        WriteString("{", end);
      }
      WriteString("}", rest);
    }

    method PrintObjectField(f: ObjectField, ghost rest: string)
      modifies this`output
      ensures output + rest == old(output) + Grammar.PrintObjectField(f, indentLevel, rest)
      decreases f
    {
      ghost var value := Grammar.PrintValue(f.value, indentLevel, rest);
      WriteString(f.name, ": " + value);
      WriteString(": ", value);
      PrintValue(f.value, rest);
    }

    method PrintType(t: Type, ghost rest: string)
      modifies this`output
      ensures output + rest == old(output) + Grammar.PrintType(t, rest)
    {
      match t {
        case NamedType(name) => WriteString(name, rest);
        case ListType(item) =>
          WriteString("[", Grammar.PrintType(item, "]" + rest));
          PrintType(item, "]" + rest);
          WriteString("]", rest);
        case NonNullType(inner) =>
          PrintType(inner, "!" + rest);
          WriteString("!", rest);
      }
    }

    // -------------------------------------------------------------------------------------------
    // Arguments and directives
    // -------------------------------------------------------------------------------------------

    method PrintArgument(a: Argument, ghost rest: string)
      modifies this`output
      ensures output + rest == old(output) + Grammar.PrintArgument(a, indentLevel, rest)
    {
      ghost var value := Grammar.PrintValue(a.value, indentLevel, rest);
      WriteString(a.name, ": " + value);
      WriteString(": ", value);
      PrintValue(a.value, rest);
    }

    method PrintArguments(args: seq<Argument>, ghost rest: string)
      modifies this`output
      ensures output + rest == old(output) + Grammar.PrintArguments(args, indentLevel, rest)
    {
      if |args| > 0 {
        ghost var end := ")" + rest;
        ghost var all := old(output) + Grammar.PrintArguments(args, indentLevel, rest);
        WriteString("(", Grammar.PrintArgument(args[0], indentLevel, PrintMoreArguments(args[1..], indentLevel, end)));
        PrintArgument(args[0], PrintMoreArguments(args[1..], indentLevel, end));
        for i := 1 to |args|
          invariant output + PrintMoreArguments(args[i..], indentLevel, end) == all
        {
          assert args[i..][1..] == args[i + 1..];
          ghost var more := PrintMoreArguments(args[i + 1..], indentLevel, end);
          WriteString(", ", Grammar.PrintArgument(args[i], indentLevel, more));
          PrintArgument(args[i], more);
        }
        WriteString(")", rest);
      }
    }

    method PrintDirective(d: Directive, ghost rest: string)
      modifies this`output
      ensures output + rest == old(output) + Grammar.PrintDirective(d, indentLevel, rest)
    {
      ghost var arguments := Grammar.PrintArguments(d.arguments, indentLevel, rest);
      WriteString("@", d.name + arguments);
      WriteString(d.name, arguments);
      PrintArguments(d.arguments, rest);
    }

    method PrintDirectives(ds: seq<Directive>, ghost rest: string)
      requires ds != []
      modifies this`output
      ensures output + rest
           == old(output) + Grammar.PrintDirective(ds[0], indentLevel, PrintMoreDirectives(ds[1..], indentLevel, rest))
    {
      ghost var all := old(output) + Grammar.PrintDirective(ds[0], indentLevel, PrintMoreDirectives(ds[1..], indentLevel, rest));
      PrintDirective(ds[0], PrintMoreDirectives(ds[1..], indentLevel, rest));
      for i := 1 to |ds|
        invariant output + PrintMoreDirectives(ds[i..], indentLevel, rest) == all
      {
        assert ds[i..][1..] == ds[i + 1..];
        ghost var more := PrintMoreDirectives(ds[i + 1..], indentLevel, rest);
        WriteString(" ", Grammar.PrintDirective(ds[i], indentLevel, more));
        PrintDirective(ds[i], more);
      }
    }

    /** A space and the directives, if there are any. */
    method PrintSpacedDirectives(ds: seq<Directive>, ghost rest: string)
      modifies this`output
      ensures output + rest == old(output) + PrintMoreDirectives(ds, indentLevel, rest)
    {
      if |ds| > 0 {
        WriteString(" ", Grammar.PrintDirective(ds[0], indentLevel, PrintMoreDirectives(ds[1..], indentLevel, rest)));
        PrintDirectives(ds, rest);
      }
    }

    // -------------------------------------------------------------------------------------------
    // Selections
    // -------------------------------------------------------------------------------------------

    method PrintSelectionSet(selections: seq<Selection>, ghost rest: string)
      modifies this
      ensures indentLevel == old(indentLevel)
      ensures output + rest == old(output) + Grammar.PrintSelectionSet(selections, indentLevel, rest)
      decreases selections, 1
    {
      if |selections| > 0 {
        ghost var level := indentLevel + 1;
        ghost var end := Newline(indentLevel) + ("}" + rest);
        ghost var all := old(output) + Grammar.PrintSelectionSet(selections, indentLevel, rest);
        ghost var more := PrintMoreSelections(selections[1..], level, end);
        BeginBlock(Grammar.PrintSelection(selections[0], level, more));
        WriteIndent(Grammar.PrintSelection(selections[0], level, more));
        PrintSelection(selections[0], more);
        for i := 1 to |selections|
          invariant indentLevel == level && output + PrintMoreSelections(selections[i..], level, end) == all
        {
          assert selections[i..][1..] == selections[i + 1..];
          more := PrintMoreSelections(selections[i + 1..], level, end);
          WriteNewLineWithIndent(Grammar.PrintSelection(selections[i], level, more));
          PrintSelection(selections[i], more);
        }
        EndBlock(rest);
      }
    }

    /** A space and the selection set, if it has selections. */
    method PrintSpacedSet(selections: seq<Selection>, ghost rest: string)
      modifies this
      ensures indentLevel == old(indentLevel)
      ensures output + rest == old(output) + Grammar.PrintSpacedSet(selections, indentLevel, rest)
      decreases selections, 2
    {
      if |selections| > 0 {
        WriteString(" ", Grammar.PrintSelectionSet(selections, indentLevel, rest));
        PrintSelectionSet(selections, rest);
      }
    }

    method PrintSelection(s: Selection, ghost rest: string)
      modifies this
      ensures indentLevel == old(indentLevel)
      ensures output + rest == old(output) + Grammar.PrintSelection(s, indentLevel, rest)
      decreases s
    {
      match s {
        case Field(_, _, _, _, _) => PrintField(s, rest);
        case FragmentSpread(name, directives) =>
          ghost var more := PrintMoreDirectives(directives, indentLevel, rest);
          WriteString("...", name + more);
          WriteString(name, more);
          PrintSpacedDirectives(directives, rest);
        case InlineFragment(_, _, _) => PrintInlineFragment(s, rest);
      }
    }

    method PrintField(s: Selection, ghost rest: string)
      requires s.Field?
      modifies this
      ensures indentLevel == old(indentLevel)
      ensures output + rest == old(output) + Grammar.PrintSelection(s, indentLevel, rest)
      decreases s, 0
    {
      ghost var body := Grammar.PrintSpacedSet(s.selections, indentLevel, rest);
      ghost var directives := PrintMoreDirectives(s.directives, indentLevel, body);
      ghost var more := Grammar.PrintArguments(s.arguments, indentLevel, directives);
      if s.alias != None {
        WriteString(s.alias.value, ": " + (s.name + more));
        WriteString(": ", s.name + more);
      }
      WriteString(s.name, more);
      PrintArguments(s.arguments, directives);
      PrintSpacedDirectives(s.directives, body);
      PrintSpacedSet(s.selections, rest);
    }

    method PrintInlineFragment(s: Selection, ghost rest: string)
      requires s.InlineFragment?
      modifies this
      ensures indentLevel == old(indentLevel)
      ensures output + rest == old(output) + Grammar.PrintSelection(s, indentLevel, rest)
      decreases s, 0
    {
      ghost var body := Grammar.PrintSpacedSet(s.selections, indentLevel, rest);
      ghost var more := PrintMoreDirectives(s.directives, indentLevel, body);
      if s.condition != None {
        WriteString("...", " on " + (s.condition.value + more));
        WriteString(" on ", s.condition.value + more);
        WriteString(s.condition.value, more);
      } else {
        WriteString("...", more);
      }
      PrintSpacedDirectives(s.directives, body);
      PrintSpacedSet(s.selections, rest);
    }

    // -------------------------------------------------------------------------------------------
    // Definitions
    // -------------------------------------------------------------------------------------------

    method PrintVariableDefinition(d: VariableDefinition, ghost rest: string)
      modifies this`output
      ensures output + rest == old(output) + Grammar.PrintVariableDefinition(d, indentLevel, rest)
    {
      ghost var more := PrintMoreDirectives(d.directives, indentLevel, rest);
      ghost var default_ := if d.default_ == None then more
                            else " = " + Grammar.PrintValue(d.default_.value, indentLevel, more);
      ghost var type_ := Grammar.PrintType(d.type_, default_);
      PrintVariable(d.name, ": " + type_);
      WriteString(": ", type_);
      PrintType(d.type_, default_);
      if d.default_ != None {
        WriteString(" = ", Grammar.PrintValue(d.default_.value, indentLevel, more));
        PrintValue(d.default_.value, more);
      }
      PrintSpacedDirectives(d.directives, rest);
    }

    method PrintVariableDefinitions(ds: seq<VariableDefinition>, ghost rest: string)
      modifies this`output
      ensures output + rest == old(output) + PrintVariables(ds, indentLevel, rest)
    {
      if |ds| > 0 {
        ghost var end := ")" + rest;
        ghost var all := old(output) + PrintVariables(ds, indentLevel, rest);
        WriteString("(", Grammar.PrintVariableDefinition(ds[0], indentLevel, PrintMoreVariables(ds[1..], indentLevel, end)));
        PrintVariableDefinition(ds[0], PrintMoreVariables(ds[1..], indentLevel, end));
        for i := 1 to |ds|
          invariant output + PrintMoreVariables(ds[i..], indentLevel, end) == all
        {
          assert ds[i..][1..] == ds[i + 1..];
          ghost var more := PrintMoreVariables(ds[i + 1..], indentLevel, end);
          WriteString(", ", Grammar.PrintVariableDefinition(ds[i], indentLevel, more));
          PrintVariableDefinition(ds[i], more);
        }
        WriteString(")", rest);
      }
    }

    method PrintOperationDefinition(d: Definition, ghost rest: string)
      requires d.Operation?
      modifies this
      ensures indentLevel == old(indentLevel)
      ensures output + rest == old(output) + Grammar.PrintDefinition(d, indentLevel, rest)
    {
      var keyword := Keyword(d.operation);
      if d.title == None && |d.directives| == 0 && |d.variables| == 0 && keyword == "query" {
        PrintSelectionSet(d.selections, rest);
        return;
      }
      ghost var body := Grammar.PrintSpacedSet(d.selections, indentLevel, rest);
      ghost var more := PrintMoreDirectives(d.directives, indentLevel, body);
      ghost var variables := PrintVariables(d.variables, indentLevel, more);
      if d.title != None || |d.variables| > 0 {
        WriteString(keyword, " " + if d.title == None then variables else d.title.value + variables);
        WriteString(" ", if d.title == None then variables else d.title.value + variables);
        if d.title != None {
          WriteString(d.title.value, variables);
        }
        if |d.variables| > 0 {
          PrintVariableDefinitions(d.variables, more);
        }
      } else {
        WriteString(keyword, more);
      }
      PrintSpacedDirectives(d.directives, body);
      PrintSpacedSet(d.selections, rest);
    }

    method PrintFragmentDefinition(d: Definition, ghost rest: string)
      requires d.Fragment?
      modifies this
      ensures indentLevel == old(indentLevel)
      ensures output + rest == old(output) + Grammar.PrintDefinition(d, indentLevel, rest)
    {
      ghost var body := Grammar.PrintSelectionSet(d.selections, indentLevel, rest);
      ghost var more := PrintMoreDirectives(d.directives, indentLevel, " " + body);
      ghost var condition := " on " + (d.condition + more);
      ghost var variables := PrintVariables(d.variables, indentLevel, condition);
      WriteString("fragment ", d.name + variables);
      WriteString(d.name, variables);
      PrintVariableDefinitions(d.variables, condition);
      WriteString(" on ", d.condition + more);
      WriteString(d.condition, more);
      if |d.directives| > 0 {
        ghost var first := Grammar.PrintDirective(d.directives[0], indentLevel, PrintMoreDirectives(d.directives[1..], indentLevel, " " + body));
        WriteString(" ", first);
        PrintDirectives(d.directives, " " + body);
      }
      WriteString(" ", body);
      PrintSelectionSet(d.selections, rest);
    }

    method PrintDefinition(d: Definition, ghost rest: string)
      modifies this
      ensures indentLevel == old(indentLevel)
      ensures output + rest == old(output) + Grammar.PrintDefinition(d, indentLevel, rest)
    {
      if d.Operation? {
        PrintOperationDefinition(d, rest);
      } else {
        PrintFragmentDefinition(d, rest);
      }
    }

    method PrintDocument(ds: seq<Definition>)
      requires indentLevel == 0
      modifies this
      ensures output == old(output) + Grammar.PrintDocument(ds)
    {
      if |ds| > 0 {
        PrintDefinition(ds[0], PrintMoreDefinitions(ds[1..], 0, "\n"));
        for i := 1 to |ds|
          invariant indentLevel == 0
          invariant output + PrintMoreDefinitions(ds[i..], 0, "\n") == old(output) + Grammar.PrintDocument(ds)
        {
          assert ds[i..][1..] == ds[i + 1..];
          ghost var more := PrintMoreDefinitions(ds[i + 1..], 0, "\n");
          WriteString("\n\n", Grammar.PrintDefinition(ds[i], 0, more));
          PrintDefinition(ds[i], more);
        }
      }
      WriteString("\n", "");
    }
  }

  lemma Regroup3(a: string, b: string, c: string)
    ensures a + b + c == a + (b + c)
  {
  }

  lemma EmptyFront(s: string)
    ensures "" + s == s
  {
  }

  lemma Regroup5(a: string, b: string, c: string, d: string, e: string, rest: string)
    ensures a + b + c + d + e + rest == a + (b + (c + (d + (e + rest))))
  {
  }

  /** Print of a document. */
  method Print(ds: seq<Definition>) returns (text: string)
    ensures text == Grammar.PrintDocument(ds)
  {
    var p := new Printer();
    p.PrintDocument(ds);
    text := p.output;
  }
}
