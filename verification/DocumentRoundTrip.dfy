/** The printer, the lexer and the parser together. */
module DocumentRoundTrip {
  import opened Wrappers
  import opened Ast
  import opened Parsing
  import opened Grammar
  import opened WellFormed
  import opened ParseRoundTrip
  import opened PrintableTokens
  import opened AcceptedDocuments
  import Lexing
  import Printers
  import Parsers

  /** What is lost is lost in the printed form already: printing what was parsed gives the same text. */
  lemma NormalizedPrintsTheSame(ds: seq<Definition>)
    ensures PrintDocument(NormalizedAll(ds)) == PrintDocument(ds)
  {
    if ds != [] {
      var more := PrintMoreDefinitions(ds[1..], 0, "\n");
      NormalizedTail(ds);
      MoreNormalizedPrintTheSame(ds[1..], 0, "\n");
      assert PrintDefinition(Normalized(ds[0]), 0, more) == PrintDefinition(ds[0], 0, more);
    }
  }

  lemma {:induction false} MoreNormalizedPrintTheSame(ds: seq<Definition>, level: nat, rest: string)
    ensures PrintMoreDefinitions(NormalizedAll(ds), level, rest) == PrintMoreDefinitions(ds, level, rest)
  {
    if ds != [] {
      var more := PrintMoreDefinitions(ds[1..], level, rest);
      NormalizedTail(ds);
      MoreNormalizedPrintTheSame(ds[1..], level, rest);
      assert PrintDefinition(Normalized(ds[0]), level, more) == PrintDefinition(ds[0], level, more);
    }
  }

  /** Parsing a source text whose strings are printable, and printing it, is done once and for all: the
      printed text is accepted, and prints as itself. */
  lemma FormattingIsIdempotent(body: string, variables: bool)
    requires AllPrintable(Lexing.Tokens(body)) && ParseDocument(Lexing.Tokens(body), variables).Ok?
    ensures var text := PrintDocument(ParseDocument(Lexing.Tokens(body), variables).value);
            var again := ParseDocument(Lexing.Tokens(text), true);
            again.Ok? && PrintDocument(again.value) == text
  {
    AcceptedRoundTrip(body, variables);
    NormalizedPrintsTheSame(ParseDocument(Lexing.Tokens(body), variables).value);
  }

  /** The printer, the lexer and the parser, one behind the other. */
  method Reparse(ds: seq<Definition>) returns (r: Result<seq<Definition>, SyntaxError>)
    requires DocumentOk(ds)
    ensures r == Ok(NormalizedAll(ds)) <==> PrintableDocument(ds)
  {
    var text := Printers.Print(ds);
    r := Parsers.Parse(text, true);
    DocumentRoundTripExactly(ds);
  }
}
