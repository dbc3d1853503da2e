/** A contract's text to its declarations. */
module LidlFrontEnd {
  import opened Wrappers
  import opened LidlLexer
  import opened LidlParser
  import opened LidlRoundTrip
  import opened LidlLines
  import opened LidlGrammar
  import LidlErrors

  /** Total: every text gives a module or the first error, and what the tokenizer
      hands the parser always ends in its only end of input. */
  method ReadContract(source: string) returns (r: Result<Module, LidlError>)
    ensures match Lex(CodeOf(source), 1)
            case Err(e) => r == Err(e)
            case Ok(ts) =>
              Ended(ts) && match ModuleOf(ts) { case Err(e) => r == Err(e) case Ok((m, _)) => r == Ok(m) }
  {
    var code, _, _ := SplitComments(source);
    var tokens := Tokenize(code);
    if tokens.Err? {
      return Err(tokens.error);
    }
    TokensAreLexed(code, 1);
    var parser := new Parser(tokens.value);
    r := parser.ParseModule();
  }

  /** The token is where it says in the source. */
  ghost predicate OnItsSourceLine(source: string, ts: seq<Token>, offsets: seq<nat>, at: nat) {
    at < |ts| && at < |offsets| && OnItsLine(SplitLines(source), CodeOf(source), ts[at], offsets[at])
  }

  /** For every source that reads as a module: its types, methods and events are those
      its items declare, in their order; item `k` begins with its keyword at token
      `starts[k]`, which is on the line of the original source that it bears,
      comments stripped or not, and that is the declaration's line; the module bears
      the line of its name. */
  lemma DeclarationsKeepTheirSourceLine(source: string)
    returns (items: seq<Item>, ds: seq<Declaration>, starts: seq<nat>, offsets: seq<nat>)
    requires Lex(CodeOf(source), 1).Ok? && Ended(Lex(CodeOf(source), 1).value) && ModuleOf(Lex(CodeOf(source), 1).value).Ok?
    ensures var ts := Lex(CodeOf(source), 1).value;
            var (m, rest) := ModuleOf(ts).value;
            && |ts| > 3 && SpellsModule(ts, ts[1].value, items, rest)
            && SitInOrder(CodeOf(source), ts, offsets, 0)
            && OnItsSourceLine(source, ts, offsets, 1)
            && Extends(m, Module(ts[1].value, ts[1].line, [], [], []), ds)
            && |items| == |ds| == |starts|
            && forall k :: 0 <= k < |starts| ==>
                 DeclaredAt(items[k], ds[k], ts, starts[k]) && OnItsSourceLine(source, ts, offsets, starts[k])
                 && starts[k] == if k == 0 then 3 else starts[k - 1] + |ItemWords(items[k - 1])|
  {
    var ts := Lex(CodeOf(source), 1).value;
    TokensAreLexed(CodeOf(source), 1);
    offsets := TokensKeepTheirSourceLine(source);
    var name;
    name, items := ParsedModuleIsSpelled(ts);
    var (m, rest) := ModuleOf(ts).value;
    RestOfModule(ts, name, items, rest);
    ds, starts := DeclaredInTurn(items, ts, 3, rest);
    forall k | 0 <= k < |starts| ensures OnItsSourceLine(source, ts, offsets, starts[k]) {
      assert ProperItem(items[k]) && DeclaredAt(items[k], ds[k], ts, starts[k]);
      ItemStarts(items[k]);
      NotTheEnd(ts, starts[k]);
    }
  }

  /** And for every source whose tokens are no module: the error is about one token, the
      first with which no module goes on, on the line of the source it bears. */
  lemma RefusalsKeepTheirSourceLine(source: string) returns (n: nat, offsets: seq<nat>)
    requires Lex(CodeOf(source), 1).Ok? && Ended(Lex(CodeOf(source), 1).value) && ModuleOf(Lex(CodeOf(source), 1).value).Err?
    ensures var ts := Lex(CodeOf(source), 1).value;
            && n < |ts| && LidlErrors.Blames(ModuleOf(ts).error, ts[n])
            && LidlErrors.BeginsAModule(ts[..n]) && !LidlErrors.BeginsAModule(ts[..n + 1])
            && SitInOrder(CodeOf(source), ts, offsets, 0)
            && (ts[n].kind != Eof ==> OnItsSourceLine(source, ts, offsets, n))
  {
    var ts := Lex(CodeOf(source), 1).value;
    offsets := TokensKeepTheirSourceLine(source);
    n := LidlErrors.FirstWrongToken(ts);
    if ts[n].kind != Eof {
      NotTheEnd(ts, n);
    }
  }

  lemma NotTheEnd(ts: seq<Token>, at: nat)
    requires Ended(ts) && at < |ts| && ts[at].kind != Eof
    ensures at < |ts| - 1
  {
  }

  lemma RestOfModule(ts: seq<Token>, name: string, items: seq<Item>, rest: seq<Token>)
    requires Ended(ts) && Ended(rest) && SpellsModule(ts, name, items, rest)
    ensures |ts| > 3 && ts[1].value == name && Begins(ts[3..], BodyToEnd(items), rest)
  {
    ThreeBegin(ts, Word(Ident, "module"), Word(Ident, name), Mark('{'), BodyToEnd(items), rest);
  }
}
