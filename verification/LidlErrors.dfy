/** Where the parser stops: the token an error is about is the first one that no module
    goes on with. */
module LidlErrors {
  import opened Wrappers
  import opened LidlLexer
  import opened LidlParser
  import opened LidlTable

  // ── The parser follows the table ───────────────────────────────────────────

  /** The parser ends where the table does, and with the same error. */
  ghost predicate Agrees<T>(r: Parse<T>, ts: seq<Token>, o: Outcome) {
    match r
    case Err(e) => o.error == Some(e)
    case Ok((_, rest)) => o.error.None? && o.at <= |ts| && rest == ts[o.at..]
  }

  /** Rules to run, and tokens to parse. */
  ghost predicate Tabled(rules: Rules, ts: seq<Token>) {
    Ranked(rules) && Ended(ts)
  }

  /** After an expected token the rest runs from the next one. */
  ghost predicate Expects(r: Parse<Token>, ts: seq<Token>, i: nat, o: Outcome, next: Outcome) {
    match r
    case Err(e) => o.error == Some(e)
    case Ok((t, rest)) => i + 1 < |ts| && t == ts[i] && rest == ts[i + 1..] && Ended(rest) && o == next
  }

  function After(rules: Rules, ts: seq<Token>, q: Rule, i: nat): Outcome
    requires Ranked(rules) && Stops(ts)
  {
    if i < |ts| then Run(rules, ts, q, i) else Outcome(i, None)
  }

  lemma KindThen(rules: Rules, ts: seq<Token>, kind: Kind, q: Rule, i: nat)
    requires Tabled(rules, ts) && i < |ts| && kind != Eof
    ensures Ended(ts[i..])
    ensures Expects(ExpectKind(ts[i..], kind), ts, i, Run(rules, ts, Seq(One(A(kind)), q), i), After(rules, ts, q, i + 1))
  {
    RunSeq(rules, ts, One(A(kind)), q, i);
    if ts[i].kind == kind {
      assert ts[i..][1..] == ts[i + 1..];
    }
  }

  lemma TextThen(rules: Rules, ts: seq<Token>, text: string, q: Rule, i: nat)
    requires Tabled(rules, ts) && i < |ts|
    ensures Ended(ts[i..])
    ensures Expects(ExpectText(ts[i..], KindOf(text), text), ts, i, Run(rules, ts, Seq(One(This(text)), q), i),
                    After(rules, ts, q, i + 1))
  {
    RunSeq(rules, ts, One(This(text)), q, i);
    if ts[i].kind == KindOf(text) {
      assert ts[i..][1..] == ts[i + 1..];
    }
  }

  lemma TextAgrees(rules: Rules, ts: seq<Token>, text: string, i: nat)
    requires Tabled(rules, ts) && i < |ts|
    ensures Ended(ts[i..]) && Agrees(ExpectText(ts[i..], KindOf(text), text), ts, Run(rules, ts, One(This(text)), i))
  {
  }

  lemma RunNext(rules: Rules, ts: seq<Token>, q: Rule, i: nat)
    requires Tabled(rules, ts) && i < |ts| && ts[i].value != ""
    ensures i + 1 < |ts| && ts[i..][1..] == ts[i + 1..] && Ended(ts[i..]) && Ended(ts[i + 1..])
    ensures Run(rules, ts, Seq(One(Any), q), i) == Run(rules, ts, q, i + 1)
  {
    RunSeq(rules, ts, One(Any), q, i);
  }

  lemma TypeRuns(rules: Rules, ts: seq<Token>, i: nat)
    requires Tabled(rules, ts) && i < |ts|
    requires TypesTabled(rules)
    ensures var o, v := Run(rules, ts, All(Type), i), ts[i].value;
            && (v == "?" ==> i + 1 < |ts| && o == Run(rules, ts, All(Type), i + 1))
            && (v == "[" ==> i + 1 < |ts| && o == Run(rules, ts, Seq(All(Type), One(This("]"))), i + 1))
            && (v == "{" ==> i + 1 < |ts| && o == Run(rules, ts, MAP, i + 1))
            && (v !in {"?", "[", "{"} ==> o == Run(rules, ts, One(TypeName), i))
  {
    var v := ts[i].value;
    RunAll(rules, ts, Type, i);
    RunIf(rules, ts, "?", Seq(One(Any), All(Type)), All(ListType), i);
    if v == "?" {
      RunNext(rules, ts, All(Type), i);
    } else {
      RunAll(rules, ts, ListType, i);
      RunIf(rules, ts, "[", Seq(One(Any), LIST), All(MapType), i);
      if v == "[" {
        RunNext(rules, ts, LIST, i);
      } else {
        RunAll(rules, ts, MapType, i);
        RunIf(rules, ts, "{", Seq(One(Any), MAP), One(TypeName), i);
        if v == "{" {
          RunNext(rules, ts, MAP, i);
        }
      }
    }
  }

  ghost predicate TypesTabled(rules: Rules) {
    && rules(Type) == RuleOf(Type) && rules(ListType) == RuleOf(ListType) && rules(MapType) == RuleOf(MapType)
    && rules(Named) == RuleOf(Named)
  }

  /** Two parses that fail or end alike. */
  ghost predicate Alike<A, B>(r: Parse<A>, r': Parse<B>) {
    match r
    case Err(e) => r' == Err(e)
    case Ok((_, rest)) => r'.Ok? && r'.value.1 == rest
  }

  lemma {:induction false} TypeAgrees(rules: Rules, ts: seq<Token>, i: nat)
    requires Tabled(rules, ts) && i < |ts| && TypesTabled(rules)
    ensures Ended(ts[i..]) && Agrees(TypeExprOf(ts[i..]), ts, Run(rules, ts, All(Type), i))
    decreases |ts| - i, 1
  {
    TypeRuns(rules, ts, i);
    if ts[i].value == "?" {
      assert ts[i..][1..] == ts[i + 1..];
      TypeAgrees(rules, ts, i + 1);
      OptionalOf(ts[i..]);
    } else if ts[i].value == "[" {
      ListAgrees(rules, ts, i);
    } else if ts[i].value == "{" {
      MapAgrees(rules, ts, i);
    } else {
      NameOf(ts[i..]);
    }
  }

  lemma OptionalOf(ts: seq<Token>)
    requires Ended(ts) && ts[0].value == "?"
    ensures Ended(ts[1..]) && Alike(TypeExprOf(ts[1..]), TypeExprOf(ts))
  {
  }

  lemma ListOf(ts: seq<Token>)
    requires Ended(ts) && ts[0].value == "["
    ensures Ended(ts[1..])
    ensures TypeExprOf(ts[1..]).Err? ==> TypeExprOf(ts) == TypeExprOf(ts[1..])
    ensures TypeExprOf(ts[1..]).Ok? ==> Alike(ExpectText(TypeExprOf(ts[1..]).value.1, Punct, "]"), TypeExprOf(ts))
  {
  }

  lemma NameOf(ts: seq<Token>)
    requires Ended(ts) && ts[0].value !in {"?", "[", "{"}
    ensures TypeExprOf(ts) == if ts[0].kind == Ident then Ok((ts[0].value, ts[1..])) else Err(Fault(TypeName, ts[0]).value)
  {
  }

  lemma {:induction false} ListAgrees(rules: Rules, ts: seq<Token>, i: nat)
    requires Tabled(rules, ts) && i < |ts| && TypesTabled(rules) && ts[i].value == "["
    ensures Ended(ts[i..]) && Agrees(TypeExprOf(ts[i..]), ts, Run(rules, ts, All(Type), i))
    decreases |ts| - i, 0
  {
    TypeRuns(rules, ts, i);
    assert ts[i..][1..] == ts[i + 1..];
    TypeAgrees(rules, ts, i + 1);
    ListOf(ts[i..]);
    var o := Run(rules, ts, All(Type), i + 1);
    RunSeq(rules, ts, All(Type), LIST.second, i + 1);
    if o.error.None? {
      TextAgrees(rules, ts, "]", o.at);
    }
  }

  /** A map's entry after its key. */
  function EntryEnd(ts: seq<Token>): (r: Parse<string>)
    requires Ended(ts)
    ensures Proper(r, ts)
  {
    match ExpectText(ts, Punct, ":")
    case Err(e) => Err(e)
    case Ok((_, rest)) =>
      match TypeExprOf(rest)
      case Err(e) => Err(e)
      case Ok((value, rest)) =>
        match ExpectText(rest, Punct, "}")
        case Err(e) => Err(e)
        case Ok((_, rest)) => Ok((value, rest))
  }

  lemma MapOf(ts: seq<Token>)
    requires Ended(ts) && ts[0].value == "{"
    ensures match TypeExprOf(ts[1..])
            case Err(e) => TypeExprOf(ts) == Err(e)
            case Ok((_, rest)) =>
              match EntryEnd(rest)
              case Err(e) => TypeExprOf(ts) == Err(e)
              case Ok((_, end)) => TypeExprOf(ts).Ok? && TypeExprOf(ts).value.1 == end
  {
  }

  lemma {:induction false} EntryAgrees(rules: Rules, ts: seq<Token>, i: nat)
    requires Tabled(rules, ts) && i < |ts| && TypesTabled(rules)
    ensures Ended(ts[i..]) && Agrees(EntryEnd(ts[i..]), ts, Run(rules, ts, MAP.second, i))
    decreases |ts| - i, 0
  {
    var value := Seq(All(Type), One(This("}")));
    TextThen(rules, ts, ":", value, i);
    if ExpectText(ts[i..], Punct, ":").Ok? {
      TypeAgrees(rules, ts, i + 1);
      var v := Run(rules, ts, All(Type), i + 1);
      RunSeq(rules, ts, All(Type), value.second, i + 1);
      if v.error.None? {
        TextAgrees(rules, ts, "}", v.at);
      }
    }
  }

  lemma {:induction false} MapAgrees(rules: Rules, ts: seq<Token>, i: nat)
    requires Tabled(rules, ts) && i < |ts| && TypesTabled(rules) && ts[i].value == "{"
    ensures Ended(ts[i..]) && Agrees(TypeExprOf(ts[i..]), ts, Run(rules, ts, All(Type), i))
    decreases |ts| - i, 0
  {
    TypeRuns(rules, ts, i);
    assert ts[i..][1..] == ts[i + 1..];
    TypeAgrees(rules, ts, i + 1);
    MapOf(ts[i..]);
    var o := Run(rules, ts, All(Type), i + 1);
    RunSeq(rules, ts, All(Type), MAP.second, i + 1);
    if o.error.None? {
      EntryAgrees(rules, ts, o.at);
    }
  }

  lemma NamedAgrees(rules: Rules, ts: seq<Token>, i: nat)
    requires Tabled(rules, ts) && i < |ts| && TypesTabled(rules)
    ensures Ended(ts[i..]) && Agrees(NamedTypeOf(ts[i..]), ts, Run(rules, ts, All(Named), i))
  {
    RunAll(rules, ts, Named, i);
    KindThen(rules, ts, Ident, ENTRY, i);
    if ExpectKind(ts[i..], Ident).Ok? {
      TextThen(rules, ts, ":", All(Type), i + 1);
      if ExpectText(ts[i + 1..], Punct, ":").Ok? {
        TypeAgrees(rules, ts, i + 2);
      }
    }
  }

  /** A mark that may be left out. */
  lemma AcceptAgrees(rules: Rules, ts: seq<Token>, text: string, i: nat)
    requires Tabled(rules, ts) && i < |ts| && text != ""
    ensures var o := Run(rules, ts, If(text, One(Any), Nothing), i);
            Ended(ts[i..]) && o.error.None? && Accepted(ts[i..], text) == ts[o.at..] && Ended(ts[o.at..])
  {
    RunIf(rules, ts, text, One(Any), Nothing, i);
    if ts[i].value == text {
      assert ts[i..][1..] == ts[i + 1..];
    }
  }

  /** The mark that ends a list. */
  lemma ClosingRuns(rules: Rules, ts: seq<Token>, part: Part, text: string, more: Rule, i: nat)
    requires Tabled(rules, ts) && i < |ts| && text != "" && rules(part) == If(text, One(Any), more)
    ensures var o := Run(rules, ts, All(part), i);
            if ts[i].value == text then i + 1 < |ts| && o == Outcome(i + 1, None) && ts[i..][1..] == ts[i + 1..]
            else o == Run(rules, ts, more, i)
  {
    RunAll(rules, ts, part, i);
    RunIf(rules, ts, text, One(Any), more, i);
  }

  lemma {:induction false} ParamsAgree(rules: Rules, ts: seq<Token>, i: nat)
    requires Tabled(rules, ts) && i < |ts| && TypesTabled(rules) && SignaturesTabled(rules)
    ensures Ended(ts[i..]) && Agrees(ParamsTail(ts[i..]), ts, Run(rules, ts, All(Params), i))
    decreases |ts| - i
  {
    var after := Seq(COMMA, All(Params));
    ClosingRuns(rules, ts, Params, ")", Seq(All(Named), after), i);
    if ts[i].value != ")" {
      NamedAgrees(rules, ts, i);
      RunSeq(rules, ts, All(Named), after, i);
      var o := Run(rules, ts, All(Named), i);
      if o.error.None? {
        AcceptAgrees(rules, ts, ",", o.at);
        RunSeq(rules, ts, COMMA, All(Params), o.at);
        ParamsAgree(rules, ts, Run(rules, ts, COMMA, o.at).at);
      }
    }
  }

  lemma {:induction false} FieldsAgree(rules: Rules, ts: seq<Token>, i: nat)
    requires Tabled(rules, ts) && i < |ts| && TypesTabled(rules) && rules(Fields) == RuleOf(Fields)
    ensures Ended(ts[i..]) && Agrees(FieldsTail(ts[i..]), ts, Run(rules, ts, All(Fields), i))
    decreases |ts| - i
  {
    var mark := If("?", One(Any), Nothing);
    var after := Seq(All(Named), All(Fields));
    ClosingRuns(rules, ts, Fields, "}", Seq(mark, after), i);
    if ts[i].value != "}" {
      AcceptAgrees(rules, ts, "?", i);
      RunSeq(rules, ts, mark, after, i);
      var k := Run(rules, ts, mark, i).at;
      NamedAgrees(rules, ts, k);
      RunSeq(rules, ts, All(Named), All(Fields), k);
      var o := Run(rules, ts, All(Named), k);
      if o.error.None? {
        FieldsAgree(rules, ts, o.at);
      }
    }
  }

  lemma {:induction false} NamesAgree(rules: Rules, ts: seq<Token>, i: nat)
    requires Tabled(rules, ts) && i < |ts| && rules(Names) == RuleOf(Names)
    ensures Ended(ts[i..]) && Agrees(NamesTail(ts[i..]), ts, Run(rules, ts, All(Names), i))
    decreases |ts| - i
  {
    var after := Seq(COMMA, All(Names));
    ClosingRuns(rules, ts, Names, "]", Seq(One(A(Ident)), after), i);
    if ts[i].value != "]" {
      KindThen(rules, ts, Ident, after, i);
      if ExpectKind(ts[i..], Ident).Ok? {
        AcceptAgrees(rules, ts, ",", i + 1);
        RunSeq(rules, ts, COMMA, All(Names), i + 1);
        NamesAgree(rules, ts, Run(rules, ts, COMMA, i + 1).at);
      }
    }
  }

  lemma OpeningAgrees(rules: Rules, ts: seq<Token>, i: nat)
    requires Tabled(rules, ts) && i < |ts| && TypesTabled(rules) && SignaturesTabled(rules)
    ensures Ended(ts[i..]) && Agrees(ParamsOf(ts[i..]), ts, Run(rules, ts, OPENING, i))
  {
    TextThen(rules, ts, "(", All(Params), i);
    if ExpectText(ts[i..], Punct, "(").Ok? {
      ParamsAgree(rules, ts, i + 1);
    }
  }

  lemma SignatureAgrees(rules: Rules, ts: seq<Token>, keyword: string, i: nat)
    requires Tabled(rules, ts) && i < |ts| && TypesTabled(rules) && SignaturesTabled(rules) && KindOf(keyword) == Ident
    ensures Ended(ts[i..])
    ensures Agrees(SignatureOf(ts[i..], keyword), ts, Run(rules, ts, Seq(One(This(keyword)), All(Signature)), i))
  {
    TextThen(rules, ts, keyword, All(Signature), i);
    if ExpectText(ts[i..], Ident, keyword).Ok? {
      RunAll(rules, ts, Signature, i + 1);
      KindThen(rules, ts, Ident, OPENING, i + 1);
      if ExpectKind(ts[i + 1..], Ident).Ok? {
        OpeningAgrees(rules, ts, i + 2);
      }
    }
  }

  lemma RecordAgrees(rules: Rules, ts: seq<Token>, i: nat)
    requires Tabled(rules, ts) && i < |ts| && TypesTabled(rules) && rules(Fields) == RuleOf(Fields)
    ensures Ended(ts[i..])
    ensures Agrees(RecordOf(ts[i..]), ts, Run(rules, ts, Seq(One(This("type")), RECORD), i))
  {
    TextThen(rules, ts, "type", RECORD, i);
    if ExpectText(ts[i..], Ident, "type").Ok? {
      KindThen(rules, ts, Ident, RECORD.second, i + 1);
      if ExpectKind(ts[i + 1..], Ident).Ok? {
        TextThen(rules, ts, "{", All(Fields), i + 2);
        if ExpectText(ts[i + 2..], Punct, "{").Ok? {
          FieldsAgree(rules, ts, i + 3);
        }
      }
    }
  }

  lemma ResultAgrees(rules: Rules, ts: seq<Token>, i: nat)
    requires Tabled(rules, ts) && i < |ts| && TypesTabled(rules)
    ensures Ended(ts[i..]) && Agrees(ResultOf(ts[i..]), ts, Run(rules, ts, RESULT, i))
  {
    RunIf(rules, ts, "->", RESULT.yes, Nothing, i);
    if ts[i].value == "->" {
      RunNext(rules, ts, All(Type), i);
      TypeAgrees(rules, ts, i + 1);
    }
  }

  lemma MethodAgrees(rules: Rules, ts: seq<Token>, i: nat)
    requires Tabled(rules, ts) && i < |ts| && TypesTabled(rules) && SignaturesTabled(rules)
    ensures Ended(ts[i..])
    ensures Agrees(MethodOf(ts[i..]), ts, Run(rules, ts, Seq(One(This("method")), Seq(All(Signature), RESULT)), i))
  {
    var keyword := One(This("method"));
    SignatureAgrees(rules, ts, "method", i);
    RunSeq(rules, ts, keyword, All(Signature), i);
    RunSeq(rules, ts, keyword, Seq(All(Signature), RESULT), i);
    var k := Run(rules, ts, keyword, i);
    if k.error.None? {
      RunSeq(rules, ts, All(Signature), RESULT, k.at);
      var o := Run(rules, ts, All(Signature), k.at);
      if o.error.None? {
        ResultAgrees(rules, ts, o.at);
      }
    }
  }

  ghost predicate SignaturesTabled(rules: Rules) {
    rules(Params) == RuleOf(Params) && rules(Signature) == RuleOf(Signature)
  }

  ghost predicate ItemsTabled(rules: Rules) {
    rules(RecordItem) == RuleOf(RecordItem) && rules(MethodItem) == RuleOf(MethodItem) && rules(EventItem) == RuleOf(EventItem)
  }

  lemma AttributesRun(rules: Rules, ts: seq<Token>, i: nat)
    requires Tabled(rules, ts) && i < |ts|
    requires rules(TextItem) == RuleOf(TextItem) && rules(NamesItem) == RuleOf(NamesItem)
    ensures var o, v := Run(rules, ts, All(TextItem), i), ts[i].value;
            o == Run(rules, ts, if v in {"version", "description", "category"} then ATTRIBUTE
                                else if v in {"depends", "optional_depends"} then NAMES else All(RecordItem), i)
  {
    var names := If("optional_depends", NAMES, All(RecordItem));
    var third := If("category", ATTRIBUTE, All(NamesItem));
    var second := If("description", ATTRIBUTE, third);
    RunAll(rules, ts, TextItem, i);
    RunIf(rules, ts, "version", ATTRIBUTE, second, i);
    RunIf(rules, ts, "description", ATTRIBUTE, third, i);
    RunIf(rules, ts, "category", ATTRIBUTE, All(NamesItem), i);
    RunAll(rules, ts, NamesItem, i);
    RunIf(rules, ts, "depends", NAMES, names, i);
    RunIf(rules, ts, "optional_depends", NAMES, All(RecordItem), i);
  }

  lemma ItemsRun(rules: Rules, ts: seq<Token>, i: nat)
    requires Tabled(rules, ts) && i < |ts| && ItemsTabled(rules)
    ensures var o, v := Run(rules, ts, All(RecordItem), i), ts[i].value;
            o == Run(rules, ts, if v == "type" then Seq(One(This("type")), RECORD)
                                else if v == "method" then Seq(One(This("method")), Seq(All(Signature), RESULT))
                                else if v == "event" then Seq(One(This("event")), All(Signature)) else One(Keyword), i)
  {
    RunAll(rules, ts, RecordItem, i);
    RunIf(rules, ts, "type", Seq(One(This("type")), RECORD), All(MethodItem), i);
    RunAll(rules, ts, MethodItem, i);
    RunIf(rules, ts, "method", Seq(One(This("method")), Seq(All(Signature), RESULT)), All(EventItem), i);
    RunAll(rules, ts, EventItem, i);
    RunIf(rules, ts, "event", Seq(One(This("event")), All(Signature)), One(Keyword), i);
  }

  ghost predicate AllTabled(rules: Rules) {
    && TypesTabled(rules) && ItemsTabled(rules)
    && SignaturesTabled(rules) && rules(Fields) == RuleOf(Fields) && rules(Names) == RuleOf(Names)
    && rules(TextItem) == RuleOf(TextItem) && rules(NamesItem) == RuleOf(NamesItem) && rules(Body) == RuleOf(Body)
  }

  lemma DeclarationIs(ts: seq<Token>)
    requires Ended(ts)
    ensures var r, v := DeclarationOf(ts), ts[0].value;
            && (v == "type" ==> Alike(RecordOf(ts), r))
            && (v == "method" ==> Alike(MethodOf(ts), r))
            && (v == "event" ==> Alike(SignatureOf(ts, "event"), r))
  {
  }

  lemma AttributeIs(ts: seq<Token>)
    requires Ended(ts) && ts[0].value != ""
    ensures Ended(ts[1..])
    ensures ts[0].value in {"version", "description", "category"} ==> Alike(ExpectKind(ts[1..], Str), DeclarationOf(ts))
    ensures ts[0].value in {"depends", "optional_depends"} ==>
              var opening := ExpectText(ts[1..], Punct, "[");
              && (opening.Err? ==> DeclarationOf(ts) == Err(opening.error))
              && (opening.Ok? ==> Alike(NamesTail(opening.value.1), DeclarationOf(ts)))
  {
  }

  lemma NamesAttributeAgrees(rules: Rules, ts: seq<Token>, i: nat)
    requires Tabled(rules, ts) && i < |ts| && rules(Names) == RuleOf(Names)
    requires ts[i].value in {"depends", "optional_depends"}
    ensures Ended(ts[i..]) && Agrees(DeclarationOf(ts[i..]), ts, Run(rules, ts, NAMES, i))
  {
    AttributeIs(ts[i..]);
    RunNext(rules, ts, NAMES.second, i);
    TextThen(rules, ts, "[", All(Names), i + 1);
    if ExpectText(ts[i + 1..], Punct, "[").Ok? {
      NamesAgree(rules, ts, i + 2);
    }
  }

  lemma TextAttributeAgrees(rules: Rules, ts: seq<Token>, i: nat)
    requires Tabled(rules, ts) && i < |ts| && ts[i].value in {"version", "description", "category"}
    ensures Ended(ts[i..]) && Agrees(DeclarationOf(ts[i..]), ts, Run(rules, ts, ATTRIBUTE, i))
  {
    AttributeIs(ts[i..]);
    RunNext(rules, ts, One(A(Str)), i);
    OneAgrees(rules, ts, i + 1, Str);
  }

  lemma OneAgrees(rules: Rules, ts: seq<Token>, i: nat, kind: Kind)
    requires Tabled(rules, ts) && i < |ts| && kind != Eof
    ensures Ended(ts[i..]) && Agrees(ExpectKind(ts[i..], kind), ts, Run(rules, ts, One(A(kind)), i))
  {
  }

  lemma RecordItemAgrees(rules: Rules, ts: seq<Token>, i: nat)
    requires Tabled(rules, ts) && i < |ts| && TypesTabled(rules) && rules(Fields) == RuleOf(Fields) && ts[i].value == "type"
    ensures Ended(ts[i..])
    ensures Agrees(DeclarationOf(ts[i..]), ts, Run(rules, ts, Seq(One(This("type")), RECORD), i))
  {
    DeclarationIs(ts[i..]);
    RecordAgrees(rules, ts, i);
  }

  lemma MethodItemAgrees(rules: Rules, ts: seq<Token>, i: nat)
    requires Tabled(rules, ts) && i < |ts| && TypesTabled(rules) && SignaturesTabled(rules) && ts[i].value == "method"
    ensures Ended(ts[i..])
    ensures Agrees(DeclarationOf(ts[i..]), ts, Run(rules, ts, Seq(One(This("method")), Seq(All(Signature), RESULT)), i))
  {
    DeclarationIs(ts[i..]);
    MethodAgrees(rules, ts, i);
  }

  lemma EventItemAgrees(rules: Rules, ts: seq<Token>, i: nat)
    requires Tabled(rules, ts) && i < |ts| && TypesTabled(rules) && SignaturesTabled(rules) && ts[i].value == "event"
    ensures Ended(ts[i..])
    ensures Agrees(DeclarationOf(ts[i..]), ts, Run(rules, ts, Seq(One(This("event")), All(Signature)), i))
  {
    DeclarationIs(ts[i..]);
    SignatureAgrees(rules, ts, "event", i);
  }

  lemma ItemAgrees(rules: Rules, ts: seq<Token>, i: nat)
    requires Tabled(rules, ts) && i < |ts| && TypesTabled(rules) && ItemsTabled(rules)
    requires SignaturesTabled(rules) && rules(Fields) == RuleOf(Fields)
    requires ts[i].value !in {"version", "description", "category", "depends", "optional_depends"}
    ensures Ended(ts[i..]) && Agrees(DeclarationOf(ts[i..]), ts, Run(rules, ts, All(RecordItem), i))
  {
    ItemsRun(rules, ts, i);
    if ts[i].value == "type" {
      RecordItemAgrees(rules, ts, i);
    } else if ts[i].value == "method" {
      MethodItemAgrees(rules, ts, i);
    } else if ts[i].value == "event" {
      EventItemAgrees(rules, ts, i);
    } else {
      NoItemAgrees(rules, ts, i);
    }
  }

  predicate IsKeyword(v: string) {
    || v == "version" || v == "description" || v == "category" || v == "depends" || v == "optional_depends"
    || v == "type" || v == "method" || v == "event"
  }

  lemma NoDeclaration(ts: seq<Token>)
    requires Ended(ts) && !IsKeyword(ts[0].value)
    ensures DeclarationOf(ts) == Err(Fault(Keyword, ts[0]).value)
  {
  }

  lemma NoItemAgrees(rules: Rules, ts: seq<Token>, i: nat)
    requires Tabled(rules, ts) && i < |ts| && !IsKeyword(ts[i].value)
    ensures Ended(ts[i..]) && Agrees(DeclarationOf(ts[i..]), ts, Run(rules, ts, One(Keyword), i))
  {
    NoDeclaration(ts[i..]);
  }

  ghost predicate DeclarationAgrees(rules: Rules, ts: seq<Token>, i: nat)
    requires Tabled(rules, ts) && i < |ts|
  {
    Ended(ts[i..]) && Agrees(DeclarationOf(ts[i..]), ts, Run(rules, ts, All(TextItem), i))
  }

  lemma DeclarationsAgree(rules: Rules, ts: seq<Token>, i: nat)
    requires Tabled(rules, ts) && i < |ts| && AllTabled(rules)
    ensures DeclarationAgrees(rules, ts, i)
  {
    AttributesRun(rules, ts, i);
    if ts[i].value in {"version", "description", "category"} {
      TextAttributeAgrees(rules, ts, i);
    } else if ts[i].value in {"depends", "optional_depends"} {
      NamesAttributeAgrees(rules, ts, i);
    } else {
      ItemAgrees(rules, ts, i);
    }
  }

  lemma {:induction false} BodyAgrees(rules: Rules, ts: seq<Token>, m: Module, i: nat)
    requires Tabled(rules, ts) && i < |ts| && rules(Body) == RuleOf(Body)
    requires forall k: nat :: k < |ts| ==> DeclarationAgrees(rules, ts, k)
    ensures Ended(ts[i..]) && Agrees(BodyTail(ts[i..], m), ts, Run(rules, ts, All(Body), i))
    decreases |ts| - i
  {
    ClosingRuns(rules, ts, Body, "}", Seq(All(TextItem), All(Body)), i);
    if ts[i].value != "}" {
      assert DeclarationAgrees(rules, ts, i);
      RunSeq(rules, ts, All(TextItem), All(Body), i);
      var o := Run(rules, ts, All(TextItem), i);
      if o.error.None? {
        BodyAgrees(rules, ts, Added(m, DeclarationOf(ts[i..]).value.0), o.at);
      }
    }
  }

  /** A module up to its body. */
  function HeadEnd(ts: seq<Token>): (r: Parse<Module>)
    requires Ended(ts)
    ensures Proper(r, ts)
  {
    match ExpectText(ts, Ident, "module")
    case Err(e) => Err(e)
    case Ok((_, rest)) =>
      match ExpectKind(rest, Ident)
      case Err(e) => Err(e)
      case Ok((name, rest)) =>
        match ExpectText(rest, Punct, "{")
        case Err(e) => Err(e)
        case Ok((_, rest)) => Ok((Module(name.value, name.line, [], [], []), rest))
  }

  lemma ModuleIs(ts: seq<Token>)
    requires Ended(ts)
    ensures HeadEnd(ts).Err? ==> ModuleOf(ts) == Err(HeadEnd(ts).error)
    ensures HeadEnd(ts).Ok? ==> ModuleOf(ts) == BodyTail(HeadEnd(ts).value.1, HeadEnd(ts).value.0)
  {
  }

  lemma HeadAgrees(rules: Rules, ts: seq<Token>)
    requires Tabled(rules, ts)
    ensures Agrees(HeadEnd(ts), ts, Run(rules, ts, HEAD, 0))
  {
    assert ts[0..] == ts;
    TextThen(rules, ts, "module", HEAD.second, 0);
    if ExpectText(ts, Ident, "module").Ok? {
      KindThen(rules, ts, Ident, One(This("{")), 1);
      if ExpectKind(ts[1..], Ident).Ok? {
        TextAgrees(rules, ts, "{", 2);
      }
    }
  }

  /** On every token list the parser ends where the table does, and with the same error. */
  lemma ModuleAgrees(rules: Rules, ts: seq<Token>)
    requires Tabled(rules, ts) && AllTabled(rules)
    ensures Agrees(ModuleOf(ts), ts, Run(rules, ts, MODULE, 0))
  {
    ModuleIs(ts);
    HeadAgrees(rules, ts);
    RunSeq(rules, ts, HEAD, All(Body), 0);
    if HeadEnd(ts).Ok? {
      forall k: nat | k < |ts| ensures DeclarationAgrees(rules, ts, k) {
        DeclarationsAgree(rules, ts, k);
      }
      BodyAgrees(rules, ts, HeadEnd(ts).value.0, Run(rules, ts, HEAD, 0).at);
    }
  }

  // ── The first wrong token ──────────────────────────────────────────────────

  /** The error gives this token's line and text, and the token is not what it asks for. */
  ghost predicate Blames(e: LidlError, t: Token) {
    match e
    case Expected(line, want, found) => line == t.line && found == t.value && !(t.value == want && t.kind == KindOf(want))
    case ExpectedKind(line, kind, found) => line == t.line && found == t.value && t.kind != kind
    case ExpectedType(line, found) => line == t.line && found == t.value && t.kind != Ident
    case UnexpectedDeclaration(line, found) => line == t.line && found == t.value && t.kind != Eof
    case UnclosedModule => t.kind == Eof
    case UnexpectedCharacter(_, _) => false
  }

  lemma FaultsBlame(want: Want, t: Token)
    requires want != A(Eof)
    ensures Fault(want, t).Some? ==> Blames(Fault(want, t).value, t)
  {
  }

  type Parser<!T> = seq<Token> --> Parse<T>

  ghost predicate FollowsTable<T>(parse: Parser<T>, rules: Rules, g: Rule)
    requires Ranked(rules)
  {
    forall ts :: Ended(ts) ==> parse.requires(ts) && Agrees(parse(ts), ts, Run(rules, ts, g, 0))
  }

  /** Some text that parses begins with these tokens. */
  ghost predicate Begins<T>(parse: Parser<T>, tokens: seq<Token>) {
    exists b :: Ended(b) && tokens < b && parse.requires(b) && parse(b).Ok?
  }

  lemma MendedEnds(before: seq<Token>, tail: seq<Token>, ts: seq<Token>)
    requires Ended(ts) && |before| < |ts| && before == ts[..|before|] && NoEnd(tail)
    ensures var b := before + (tail + [Token(Eof, "", 0)]);
            Ended(b) && before < b && b[|before|..] == tail + [Token(Eof, "", 0)] && b[..|before|] == before
  {
  }

  lemma MendedParses<T>(parse: Parser<T>, rules: Rules, samples: Samples, g: Rule, ts: seq<Token>)
    requires Ranked(rules) && Optionals(rules) && Sampled(rules, samples) && Optional(g) && Neat(samples, g)
    requires FollowsTable(parse, rules, g) && Ended(ts) && Run(rules, ts, g, 0).error.Some?
    ensures Begins(parse, ts[..Run(rules, ts, g, 0).at])
  {
    var n := Run(rules, ts, g, 0).at;
    var tail := Repair(rules, samples, ts, g, 0);
    var end := [Token(Eof, "", 0)];
    var b := ts[..n] + (tail + end);
    RepairHasNoEnd(rules, samples, ts, g, 0);
    MendedEnds(ts[..n], tail, ts);
    RepairRuns(rules, samples, ts, b, g, 0, end);
  }

  lemma NothingElseMatters<T>(parse: Parser<T>, rules: Rules, g: Rule, ts: seq<Token>, b: seq<Token>)
    requires Ranked(rules) && Optionals(rules) && Optional(g) && FollowsTable(parse, rules, g)
    requires Ended(ts) && Run(rules, ts, g, 0).error.Some? && Ended(b) && ts[..Run(rules, ts, g, 0).at + 1] <= b
    ensures parse.requires(b) && parse(b) == Err(Run(rules, ts, g, 0).error.value)
  {
    var n := Run(rules, ts, g, 0).at;
    forall k | 0 <= k <= n ensures ts[k] == b[k] {
      assert ts[k] == ts[..n + 1][k];
    }
    SameRun(rules, ts, b, g, 0);
  }

  lemma FirstWrong<T>(parse: Parser<T>, rules: Rules, samples: Samples, g: Rule, ts: seq<Token>) returns (n: nat)
    requires Ranked(rules) && Optionals(rules) && Sampled(rules, samples) && Optional(g) && Neat(samples, g)
    requires FollowsTable(parse, rules, g) && Ended(ts) && parse.requires(ts) && parse(ts).Err?
    ensures n < |ts| && Blames(parse(ts).error, ts[n])
    ensures Begins(parse, ts[..n]) && !Begins(parse, ts[..n + 1])
    ensures forall b :: Ended(b) && ts[..n + 1] <= b ==> parse.requires(b) && parse(b) == parse(ts)
  {
    var o := Run(rules, ts, g, 0);
    n := o.at;
    var want := ErrorIsAFault(rules, ts, g, 0);
    FaultsBlame(want, ts[n]);
    MendedParses(parse, rules, samples, g, ts);
    forall b | Ended(b) && ts[..n + 1] <= b ensures parse.requires(b) && parse(b) == parse(ts) {
      NothingElseMatters(parse, rules, g, ts, b);
    }
  }

  lemma ModuleFollows()
    ensures Ranked(RuleOf) && FollowsTable(ModuleOf, RuleOf, MODULE)
  {
    TableIsNeat();
    forall ts | Ended(ts) ensures Agrees(ModuleOf(ts), ts, Run(RuleOf, ts, MODULE, 0)) {
      ModuleAgrees(RuleOf, ts);
    }
  }

  lemma ModuleIsNeat()
    ensures Optional(MODULE) && Neat(SampleOf, MODULE)
  {
  }

  /** Some text that reads as a module begins with these tokens. */
  ghost predicate BeginsAModule(tokens: seq<Token>) {
    exists b :: Ended(b) && tokens < b && ModuleOf(b).Ok?
  }

  lemma BeginsIs(tokens: seq<Token>)
    ensures Begins(ModuleOf, tokens) <==> BeginsAModule(tokens)
  {
    if Begins(ModuleOf, tokens) {
      var b :| Ended(b) && tokens < b && ModuleOf(b).Ok?;
    }
    if BeginsAModule(tokens) {
      var b :| Ended(b) && tokens < b && ModuleOf(b).Ok?;
      assert ModuleOf.requires(b);
    }
  }

  /** A text that is refused is refused for one token: the tokens before it begin some
      module, with it they begin none, the error names it, and no token after it
      matters. */
  lemma FirstWrongToken(ts: seq<Token>) returns (n: nat)
    requires Ended(ts) && ModuleOf(ts).Err?
    ensures n < |ts| && Blames(ModuleOf(ts).error, ts[n])
    ensures BeginsAModule(ts[..n]) && !BeginsAModule(ts[..n + 1])
    ensures forall b :: Ended(b) && ts[..n + 1] <= b ==> ModuleOf(b) == ModuleOf(ts)
  {
    TableIsNeat();
    ModuleFollows();
    ModuleIsNeat();
    n := FirstWrong(ModuleOf, RuleOf, SampleOf, MODULE, ts);
    BeginsIs(ts[..n]);
    BeginsIs(ts[..n + 1]);
  }
}
