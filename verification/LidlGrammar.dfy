/** The grammar of a whole contract, comments aside: the parser accepts exactly it. */
module LidlGrammar {
  import opened Wrappers
  import opened LidlLexer
  import opened LidlParser
  import opened LidlRoundTrip

  /** A record's field as it stands in the source: `?` before the name, or not. */
  datatype SourceField = SourceField(marked: bool, p: TypedParam)

  datatype ListedName = ListedName(name: string, comma: bool)

  datatype Item =
    | TextItem(keyword: string, text: string)
    | NamesItem(keyword: string, names: seq<ListedName>)
    | TypeItem(name: string, fields: seq<SourceField>)
    | MethodItem(name: string, params: seq<Listed>, rtype: Option<TypeExpr>)
    | EventItem(name: string, params: seq<Listed>)

  predicate IsTextKeyword(s: string) {
    s == "version" || s == "description" || s == "category"
  }

  predicate IsNamesKeyword(s: string) {
    s == "depends" || s == "optional_depends"
  }

  predicate ProperField(f: SourceField) {
    IsIdent(f.p.name) && ProperType(f.p.t)
  }

  ghost predicate ProperNames(names: seq<ListedName>) {
    forall i :: 0 <= i < |names| ==> IsIdent(names[i].name)
  }

  ghost predicate ProperItem(item: Item) {
    match item
    case TextItem(keyword, _) => IsTextKeyword(keyword)
    case NamesItem(keyword, names) => IsNamesKeyword(keyword) && ProperNames(names)
    case TypeItem(_, fields) => forall f :: f in fields ==> ProperField(f)
    case MethodItem(name, params, rtype) => ProperDecl(Decl(name, Typed(params), rtype))
    case EventItem(name, params) => ProperDecl(Decl(name, Typed(params), None))
  }

  // ── How it is spelled ──────────────────────────────────────────────────────

  function FieldWords(f: SourceField): seq<Word> {
    if f.marked then [Mark('?')] + ParamWords(f.p) else ParamWords(f.p)
  }

  function FieldsToEnd(fields: seq<SourceField>): (words: seq<Word>)
    ensures words != []
  {
    if fields == [] then [Mark('}')] else FieldWords(fields[0]) + FieldsToEnd(fields[1..])
  }

  function NamesToEnd(names: seq<ListedName>): (words: seq<Word>)
    ensures words != []
  {
    if names == [] then [Mark(']')]
    else [Word(Ident, names[0].name)] + (CommaWords(names[0].comma) + NamesToEnd(names[1..]))
  }

  function ItemWords(item: Item): (words: seq<Word>)
    ensures words != []
  {
    match item
    case TextItem(keyword, text) => [Word(Ident, keyword)] + [Word(Str, text)]
    case NamesItem(keyword, names) => [Word(Ident, keyword)] + ([Mark('[')] + NamesToEnd(names))
    case TypeItem(name, fields) =>
      [Word(Ident, "type")] + ([Word(Ident, name)] + ([Mark('{')] + FieldsToEnd(fields)))
    case MethodItem(name, params, rtype) => ([Word(Ident, "method")] + HeadWords(name, params)) + ResultWords(rtype)
    case EventItem(name, params) => [Word(Ident, "event")] + HeadWords(name, params)
  }

  function BodyToEnd(items: seq<Item>): (words: seq<Word>)
    ensures words != []
  {
    if items == [] then [Mark('}')] else ItemWords(items[0]) + BodyToEnd(items[1..])
  }

  function ModuleWords(name: string, items: seq<Item>): (words: seq<Word>)
    ensures words != []
  {
    [Word(Ident, "module")] + ([Word(Ident, name)] + ([Mark('{')] + BodyToEnd(items)))
  }

  // ── What it declares ───────────────────────────────────────────────────────

  /** Where a field's name is, among the tokens it is spelled by. */
  function NameAt(f: SourceField): nat {
    if f.marked then 1 else 0
  }

  /** Optional by the mark before its name or by its type, on its name's line. */
  function DeclaredField(f: SourceField, ts: seq<Token>): Field
    requires |FieldWords(f)| <= |ts|
  {
    Field(f.p.name, Canon(f.p.t), f.marked || f.p.t.Optional?, ts[NameAt(f)].line)
  }

  function DeclaredFields(fields: seq<SourceField>, ts: seq<Token>): seq<Field>
    requires |FieldsToEnd(fields)| <= |ts|
    decreases |fields|
  {
    if fields == [] then []
    else [DeclaredField(fields[0], ts)] + DeclaredFields(fields[1..], ts[|FieldWords(fields[0])|..])
  }

  function DeclaredRecord(name: string, fields: seq<SourceField>, ts: seq<Token>): Record
    requires |ItemWords(TypeItem(name, fields))| <= |ts|
  {
    Record(name, ts[0].line, DeclaredFields(fields, ts[3..]))
  }

  /** What the item that `ts` begins with declares, on the line of its first token. */
  function DeclarationFor(item: Item, ts: seq<Token>): Declaration
    requires |ItemWords(item)| <= |ts|
  {
    match item
    case TypeItem(name, fields) => RecordDecl(DeclaredRecord(name, fields, ts))
    case MethodItem(name, params, rtype) => MethodDecl(AsMethod(Decl(name, Typed(params), rtype), ts[0].line))
    case EventItem(name, params) => Event(AsEvent(Decl(name, Typed(params), None), ts[0].line))
    case _ => Attribute
  }

  function DeclarationsOf(items: seq<Item>, ts: seq<Token>): (ds: seq<Declaration>)
    requires |BodyToEnd(items)| <= |ts|
    ensures |ds| == |items|
    decreases |items|
  {
    if items == [] then []
    else [DeclarationFor(items[0], ts)] + DeclarationsOf(items[1..], ts[|ItemWords(items[0])|..])
  }

  function RecordsIn(ds: seq<Declaration>): seq<Record> {
    if ds == [] then [] else (if ds[0].RecordDecl? then [ds[0].r] else []) + RecordsIn(ds[1..])
  }

  function MethodsIn(ds: seq<Declaration>): seq<Method> {
    if ds == [] then [] else (if ds[0].MethodDecl? then [ds[0].m] else []) + MethodsIn(ds[1..])
  }

  function EventsIn(ds: seq<Declaration>): seq<EventDecl> {
    if ds == [] then [] else (if ds[0].Event? then [ds[0].e] else []) + EventsIn(ds[1..])
  }

  /** `m` has, beside what `before` has, exactly these declarations in their order,
      types, methods and events apart. */
  ghost predicate Extends(m: Module, before: Module, ds: seq<Declaration>) {
    m == before.(types := before.types + RecordsIn(ds),
                 methods := before.methods + MethodsIn(ds),
                 events := before.events + EventsIn(ds))
  }

  ghost predicate Declares(m: Module, before: Module, items: seq<Item>, ts: seq<Token>) {
    |BodyToEnd(items)| <= |ts| && Extends(m, before, DeclarationsOf(items, ts))
  }

  ghost predicate Means(d: Declaration, item: Item, ts: seq<Token>) {
    |ItemWords(item)| <= |ts| && d == DeclarationFor(item, ts)
  }

  lemma {:induction false} BeginsCovers(ts: seq<Token>, words: seq<Word>, rest: seq<Token>)
    requires Begins(ts, words, rest)
    ensures |words| <= |ts| && rest == ts[|words|..]
    decreases |words|
  {
    if words != [] {
      BeginsCovers(ts[1..], words[1..], rest);
    }
  }

  lemma OneMore<T>(a: seq<T>, x: T, b: seq<T>)
    ensures (a + [x]) + b == a + ([x] + b)
  {
  }

  lemma AddedExtends(m: Module, before: Module, d: Declaration, ds: seq<Declaration>)
    requires Extends(m, Added(before, d), ds)
    ensures Extends(m, before, [d] + ds)
  {
    assert ([d] + ds)[1..] == ds;
    match d
    case Attribute =>
    case RecordDecl(r) => OneMore(before.types, r, RecordsIn(ds));
    case MethodDecl(x) => OneMore(before.methods, x, MethodsIn(ds));
    case Event(e) => OneMore(before.events, e, EventsIn(ds));
  }

  lemma AddedDeclares(m: Module, before: Module, d: Declaration, first: Item, others: seq<Item>, ts: seq<Token>)
    requires Means(d, first, ts) && Declares(m, Added(before, d), others, ts[|ItemWords(first)|..])
    ensures Declares(m, before, [first] + others, ts)
  {
    assert ([first] + others)[1..] == others;
    AddedExtends(m, before, d, DeclarationsOf(others, ts[|ItemWords(first)|..]));
  }

  // ── Parsed, so spelled ─────────────────────────────────────────────────────

  lemma WordIsIdent(t: Token)
    requires ProperToken(t) && t.value != "" && IsIdentStart(t.value[0])
    ensures t.kind == Ident
  {
  }

  /** A canonical string begins with `?` exactly when its type is optional. */
  lemma OptionalShows(t: TypeExpr)
    requires ProperType(t)
    ensures "?" <= Canon(t) <==> t.Optional?
  {
    assert "?" <= Canon(t) <==> Canon(t) != "" && Canon(t)[0] == '?';
  }

  lemma ParsedFieldIsSpelled(ts: seq<Token>) returns (f: SourceField)
    requires Ended(ts) && Lexed(ts) && FieldOf(ts).Ok?
    ensures ProperField(f) && Begins(ts, FieldWords(f), FieldOf(ts).value.1)
    ensures |FieldWords(f)| <= |ts| && FieldOf(ts).value.0 == DeclaredField(f, ts)
  {
    AcceptedIsLexed(ts, "?");
    var p := ParsedNamedTypeIsSpelled(Accepted(ts, "?"));
    OptionalShows(p.t);
    f := SourceField(ts[0].value == "?", p);
    if f.marked {
      MarkIsPunct(ts[0], '?');
      BeginsWith(ts, Mark('?'), ParamWords(p), FieldOf(ts).value.1);
    }
    BeginsCovers(ts, FieldWords(f), FieldOf(ts).value.1);
  }

  lemma FieldsTailStep(ts: seq<Token>)
    requires Ended(ts) && ts[0].value != "}" && FieldsTail(ts).Ok?
    ensures FieldOf(ts).Ok? && FieldsTail(FieldOf(ts).value.1).Ok?
    ensures var tail := FieldsTail(FieldOf(ts).value.1);
            FieldsTail(ts).value == ([FieldOf(ts).value.0] + tail.value.0, tail.value.1)
  {
  }

  lemma FieldsMore(f: SourceField, others: seq<SourceField>, ts: seq<Token>)
    requires |FieldWords(f)| <= |ts| && |FieldsToEnd(others)| <= |ts[|FieldWords(f)|..]|
    ensures FieldsToEnd([f] + others) == FieldWords(f) + FieldsToEnd(others)
    ensures DeclaredFields([f] + others, ts) == [DeclaredField(f, ts)] + DeclaredFields(others, ts[|FieldWords(f)|..])
  {
    assert ([f] + others)[1..] == others;
  }

  lemma {:induction false} ParsedFieldsAreSpelled(ts: seq<Token>) returns (fields: seq<SourceField>)
    requires Ended(ts) && Lexed(ts) && FieldsTail(ts).Ok?
    ensures forall f :: f in fields ==> ProperField(f)
    ensures Begins(ts, FieldsToEnd(fields), FieldsTail(ts).value.1)
    ensures |FieldsToEnd(fields)| <= |ts| && FieldsTail(ts).value.0 == DeclaredFields(fields, ts)
    decreases |ts|
  {
    if ts[0].value == "}" {
      MarkIsPunct(ts[0], '}');
      BeginsWith(ts, Mark('}'), [], ts[1..]);
      fields := [];
      assert [Mark('}')] + [] == FieldsToEnd(fields);
    } else {
      FieldsTailStep(ts);
      var middle := FieldOf(ts).value.1;
      var f := ParsedFieldIsSpelled(ts);
      RestIsLexed(ts, FieldWords(f), middle);
      BeginsCovers(ts, FieldWords(f), middle);
      var others := ParsedFieldsAreSpelled(middle);
      BeginsByParts(ts, FieldWords(f), middle, FieldsToEnd(others), FieldsTail(ts).value.1);
      FieldsMore(f, others, ts);
      fields := [f] + others;
    }
  }

  lemma NamesMore(first: ListedName, others: seq<ListedName>)
    ensures NamesToEnd([first] + others) == [Word(Ident, first.name)] + (CommaWords(first.comma) + NamesToEnd(others))
  {
    assert ([first] + others)[1..] == others;
  }

  lemma {:induction false} ParsedNamesAreSpelled(ts: seq<Token>) returns (names: seq<ListedName>)
    requires Ended(ts) && Lexed(ts) && NamesTail(ts).Ok?
    ensures ProperNames(names) && Begins(ts, NamesToEnd(names), NamesTail(ts).value.1)
    decreases |ts|
  {
    var rest := NamesTail(ts).value.1;
    if ts[0].value == "]" {
      MarkIsPunct(ts[0], ']');
      BeginsWith(ts, Mark(']'), [], rest);
      names := [];
      assert [Mark(']')] + [] == NamesToEnd(names);
    } else {
      assert ProperToken(ts[0]);
      TailIsLexed(ts);
      AcceptedIsLexed(ts[1..], ",");
      var others := ParsedNamesAreSpelled(Accepted(ts[1..], ","));
      var comma := CommaSpelled(ts[1..], NamesToEnd(others), rest);
      BeginsWith(ts, Word(Ident, ts[0].value), CommaWords(comma) + NamesToEnd(others), rest);
      names := [ListedName(ts[0].value, comma)] + others;
      NamesMore(names[0], others);
    }
  }

  lemma RecordParts(ts: seq<Token>)
    requires Ended(ts) && RecordOf(ts).Ok?
    ensures WordOf(ts[0]) == Word(Ident, "type") && |ts| > 3 && Ended(ts[1..]) && Ended(ts[2..]) && Ended(ts[3..])
    ensures ts[1].kind == Ident && WordOf(ts[2]) == Mark('{') && FieldsTail(ts[3..]).Ok?
    ensures RecordOf(ts).value == (Record(ts[1].value, ts[0].line, FieldsTail(ts[3..]).value.0), FieldsTail(ts[3..]).value.1)
  {
    assert ts[1..][1..] == ts[2..] && ts[2..][1..] == ts[3..];
  }

  lemma DropIsLexed(ts: seq<Token>, n: nat)
    requires n <= |ts| && Lexed(ts)
    ensures Lexed(ts[n..])
  {
  }

  lemma BeginsWithThree(ts: seq<Token>, a: Word, b: Word, c: Word, words: seq<Word>, rest: seq<Token>)
    requires |ts| >= 3 && WordOf(ts[0]) == a && WordOf(ts[1]) == b && WordOf(ts[2]) == c && Begins(ts[3..], words, rest)
    ensures Begins(ts, [a] + ([b] + ([c] + words)), rest)
  {
    assert ts[1..][1..] == ts[2..] && ts[2..][1..] == ts[3..];
    BeginsWith(ts[2..], c, words, rest);
    BeginsWith(ts[1..], b, [c] + words, rest);
    BeginsWith(ts, a, [b] + ([c] + words), rest);
  }

  lemma ParsedRecordIsSpelled(ts: seq<Token>) returns (item: Item)
    requires Ended(ts) && Lexed(ts) && RecordOf(ts).Ok?
    ensures ProperItem(item) && Means(RecordDecl(RecordOf(ts).value.0), item, ts)
    ensures Begins(ts, ItemWords(item), RecordOf(ts).value.1)
  {
    RecordParts(ts);
    DropIsLexed(ts, 3);
    var fields := ParsedFieldsAreSpelled(ts[3..]);
    item := TypeItem(ts[1].value, fields);
    BeginsWithThree(ts, Word(Ident, "type"), Word(Ident, ts[1].value), Mark('{'), FieldsToEnd(fields), RecordOf(ts).value.1);
    BeginsCovers(ts, ItemWords(item), RecordOf(ts).value.1);
  }

  lemma ParsedMethodIsSpelled(ts: seq<Token>) returns (item: Item)
    requires Ended(ts) && Lexed(ts) && MethodOf(ts).Ok?
    ensures ProperItem(item) && Means(MethodDecl(MethodOf(ts).value.0), item, ts)
    ensures Begins(ts, ItemWords(item), MethodOf(ts).value.1)
  {
    var name, list := ParsedHeadIsSpelled(ts, "method");
    var middle := SignatureOf(ts, "method").value.1;
    var words := [Word(Ident, "method")] + HeadWords(name, list);
    RestIsLexed(ts, words, middle);
    var rtype := ParsedResultIsSpelled(middle);
    BeginsByParts(ts, words, middle, ResultWords(rtype), MethodOf(ts).value.1);
    item := MethodItem(name, list, rtype);
    BeginsCovers(ts, ItemWords(item), MethodOf(ts).value.1);
  }

  lemma ParsedEventIsSpelled(ts: seq<Token>) returns (item: Item)
    requires Ended(ts) && Lexed(ts) && EventOf(ts).Ok?
    ensures ProperItem(item) && Means(Event(EventOf(ts).value.0), item, ts)
    ensures Begins(ts, ItemWords(item), EventOf(ts).value.1)
  {
    var name, list := ParsedHeadIsSpelled(ts, "event");
    item := EventItem(name, list);
    BeginsCovers(ts, ItemWords(item), EventOf(ts).value.1);
  }

  lemma ParsedTextIsSpelled(ts: seq<Token>) returns (item: Item)
    requires Ended(ts) && Lexed(ts) && IsTextKeyword(ts[0].value) && DeclarationOf(ts).Ok?
    ensures ProperItem(item) && Means(DeclarationOf(ts).value.0, item, ts)
    ensures Begins(ts, ItemWords(item), DeclarationOf(ts).value.1)
  {
    assert ProperToken(ts[0]);
    WordIsIdent(ts[0]);
    var rest := DeclarationOf(ts).value.1;
    assert rest == ts[1..][1..] && ts[1..][0].kind == Str;
    item := TextItem(ts[0].value, ts[1..][0].value);
    BeginsWith(ts[1..], Word(Str, ts[1..][0].value), [], rest);
    BeginsWith(ts, Word(Ident, ts[0].value), [Word(Str, ts[1..][0].value)], rest);
    assert [Word(Str, ts[1..][0].value)] + [] == [Word(Str, ts[1..][0].value)];
    BeginsCovers(ts, ItemWords(item), rest);
  }

  lemma NamesParts(ts: seq<Token>)
    requires Ended(ts) && IsNamesKeyword(ts[0].value) && DeclarationOf(ts).Ok?
    ensures Ended(ts[1..]) && WordOf(ts[1..][0]) == Mark('[') && Ended(ts[1..][1..])
    ensures NamesTail(ts[1..][1..]).Ok? && DeclarationOf(ts).value == (Attribute, NamesTail(ts[1..][1..]).value.1)
  {
  }

  lemma ParsedDependenciesAreSpelled(ts: seq<Token>) returns (item: Item)
    requires Ended(ts) && Lexed(ts) && IsNamesKeyword(ts[0].value) && DeclarationOf(ts).Ok?
    ensures ProperItem(item) && Means(DeclarationOf(ts).value.0, item, ts)
    ensures Begins(ts, ItemWords(item), DeclarationOf(ts).value.1)
  {
    NamesParts(ts);
    assert ProperToken(ts[0]);
    WordIsIdent(ts[0]);
    TailIsLexed(ts);
    TailIsLexed(ts[1..]);
    var names := ParsedNamesAreSpelled(ts[1..][1..]);
    var rest := DeclarationOf(ts).value.1;
    BeginsWith(ts[1..], Mark('['), NamesToEnd(names), rest);
    BeginsWith(ts, Word(Ident, ts[0].value), [Mark('[')] + NamesToEnd(names), rest);
    item := NamesItem(ts[0].value, names);
    BeginsCovers(ts, ItemWords(item), rest);
  }

  /** Which of the grammar's functions read a declaration. */
  lemma DeclarationCases(ts: seq<Token>)
    requires Ended(ts) && DeclarationOf(ts).Ok? && !IsTextKeyword(ts[0].value) && !IsNamesKeyword(ts[0].value)
    ensures || (RecordOf(ts).Ok? && DeclarationOf(ts).value == (RecordDecl(RecordOf(ts).value.0), RecordOf(ts).value.1))
            || (MethodOf(ts).Ok? && DeclarationOf(ts).value == (MethodDecl(MethodOf(ts).value.0), MethodOf(ts).value.1))
            || (EventOf(ts).Ok? && DeclarationOf(ts).value == (Event(EventOf(ts).value.0), EventOf(ts).value.1))
  {
  }

  lemma ParsedItemIsSpelled(ts: seq<Token>) returns (item: Item)
    requires Ended(ts) && Lexed(ts) && DeclarationOf(ts).Ok?
    ensures ProperItem(item) && Means(DeclarationOf(ts).value.0, item, ts)
    ensures Begins(ts, ItemWords(item), DeclarationOf(ts).value.1)
  {
    if IsTextKeyword(ts[0].value) {
      item := ParsedTextIsSpelled(ts);
    } else if IsNamesKeyword(ts[0].value) {
      item := ParsedDependenciesAreSpelled(ts);
    } else {
      DeclarationCases(ts);
      if DeclarationOf(ts).value.0.RecordDecl? {
        item := ParsedRecordIsSpelled(ts);
      } else if DeclarationOf(ts).value.0.MethodDecl? {
        item := ParsedMethodIsSpelled(ts);
      } else {
        item := ParsedEventIsSpelled(ts);
      }
    }
  }

  lemma BodyTailStep(ts: seq<Token>, m: Module)
    requires Ended(ts) && ts[0].value != "}" && BodyTail(ts, m).Ok?
    ensures DeclarationOf(ts).Ok?
    ensures BodyTail(ts, m) == BodyTail(DeclarationOf(ts).value.1, Added(m, DeclarationOf(ts).value.0))
  {
  }

  lemma BodyMore(first: Item, others: seq<Item>)
    ensures BodyToEnd([first] + others) == ItemWords(first) + BodyToEnd(others)
  {
    assert ([first] + others)[1..] == others;
  }

  lemma NothingIsDeclared(m: Module, ts: seq<Token>)
    requires ts != []
    ensures Declares(m, m, [], ts)
  {
    assert m.types + [] == m.types && m.methods + [] == m.methods && m.events + [] == m.events;
  }

  ghost predicate ProperItems(items: seq<Item>) {
    forall i :: 0 <= i < |items| ==> ProperItem(items[i])
  }

  lemma {:induction false} ParsedBodyIsSpelled(ts: seq<Token>, m: Module) returns (items: seq<Item>)
    requires Ended(ts) && Lexed(ts) && BodyTail(ts, m).Ok?
    ensures ProperItems(items) && Declares(BodyTail(ts, m).value.0, m, items, ts)
    ensures Begins(ts, BodyToEnd(items), BodyTail(ts, m).value.1)
    decreases |ts|
  {
    if ts[0].value == "}" {
      MarkIsPunct(ts[0], '}');
      BeginsWith(ts, Mark('}'), [], ts[1..]);
      NothingIsDeclared(m, ts);
      items := [];
      assert [Mark('}')] + [] == BodyToEnd(items);
    } else {
      BodyTailStep(ts, m);
      var (d, middle) := DeclarationOf(ts).value;
      var first := ParsedItemIsSpelled(ts);
      RestIsLexed(ts, ItemWords(first), middle);
      BeginsCovers(ts, ItemWords(first), middle);
      var others := ParsedBodyIsSpelled(middle, Added(m, d));
      BeginsByParts(ts, ItemWords(first), middle, BodyToEnd(others), BodyTail(ts, m).value.1);
      BodyMore(first, others);
      AddedDeclares(BodyTail(ts, m).value.0, m, d, first, others, ts);
      items := [first] + others;
    }
  }

  lemma ModuleParts(ts: seq<Token>)
    requires Ended(ts) && ModuleOf(ts).Ok?
    ensures WordOf(ts[0]) == Word(Ident, "module") && |ts| > 3 && Ended(ts[3..])
    ensures ts[1].kind == Ident && WordOf(ts[2]) == Mark('{')
    ensures ModuleOf(ts) == BodyTail(ts[3..], Module(ts[1].value, ts[1].line, [], [], []))
  {
    assert ts[1..][1..] == ts[2..] && ts[2..][1..] == ts[3..];
  }

  /** `ts` spells a module up to `rest`. */
  ghost predicate SpellsModule(ts: seq<Token>, name: string, items: seq<Item>, rest: seq<Token>) {
    ProperItems(items) && rest != [] && Begins(ts, ModuleWords(name, items), rest)
  }

  /** What the parser reads as a module is spelled by the tokens, and holds exactly
      what the items declare: each once, in their order, types, methods and events
      apart. */
  lemma ParsedModuleIsSpelled(ts: seq<Token>) returns (name: string, items: seq<Item>)
    requires Ended(ts) && Lexed(ts) && ModuleOf(ts).Ok?
    ensures SpellsModule(ts, name, items, ModuleOf(ts).value.1)
    ensures |ts| > 3 && Declares(ModuleOf(ts).value.0, Module(name, ts[1].line, [], [], []), items, ts[3..])
  {
    ModuleParts(ts);
    DropIsLexed(ts, 3);
    name := ts[1].value;
    items := ParsedBodyIsSpelled(ts[3..], Module(name, ts[1].line, [], [], []));
    BeginsWithThree(ts, Word(Ident, "module"), Word(Ident, name), Mark('{'), BodyToEnd(items), ModuleOf(ts).value.1);
  }

  // ── Spelled, so parsed ─────────────────────────────────────────────────────

  /** What three words begin, and what comes after them. */
  lemma ThreeBegin(ts: seq<Token>, a: Word, b: Word, c: Word, words: seq<Word>, rest: seq<Token>)
    requires Ended(ts) && Ended(rest) && words != [] && Begins(ts, [a] + ([b] + ([c] + words)), rest)
    ensures |ts| > 3 && Ended(ts[1..]) && Ended(ts[2..]) && Ended(ts[3..])
    ensures WordOf(ts[0]) == a && WordOf(ts[1]) == b && WordOf(ts[2]) == c && Begins(ts[3..], words, rest)
  {
    BeginsWithOne(ts, a, [b] + ([c] + words), rest);
    SomethingBegins(ts[1..], [b] + ([c] + words), rest);
    BeginsWithOne(ts[1..], b, [c] + words, rest);
    SomethingBegins(ts[1..][1..], [c] + words, rest);
    BeginsWithOne(ts[1..][1..], c, words, rest);
    SomethingBegins(ts[1..][1..][1..], words, rest);
    assert ts[1..][1..] == ts[2..] && ts[2..][1..] == ts[3..];
  }

  lemma SpelledNamedTypeParses(ts: seq<Token>, p: TypedParam, rest: seq<Token>)
    requires Ended(ts) && Ended(rest) && IsIdent(p.name) && ProperType(p.t) && Begins(ts, ParamWords(p), rest)
    ensures NamedTypeOf(ts) == Ok(((ts[0], Canon(p.t)), rest)) && ts[0].value == p.name && ts[0].kind == Ident
  {
    BeginsWithOne(ts, Word(Ident, p.name), [Mark(':')] + Spelling(p.t), rest);
    SpelledParamParses(ts, p, rest);
  }

  lemma SpelledFieldParses(ts: seq<Token>, f: SourceField, rest: seq<Token>)
    requires Ended(ts) && Ended(rest) && ProperField(f) && Begins(ts, FieldWords(f), rest)
    ensures ts[0].value != "}" && |FieldWords(f)| <= |ts| && FieldOf(ts) == Ok((DeclaredField(f, ts), rest))
  {
    BeginsCovers(ts, FieldWords(f), rest);
    if f.marked {
      BeginsWithOne(ts, Mark('?'), ParamWords(f.p), rest);
      SomethingBegins(ts[1..], ParamWords(f.p), rest);
      SpelledNamedTypeParses(ts[1..], f.p, rest);
    } else {
      SpelledNamedTypeParses(ts, f.p, rest);
      NamesAreNotMarks(f.p.name, '?');
      NamesAreNotMarks(f.p.name, '}');
    }
    OptionalShows(f.p.t);
  }

  lemma {:induction false} SpelledFieldsParse(ts: seq<Token>, fields: seq<SourceField>, rest: seq<Token>)
    requires Ended(ts) && Ended(rest) && (forall f :: f in fields ==> ProperField(f)) && Begins(ts, FieldsToEnd(fields), rest)
    ensures |FieldsToEnd(fields)| <= |ts| && FieldsTail(ts) == Ok((DeclaredFields(fields, ts), rest))
    decreases |fields|
  {
    if fields == [] {
      assert FieldsToEnd(fields) == [Mark('}')] + [];
      BeginsWithOne(ts, Mark('}'), [], rest);
    } else {
      var f, others := fields[0], fields[1..];
      assert f in fields && fields == [f] + others;
      var middle := BeginsInParts(ts, FieldWords(f), FieldsToEnd(others), rest);
      SomethingBegins(middle, FieldsToEnd(others), rest);
      RestIsEnded(ts, FieldWords(f), middle);
      BeginsCovers(ts, FieldWords(f), middle);
      SpelledFieldParses(ts, f, middle);
      SpelledFieldsParse(middle, others, rest);
      FieldsMore(f, others, ts);
    }
  }

  lemma NamesStart(names: seq<ListedName>)
    requires ProperNames(names)
    ensures NamesToEnd(names)[0].value != ","
  {
    if names != [] {
      NamesAreNotMarks(names[0].name, ',');
    }
  }

  lemma {:induction false} SpelledNamesParse(ts: seq<Token>, names: seq<ListedName>, rest: seq<Token>)
    requires Ended(ts) && Ended(rest) && ProperNames(names) && Begins(ts, NamesToEnd(names), rest)
    ensures NamesTail(ts) == Ok(((), rest))
    decreases |names|
  {
    if names == [] {
      assert NamesToEnd(names) == [Mark(']')] + [];
      BeginsWithOne(ts, Mark(']'), [], rest);
    } else {
      var first, others := names[0], names[1..];
      var words := CommaWords(first.comma) + NamesToEnd(others);
      BeginsWithOne(ts, Word(Ident, first.name), words, rest);
      SomethingBegins(ts[1..], words, rest);
      NamesStart(others);
      NamesAreNotMarks(first.name, ']');
      CommaAccepted(ts[1..], first.comma, NamesToEnd(others), rest);
      SpelledNamesParse(Accepted(ts[1..], ","), others, rest);
    }
  }

  lemma SpelledTextParses(ts: seq<Token>, keyword: string, text: string, rest: seq<Token>)
    requires Ended(ts) && Ended(rest) && IsTextKeyword(keyword)
    requires Begins(ts, [Word(Ident, keyword)] + [Word(Str, text)], rest)
    ensures ts[0].value == keyword && DeclarationOf(ts) == Ok((Attribute, rest))
  {
    BeginsWithOne(ts, Word(Ident, keyword), [Word(Str, text)], rest);
    assert [Word(Str, text)] == [Word(Str, text)] + [];
    BeginsWithOne(ts[1..], Word(Str, text), [], rest);
  }

  lemma SpelledDependenciesParse(ts: seq<Token>, keyword: string, names: seq<ListedName>, rest: seq<Token>)
    requires Ended(ts) && Ended(rest) && IsNamesKeyword(keyword) && ProperNames(names)
    requires Begins(ts, [Word(Ident, keyword)] + ([Mark('[')] + NamesToEnd(names)), rest)
    ensures ts[0].value == keyword && DeclarationOf(ts) == Ok((Attribute, rest))
  {
    BeginsWithOne(ts, Word(Ident, keyword), [Mark('[')] + NamesToEnd(names), rest);
    SomethingBegins(ts[1..], [Mark('[')] + NamesToEnd(names), rest);
    BeginsWithOne(ts[1..], Mark('['), NamesToEnd(names), rest);
    SomethingBegins(ts[1..][1..], NamesToEnd(names), rest);
    SpelledNamesParse(ts[1..][1..], names, rest);
    assert ExpectText(ts[1..], Punct, "[") == Ok((ts[1..][0], ts[1..][1..]));
  }

  lemma SpelledRecordParses(ts: seq<Token>, name: string, fields: seq<SourceField>, rest: seq<Token>)
    requires Ended(ts) && Ended(rest) && ProperItem(TypeItem(name, fields))
    requires Begins(ts, ItemWords(TypeItem(name, fields)), rest)
    ensures ts[0].value == "type" && RecordOf(ts).Ok? && RecordOf(ts).value.1 == rest
    ensures Means(RecordDecl(RecordOf(ts).value.0), TypeItem(name, fields), ts)
  {
    ThreeBegin(ts, Word(Ident, "type"), Word(Ident, name), Mark('{'), FieldsToEnd(fields), rest);
    SpelledFieldsParse(ts[3..], fields, rest);
    BeginsCovers(ts, ItemWords(TypeItem(name, fields)), rest);
    assert ts[1..][1..] == ts[2..] && ts[2..][1..] == ts[3..];
    assert HeadOf(ts, "type") == Ok(((name, ts[0].line), ts[2..]));
    assert ExpectText(ts[2..], Punct, "{") == Ok((ts[2], ts[3..]));
  }

  lemma SpelledMethodItemParses(ts: seq<Token>, name: string, params: seq<Listed>, rtype: Option<TypeExpr>, rest: seq<Token>)
    requires Ended(ts) && Ended(rest) && ProperItem(MethodItem(name, params, rtype))
    requires Begins(ts, ItemWords(MethodItem(name, params, rtype)), rest) && rest[0].value != "->"
    ensures ts[0].value == "method" && MethodOf(ts).Ok? && MethodOf(ts).value.1 == rest
    ensures Means(MethodDecl(MethodOf(ts).value.0), MethodItem(name, params, rtype), ts)
  {
    var head := [Word(Ident, "method")] + HeadWords(name, params);
    var middle := BeginsInParts(ts, head, ResultWords(rtype), rest);
    SomethingBegins(middle, ResultWords(rtype), rest);
    RestIsEnded(ts, head, middle);
    SpelledMethodParses(ts, name, params, rtype, middle, rest);
    BeginsWithOne(ts, Word(Ident, "method"), HeadWords(name, params), middle);
    BeginsCovers(ts, ItemWords(MethodItem(name, params, rtype)), rest);
  }

  lemma SpelledEventItemParses(ts: seq<Token>, name: string, params: seq<Listed>, rest: seq<Token>)
    requires Ended(ts) && Ended(rest) && ProperItem(EventItem(name, params))
    requires Begins(ts, ItemWords(EventItem(name, params)), rest)
    ensures ts[0].value == "event" && EventOf(ts).Ok? && EventOf(ts).value.1 == rest
    ensures Means(Event(EventOf(ts).value.0), EventItem(name, params), ts)
  {
    SpelledHeadParses(ts, "event", name, params, rest);
    BeginsWithOne(ts, Word(Ident, "event"), HeadWords(name, params), rest);
    BeginsCovers(ts, ItemWords(EventItem(name, params)), rest);
  }

  /** Each keyword leads to its own function. */
  lemma DispatchType(ts: seq<Token>)
    requires Ended(ts) && ts[0].kind == Ident && ts[0].value == "type" && RecordOf(ts).Ok?
    ensures DeclarationOf(ts) == Ok((RecordDecl(RecordOf(ts).value.0), RecordOf(ts).value.1))
  {
  }

  lemma DispatchMethod(ts: seq<Token>)
    requires Ended(ts) && ts[0].kind == Ident && ts[0].value == "method" && MethodOf(ts).Ok?
    ensures DeclarationOf(ts) == Ok((MethodDecl(MethodOf(ts).value.0), MethodOf(ts).value.1))
  {
  }

  lemma DispatchEvent(ts: seq<Token>)
    requires Ended(ts) && ts[0].kind == Ident && ts[0].value == "event" && EventOf(ts).Ok?
    ensures DeclarationOf(ts) == Ok((Event(EventOf(ts).value.0), EventOf(ts).value.1))
  {
  }

  lemma ItemStarts(item: Item)
    requires ProperItem(item)
    ensures ItemWords(item)[0].kind == Ident && ItemWords(item)[0].value != "->" && ItemWords(item)[0].value != "}"
  {
  }

  lemma FirstWord(ts: seq<Token>, words: seq<Word>, rest: seq<Token>)
    requires words != [] && Begins(ts, words, rest)
    ensures ts != [] && WordOf(ts[0]) == words[0]
  {
  }

  lemma SpelledItemParses(ts: seq<Token>, item: Item, rest: seq<Token>)
    requires Ended(ts) && Ended(rest) && ProperItem(item) && Begins(ts, ItemWords(item), rest) && rest[0].value != "->"
    ensures ts[0].value != "}" && DeclarationOf(ts).Ok? && DeclarationOf(ts).value.1 == rest
    ensures Means(DeclarationOf(ts).value.0, item, ts)
  {
    ItemStarts(item);
    FirstWord(ts, ItemWords(item), rest);
    BeginsCovers(ts, ItemWords(item), rest);
    match item
    case TextItem(keyword, text) => SpelledTextParses(ts, keyword, text, rest);
    case NamesItem(keyword, names) => SpelledDependenciesParse(ts, keyword, names, rest);
    case TypeItem(name, fields) =>
      SpelledRecordParses(ts, name, fields, rest);
      DispatchType(ts);
    case MethodItem(name, params, rtype) =>
      SpelledMethodItemParses(ts, name, params, rtype, rest);
      DispatchMethod(ts);
    case EventItem(name, params) =>
      SpelledEventItemParses(ts, name, params, rest);
      DispatchEvent(ts);
  }

  lemma BodyStarts(items: seq<Item>)
    requires ProperItems(items)
    ensures BodyToEnd(items)[0].value != "->"
  {
    if items != [] {
      ItemStarts(items[0]);
    }
  }

  lemma FirstItemParses(ts: seq<Token>, first: Item, words: seq<Word>, rest: seq<Token>) returns (middle: seq<Token>)
    requires Ended(ts) && Ended(rest) && ProperItem(first) && Begins(ts, ItemWords(first) + words, rest)
    requires words != [] && words[0].value != "->"
    ensures Ended(middle) && Begins(middle, words, rest)
    ensures ts[0].value != "}" && DeclarationOf(ts).Ok? && DeclarationOf(ts).value.1 == middle
    ensures Means(DeclarationOf(ts).value.0, first, ts) && middle == ts[|ItemWords(first)|..]
  {
    middle := BeginsInParts(ts, ItemWords(first), words, rest);
    SomethingBegins(middle, words, rest);
    RestIsEnded(ts, ItemWords(first), middle);
    BeginsCovers(ts, ItemWords(first), middle);
    FirstWord(middle, words, rest);
    SpelledItemParses(ts, first, middle);
  }

  lemma BodyTurns(ts: seq<Token>, m: Module, d: Declaration, middle: seq<Token>)
    requires Ended(ts) && Ended(middle) && ts[0].value != "}" && DeclarationOf(ts) == Ok((d, middle))
    ensures BodyTail(ts, m) == BodyTail(middle, Added(m, d))
  {
  }

  lemma {:induction false} SpelledBodyParses(ts: seq<Token>, m: Module, items: seq<Item>, rest: seq<Token>)
    requires Ended(ts) && Ended(rest) && ProperItems(items) && Begins(ts, BodyToEnd(items), rest)
    ensures BodyTail(ts, m).Ok? && BodyTail(ts, m).value.1 == rest && Declares(BodyTail(ts, m).value.0, m, items, ts)
    decreases |items|
  {
    if items == [] {
      assert BodyToEnd(items) == [Mark('}')] + [];
      BeginsWithOne(ts, Mark('}'), [], rest);
      NothingIsDeclared(m, ts);
    } else {
      var first, others := items[0], items[1..];
      BodyStarts(others);
      var middle := FirstItemParses(ts, first, BodyToEnd(others), rest);
      var d := DeclarationOf(ts).value.0;
      BodyTurns(ts, m, d, middle);
      SpelledBodyParses(middle, Added(m, d), others, rest);
      AddedDeclares(BodyTail(ts, m).value.0, m, d, first, others, ts);
      assert items == [first] + others;
    }
  }

  lemma SpelledModuleParses(ts: seq<Token>, name: string, items: seq<Item>, rest: seq<Token>)
    requires Ended(ts) && SpellsModule(ts, name, items, rest)
    ensures ModuleOf(ts).Ok? && ModuleOf(ts).value.1 == rest
    ensures |ts| > 3 && Declares(ModuleOf(ts).value.0, Module(name, ts[1].line, [], [], []), items, ts[3..])
  {
    RestIsEnded(ts, ModuleWords(name, items), rest);
    ThreeBegin(ts, Word(Ident, "module"), Word(Ident, name), Mark('{'), BodyToEnd(items), rest);
    SpelledBodyParses(ts[3..], Module(name, ts[1].line, [], [], []), items, rest);
    assert ts[1..][1..] == ts[2..] && ts[2..][1..] == ts[3..];
    assert ExpectText(ts, Ident, "module") == Ok((ts[0], ts[1..]));
    assert ExpectText(ts[2..], Punct, "{") == Ok((ts[2], ts[3..]));
  }

  /** The parser accepts exactly the spellings of modules. */
  lemma ModulesAreExactlyTheGrammar(ts: seq<Token>)
    requires Ended(ts) && Lexed(ts)
    ensures ModuleOf(ts).Ok? <==> exists name, items, rest :: SpellsModule(ts, name, items, rest)
  {
    if ModuleOf(ts).Ok? {
      var name, items := ParsedModuleIsSpelled(ts);
      assert SpellsModule(ts, name, items, ModuleOf(ts).value.1);
    }
    forall name, items, rest | SpellsModule(ts, name, items, rest) ensures ModuleOf(ts).Ok? {
      SpelledModuleParses(ts, name, items, rest);
    }
  }

  // ── Where each declaration begins ──────────────────────────────────────────

  /** The item begins with token `at`, which is its first word, and declares `d`. */
  ghost predicate DeclaredAt(item: Item, d: Declaration, ts: seq<Token>, at: nat) {
    && at < |ts| && WordOf(ts[at]) == ItemWords(item)[0]
    && Means(d, item, ts[at..])
  }

  lemma DeclaredFirst(item: Item, ts: seq<Token>, from: nat, here: seq<Token>, rest: seq<Token>)
    requires from <= |ts| && here == ts[from..] && Begins(here, ItemWords(item), rest)
    ensures |ItemWords(item)| <= |here| && rest == ts[from + |ItemWords(item)|..]
    ensures DeclaredAt(item, DeclarationFor(item, here), ts, from)
  {
    BeginsCovers(here, ItemWords(item), rest);
    FirstWord(here, ItemWords(item), rest);
  }

  /** Whether an item declares something from a token on. */
  type Where = (Item, Declaration, nat) -> bool

  /** One start for each item, as far on as the one before is long, and the item
      declared there. */
  predicate InTurn(p: Where, size: Item -> nat, items: seq<Item>, ds: seq<Declaration>, starts: seq<nat>, from: nat) {
    && |items| == |ds| == |starts|
    && (starts != [] ==> starts[0] == from)
    && (forall k :: 0 < k < |starts| ==> starts[k] == starts[k - 1] + size(items[k - 1]))
    && (forall k :: 0 <= k < |starts| ==> p(items[k], ds[k], starts[k]))
  }

  lemma OneMoreInTurn(p: Where, size: Item -> nat, first: Item, d: Declaration, from: nat,
                      others: seq<Item>, ds: seq<Declaration>, starts: seq<nat>)
    requires p(first, d, from) && InTurn(p, size, others, ds, starts, from + size(first))
    ensures InTurn(p, size, [first] + others, [d] + ds, [from] + starts, from)
  {
    var items', ds', starts' := [first] + others, [d] + ds, [from] + starts;
    forall k | 0 < k < |starts'| ensures starts'[k] == starts'[k - 1] + size(items'[k - 1]) {
      assert starts'[k] == starts[k - 1];
      if k > 1 {
        assert starts'[k - 1] == starts[k - 2] && items'[k - 1] == others[k - 2];
      }
    }
    forall k | 0 <= k < |starts'| ensures p(items'[k], ds'[k], starts'[k]) {
      if k > 0 {
        assert items'[k] == others[k - 1] && ds'[k] == ds[k - 1] && starts'[k] == starts[k - 1];
      }
    }
  }

  lemma BodySplits(items: seq<Item>, here: seq<Token>, rest: seq<Token>) returns (middle: seq<Token>)
    requires items != [] && Begins(here, BodyToEnd(items), rest)
    ensures Begins(here, ItemWords(items[0]), middle) && Begins(middle, BodyToEnd(items[1..]), rest)
    ensures |BodyToEnd(items)| <= |here| && |BodyToEnd(items[1..])| <= |middle| && |ItemWords(items[0])| <= |here|
    ensures DeclarationsOf(items, here) == [DeclarationFor(items[0], here)] + DeclarationsOf(items[1..], middle)
  {
    middle := BeginsInParts(here, ItemWords(items[0]), BodyToEnd(items[1..]), rest);
    BeginsCovers(here, ItemWords(items[0]), middle);
    BeginsCovers(middle, BodyToEnd(items[1..]), rest);
    BeginsCovers(here, BodyToEnd(items), rest);
  }

  ghost predicate IsDeclaredAt(p: Where, ts: seq<Token>) {
    forall item, d, at :: DeclaredAt(item, d, ts, at) ==> p(item, d, at)
  }

  lemma FirstHolds(p: Where, item: Item, ts: seq<Token>, from: nat, here: seq<Token>, rest: seq<Token>)
    requires IsDeclaredAt(p, ts) && from <= |ts| && here == ts[from..] && Begins(here, ItemWords(item), rest)
    ensures |ItemWords(item)| <= |here| && rest == ts[from + |ItemWords(item)|..]
    ensures p(item, DeclarationFor(item, here), from)
  {
    DeclaredFirst(item, ts, from, here, rest);
  }

  /** Each item is declared in its turn by the tokens it is spelled by. */
  lemma {:induction false} EachInTurn(p: Where, size: Item -> nat, items: seq<Item>, ts: seq<Token>, from: nat,
                                      here: seq<Token>, rest: seq<Token>)
    returns (ds: seq<Declaration>, starts: seq<nat>)
    requires IsDeclaredAt(p, ts) && (forall item :: size(item) == |ItemWords(item)|)
    requires from <= |ts| && here == ts[from..] && Begins(here, BodyToEnd(items), rest)
    ensures |BodyToEnd(items)| <= |here| && ds == DeclarationsOf(items, here) && InTurn(p, size, items, ds, starts, from)
    decreases |items|
  {
    if items == [] {
      BeginsCovers(here, BodyToEnd(items), rest);
      ds, starts := [], [];
    } else {
      var first, others := items[0], items[1..];
      var middle := BodySplits(items, here, rest);
      FirstHolds(p, first, ts, from, here, middle);
      var more, later := EachInTurn(p, size, others, ts, from + size(first), middle, rest);
      var d := DeclarationFor(first, here);
      OneMoreInTurn(p, size, first, d, from, others, more, later);
      ds, starts := [d] + more, [from] + later;
      assert items == [first] + others;
    }
  }

  /** The same, said of the tokens themselves. */
  lemma DeclaredInTurn(items: seq<Item>, ts: seq<Token>, from: nat, rest: seq<Token>)
    returns (ds: seq<Declaration>, starts: seq<nat>)
    requires from <= |ts| && Begins(ts[from..], BodyToEnd(items), rest)
    ensures |BodyToEnd(items)| <= |ts[from..]| && ds == DeclarationsOf(items, ts[from..])
    ensures |items| == |starts| && (starts != [] ==> starts[0] == from)
    ensures forall k :: 0 < k < |starts| ==> starts[k] == starts[k - 1] + |ItemWords(items[k - 1])|
    ensures forall k :: 0 <= k < |starts| ==> DeclaredAt(items[k], ds[k], ts, starts[k])
  {
    var p: Where := (item, d, at: nat) => DeclaredAt(item, d, ts, at);
    ds, starts := EachInTurn(p, item => |ItemWords(item)|, items, ts, from, ts[from..], rest);
    forall k | 0 <= k < |starts| ensures DeclaredAt(items[k], ds[k], ts, starts[k]) {
      assert p(items[k], ds[k], starts[k]);
    }
  }
}
