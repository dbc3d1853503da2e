/** The printer's signatures read back as the declarations they print. */
module LidlRoundTrip {
  import opened Wrappers
  import opened Sequences
  import opened LidlLexer
  import opened LidlParser

  // ── Type expressions ───────────────────────────────────────────────────────

  datatype TypeExpr = Named(name: string) | Optional(inner: TypeExpr) | ListOf(inner: TypeExpr) | MapOf(key: TypeExpr, val: TypeExpr)

  predicate ProperType(t: TypeExpr) {
    match t
    case Named(name) => IsIdent(name)
    case Optional(inner) => ProperType(inner)
    case ListOf(inner) => ProperType(inner)
    case MapOf(key, val) => ProperType(key) && ProperType(val)
  }

  /** The canonical string. */
  function Canon(t: TypeExpr): string {
    match t
    case Named(name) => name
    case Optional(inner) => "?" + Canon(inner)
    case ListOf(inner) => "[" + Canon(inner) + "]"
    case MapOf(key, val) => "{" + Canon(key) + ": " + Canon(val) + "}"
  }

  /** A token but for its line. */
  datatype Word = Word(kind: Kind, value: string)

  function Mark(c: char): Word {
    Word(Punct, [c])
  }

  function Spelling(t: TypeExpr): (words: seq<Word>)
    ensures words != []
  {
    match t
    case Named(name) => [Word(Ident, name)]
    case Optional(inner) => [Mark('?')] + Spelling(inner)
    case ListOf(inner) => [Mark('[')] + Spelling(inner) + [Mark(']')]
    case MapOf(key, val) => [Mark('{')] + Spelling(key) + [Mark(':')] + Spelling(val) + [Mark('}')]
  }

  function WordOf(t: Token): Word {
    Word(t.kind, t.value)
  }

  /** `ts` begins with `words`, and what follows is `rest`. */
  ghost predicate Begins(ts: seq<Token>, words: seq<Word>, rest: seq<Token>)
    decreases |words|
  {
    (words == [] && ts == rest) ||
    (words != [] && ts != [] && WordOf(ts[0]) == words[0] && Begins(ts[1..], words[1..], rest))
  }

  lemma BeginsWithOne(ts: seq<Token>, word: Word, words: seq<Word>, rest: seq<Token>)
    requires Begins(ts, [word] + words, rest)
    ensures ts != [] && WordOf(ts[0]) == word && Begins(ts[1..], words, rest)
  {
    assert ([word] + words)[1..] == words;
  }

  lemma {:induction false} BeginsInParts(ts: seq<Token>, a: seq<Word>, b: seq<Word>, rest: seq<Token>)
    returns (middle: seq<Token>)
    requires Begins(ts, a + b, rest)
    ensures Begins(ts, a, middle) && Begins(middle, b, rest)
    decreases |a|
  {
    if a == [] {
      assert a + b == b;
      middle := ts;
    } else {
      assert (a + b)[1..] == a[1..] + b;
      middle := BeginsInParts(ts[1..], a[1..], b, rest);
    }
  }

  lemma {:induction false} BeginsByParts(ts: seq<Token>, a: seq<Word>, middle: seq<Token>, b: seq<Word>, rest: seq<Token>)
    requires Begins(ts, a, middle) && Begins(middle, b, rest)
    ensures Begins(ts, a + b, rest)
    decreases |a|
  {
    if a == [] {
      assert a + b == b;
    } else {
      assert (a + b)[1..] == a[1..] + b;
      BeginsByParts(ts[1..], a[1..], middle, b, rest);
    }
  }

  lemma {:induction false} RestIsEnded(ts: seq<Token>, words: seq<Word>, rest: seq<Token>)
    requires Ended(ts) && Begins(ts, words, rest) && rest != []
    ensures Ended(rest)
    decreases |words|
  {
    if words != [] {
      SomethingBegins(ts[1..], words[1..], rest);
      RestIsEnded(ts[1..], words[1..], rest);
    }
  }

  lemma SomethingBegins(ts: seq<Token>, words: seq<Word>, rest: seq<Token>)
    requires Begins(ts, words, rest) && rest != []
    ensures ts != []
  {
  }

  // ── Spelled, then parsed ───────────────────────────────────────────────────

  /** Tokens that spell a type expression parse as its canonical string. */
  lemma {:induction false} SpelledTypeParses(ts: seq<Token>, t: TypeExpr, rest: seq<Token>)
    requires Ended(ts) && Ended(rest) && ProperType(t) && Begins(ts, Spelling(t), rest)
    ensures TypeExprOf(ts) == Ok((Canon(t), rest))
    decreases t
  {
    match t
    case Named(name) =>
      BeginsWithOne(ts, Word(Ident, name), [], rest);
    case Optional(inner) =>
      BeginsWithOne(ts, Mark('?'), Spelling(inner), rest);
      SpelledTypeParses(ts[1..], inner, rest);
    case ListOf(inner) =>
      Regroup([Mark('[')], Spelling(inner), [Mark(']')]);
      var close := OneThen(ts, Mark('['), Spelling(inner), [Mark(']')], rest);
      SpelledTypeParses(ts[1..], inner, close);
      BeginsWithOne(close, Mark(']'), [], rest);
    case MapOf(key, val) =>
      var colon, close := MapIsSpelled(ts, key, val, rest);
      SpelledTypeParses(ts[1..], key, colon);
      SpelledTypeParses(colon[1..], val, close);
      MapParses(ts, Canon(key), colon, Canon(val), close);
  }

  /** A map's five parts, each where the one before it ends. */
  lemma MapParses(ts: seq<Token>, key: string, colon: seq<Token>, val: string, close: seq<Token>)
    requires Ended(ts) && Ended(colon) && Ended(close)
    requires ts[0].kind == Punct && ts[0].value == "{" && TypeExprOf(ts[1..]) == Ok((key, colon))
    requires colon[0].kind == Punct && colon[0].value == ":" && TypeExprOf(colon[1..]) == Ok((val, close))
    requires close[0].kind == Punct && close[0].value == "}"
    ensures TypeExprOf(ts) == Ok(("{" + key + ": " + val + "}", close[1..]))
  {
    assert ExpectText(colon, Punct, ":") == Ok((colon[0], colon[1..]));
    assert ExpectText(close, Punct, "}") == Ok((close[0], close[1..]));
  }

  /** What begins with one word and more. */
  lemma OneThen(ts: seq<Token>, word: Word, words: seq<Word>, more: seq<Word>, rest: seq<Token>)
    returns (middle: seq<Token>)
    requires Ended(ts) && Begins(ts, [word] + (words + more), rest) && more != []
    ensures WordOf(ts[0]) == word && Ended(ts[1..])
    ensures Begins(ts[1..], words, middle) && Begins(middle, more, rest) && Ended(middle)
  {
    BeginsWithOne(ts, word, words + more, rest);
    middle := BeginsInParts(ts[1..], words, more, rest);
    SomethingBegins(ts[1..], words, middle);
    RestIsEnded(ts[1..], words, middle);
  }

  lemma MapIsSpelled(ts: seq<Token>, key: TypeExpr, val: TypeExpr, rest: seq<Token>)
    returns (colon: seq<Token>, close: seq<Token>)
    requires Ended(ts) && Begins(ts, Spelling(MapOf(key, val)), rest)
    ensures Ended(ts[1..]) && Ended(colon) && Ended(colon[1..]) && Ended(close)
    ensures WordOf(ts[0]) == Mark('{') && Begins(ts[1..], Spelling(key), colon)
    ensures WordOf(colon[0]) == Mark(':') && Begins(colon[1..], Spelling(val), close)
    ensures WordOf(close[0]) == Mark('}') && close[1..] == rest
  {
    MapRegroups(key, val);
    colon := OneThen(ts, Mark('{'), Spelling(key), [Mark(':')] + (Spelling(val) + [Mark('}')]), rest);
    close := OneThen(colon, Mark(':'), Spelling(val), [Mark('}')], rest);
    BeginsWithOne(close, Mark('}'), [], rest);
  }

  // ── Printed, then tokenized ────────────────────────────────────────────────

  /** What the tokenizer makes of `text` before `tail`: its words, all on one line. */
  function Placed(words: seq<Word>, line: nat): (ts: seq<Token>)
    ensures |ts| == |words|
  {
    seq(|words|, i requires 0 <= i < |words| => Token(words[i].kind, words[i].value, line))
  }

  ghost predicate Reads(text: string, words: seq<Word>, tail: string, line: nat) {
    Lex(text + tail, line) == Prepend(Placed(words, line), Lex(tail, line))
  }

  /** Nothing that would lengthen a name. */
  predicate EndsName(tail: string) {
    tail == "" || !IsIdentChar(tail[0])
  }

  lemma ReadsInTurn(a: string, aw: seq<Word>, b: string, bw: seq<Word>, tail: string, line: nat)
    requires Reads(a, aw, b + tail, line) && Reads(b, bw, tail, line)
    ensures Reads(a + b, aw + bw, tail, line)
  {
    Regroup(a, b, tail);
    assert Placed(aw + bw, line) == Placed(aw, line) + Placed(bw, line);
    var r := Lex(tail, line);
    if r.Ok? {
      Regroup(Placed(aw, line), Placed(bw, line), r.value);
    }
  }

  lemma {:induction false} IdentRunOf(s: string, tail: string)
    requires (forall i :: 0 <= i < |s| ==> IsIdentChar(s[i])) && EndsName(tail)
    ensures IdentRun(s + tail) == |s|
  {
    if s == [] {
      assert s + tail == tail;
    } else {
      assert (s + tail)[1..] == s[1..] + tail;
      IdentRunOf(s[1..], tail);
    }
  }

  /** One token at the start of what is read. */
  lemma ReadsOne(text: string, kind: Kind, tail: string, line: nat)
    requires text != "" && '\n' !in text && kind != Ws
    requires FirstLexeme(text + tail) == Some(Lexeme(kind, |text|))
    ensures Reads(text, [Word(kind, text)], tail, line)
  {
    CountNone(text, '\n');
    var s := text + tail;
    assert s[..|text|] == text && s[|text|..] == tail;
    assert Placed([Word(kind, text)], line) == [Token(kind, text, line)];
  }

  lemma ReadsName(name: string, tail: string, line: nat)
    requires IsIdent(name) && EndsName(tail)
    ensures Reads(name, [Word(Ident, name)], tail, line)
  {
    assert (name + tail)[1..] == name[1..] + tail;
    IdentRunOf(name[1..], tail);
    ReadsOne(name, Ident, tail, line);
  }

  lemma ReadsMark(c: char, tail: string, line: nat)
    requires IsPunct(c)
    ensures Reads([c], [Mark(c)], tail, line)
  {
    MarkComesFirst(c, tail);
    ReadsOne([c], Punct, tail, line);
  }

  lemma MarkComesFirst(c: char, tail: string)
    requires IsPunct(c)
    ensures FirstLexeme([c] + tail) == Some(Lexeme(Punct, 1)) && '\n' !in [c]
  {
  }

  lemma ReadsArrow(tail: string, line: nat)
    ensures Reads("->", [Word(Punct, "->")], tail, line)
  {
    assert FirstLexeme("->" + tail) == Some(Lexeme(Punct, 2));
    ReadsOne("->", Punct, tail, line);
  }

  lemma ReadsSpace(tail: string, line: nat)
    requires tail != "" && !IsSpace(tail[0])
    ensures Reads(" ", [], tail, line)
  {
    var s := " " + tail;
    assert s[1..] == tail;
    assert FirstLexeme(s) == Some(Lexeme(Ws, 1));
    CountNone(" ", '\n');
    assert s[..1] == " ";
    PrependNothing(Lex(tail, line));
    assert Placed([], line) == [];
  }

  lemma CanonStarts(t: TypeExpr)
    requires ProperType(t)
    ensures Canon(t) != "" && !IsSpace(Canon(t)[0])
  {
  }

  /** A canonical string reads as the spelling of its type. */
  lemma {:induction false} ReadsType(t: TypeExpr, tail: string, line: nat)
    requires ProperType(t) && EndsName(tail)
    ensures Reads(Canon(t), Spelling(t), tail, line)
    decreases t
  {
    match t
    case Named(name) => ReadsName(name, tail, line);
    case Optional(inner) =>
      ReadsType(inner, tail, line);
      ReadsMark('?', Canon(inner) + tail, line);
      ReadsInTurn("?", [Mark('?')], Canon(inner), Spelling(inner), tail, line);
    case ListOf(inner) =>
      ReadsMark(']', tail, line);
      ReadsType(inner, "]" + tail, line);
      ReadsInTurn(Canon(inner), Spelling(inner), "]", [Mark(']')], tail, line);
      ReadsMark('[', Canon(inner) + "]" + tail, line);
      ReadsInTurn("[", [Mark('[')], Canon(inner) + "]", Spelling(inner) + [Mark(']')], tail, line);
      Regroup("[", Canon(inner), "]");
      Regroup([Mark('[')], Spelling(inner), [Mark(']')]);
    case MapOf(key, val) => ReadsMap(key, val, tail, line);
  }

  /** A separator and the space after it. */
  lemma ReadsMarkAndSpace(c: char, tail: string, line: nat)
    requires IsPunct(c) && tail != "" && !IsSpace(tail[0])
    ensures Reads([c] + " ", [Mark(c)], tail, line)
  {
    ReadsSpace(tail, line);
    ReadsMark(c, " " + tail, line);
    ReadsInTurn([c], [Mark(c)], " ", [], tail, line);
    assert [Mark(c)] + [] == [Mark(c)];
  }

  lemma ReadsMapEnd(val: TypeExpr, tail: string, line: nat)
    requires ProperType(val) && Reads(Canon(val), Spelling(val), "}" + tail, line)
    ensures Reads(": " + (Canon(val) + "}"), [Mark(':')] + (Spelling(val) + [Mark('}')]), tail, line)
  {
    ReadsMark('}', tail, line);
    ReadsInTurn(Canon(val), Spelling(val), "}", [Mark('}')], tail, line);
    CanonStarts(val);
    ReadsMarkAndSpace(':', Canon(val) + "}" + tail, line);
    assert [':'] + " " == ": ";
    ReadsInTurn(": ", [Mark(':')], Canon(val) + "}", Spelling(val) + [Mark('}')], tail, line);
  }

  lemma {:induction false} ReadsMap(key: TypeExpr, val: TypeExpr, tail: string, line: nat)
    requires ProperType(key) && ProperType(val)
    ensures Reads(Canon(MapOf(key, val)), Spelling(MapOf(key, val)), tail, line)
    decreases MapOf(key, val), 0
  {
    ReadsType(val, "}" + tail, line);
    ReadsMapEnd(val, tail, line);
    var rest, restWords := ": " + (Canon(val) + "}"), [Mark(':')] + (Spelling(val) + [Mark('}')]);
    ReadsType(key, rest + tail, line);
    ReadsInTurn(Canon(key), Spelling(key), rest, restWords, tail, line);
    ReadsMark('{', Canon(key) + rest + tail, line);
    ReadsInTurn("{", [Mark('{')], Canon(key) + rest, Spelling(key) + restWords, tail, line);
    MapRegroups(key, val);
  }

  lemma MapRegroups(key: TypeExpr, val: TypeExpr)
    ensures Canon(MapOf(key, val)) == "{" + (Canon(key) + (": " + (Canon(val) + "}")))
    ensures Spelling(MapOf(key, val)) == [Mark('{')] + (Spelling(key) + ([Mark(':')] + (Spelling(val) + [Mark('}')])))
  {
  }

  /** The canonical string of a type is a fixed point: tokenized and parsed it is
      itself, with nothing left. */
  lemma CanonIsAFixedPoint(t: TypeExpr, line: nat)
    requires ProperType(t)
    ensures Lex(Canon(t), line).Ok? && Ended(Lex(Canon(t), line).value)
    ensures TypeExprOf(Lex(Canon(t), line).value) == Ok((Canon(t), [Token(Eof, "", line)]))
  {
    ReadsType(t, "", line);
    assert Canon(t) + "" == Canon(t);
    var eof := [Token(Eof, "", line)];
    var ts := Placed(Spelling(t), line) + eof;
    assert Lex(Canon(t), line) == Ok(ts);
    PlacedBegins(Spelling(t), line, eof);
    PlacedIsEnded(Spelling(t), line, eof);
    TypeHasNoEnd(t);
    SpelledTypeParses(ts, t, eof);
  }

  lemma {:induction false} PlacedBegins(words: seq<Word>, line: nat, rest: seq<Token>)
    ensures Begins(Placed(words, line) + rest, words, rest)
    decreases |words|
  {
    var ts := Placed(words, line) + rest;
    if words == [] {
      assert ts == rest;
    } else {
      assert ts[1..] == Placed(words[1..], line) + rest;
      PlacedBegins(words[1..], line, rest);
    }
  }

  predicate NoEnd(words: seq<Word>) {
    forall i :: 0 <= i < |words| ==> words[i].kind != Eof
  }

  lemma PlacedIsEnded(words: seq<Word>, line: nat, rest: seq<Token>)
    requires Ended(rest)
    ensures NoEnd(words) ==> Ended(Placed(words, line) + rest)
  {
  }

  lemma {:induction false} TypeHasNoEnd(t: TypeExpr)
    ensures NoEnd(Spelling(t))
  {
    match t
    case Named(_) =>
    case Optional(inner) => TypeHasNoEnd(inner);
    case ListOf(inner) => TypeHasNoEnd(inner);
    case MapOf(key, val) =>
      TypeHasNoEnd(key);
      TypeHasNoEnd(val);
  }

  // ── Declarations ───────────────────────────────────────────────────────────

  datatype TypedParam = TypedParam(name: string, t: TypeExpr)

  /** A method or an event with its types as expressions. */
  datatype Decl = Decl(name: string, params: seq<TypedParam>, rtype: Option<TypeExpr>)

  ghost predicate ProperParams(params: seq<TypedParam>) {
    forall p :: p in params ==> IsIdent(p.name) && ProperType(p.t)
  }

  ghost predicate ProperDecl(d: Decl) {
    IsIdent(d.name) && ProperParams(d.params) && (d.rtype.Some? ==> ProperType(d.rtype.value))
  }

  function Erased(params: seq<TypedParam>): (out: seq<Param>)
    ensures |out| == |params|
  {
    seq(|params|, i requires 0 <= i < |params| => Param(params[i].name, Canon(params[i].t)))
  }

  /** The declaration as the parser has it, its types as canonical strings. */
  function AsMethod(d: Decl, line: nat): Method {
    Method(d.name, line, Erased(d.params), if d.rtype.Some? then Some(Canon(d.rtype.value)) else None)
  }

  function AsEvent(d: Decl, line: nat): EventDecl {
    EventDecl(d.name, line, Erased(d.params))
  }

  /** The parameters joined by a comma and a space. */
  function ParamsText(params: seq<Param>): string {
    if params == [] then ""
    else
      var one := params[0].name + ": " + params[0].ptype;
      if |params| == 1 then one else one + (", " + ParamsText(params[1..]))
  }

  /** The printer: the result is shown when there is one and it is not empty. */
  function Signature(name: string, params: seq<Param>, rtype: Option<string>): string {
    var sig := name + "(" + ParamsText(params) + ")";
    if rtype.Some? && rtype.value != "" then sig + " -> " + rtype.value else sig
  }

  function ParamWords(p: TypedParam): seq<Word> {
    [Word(Ident, p.name)] + ([Mark(':')] + Spelling(p.t))
  }

  /** A parameter as it stands in a list, with or without a comma after it. */
  datatype Listed = Listed(p: TypedParam, comma: bool)

  function CommaWords(comma: bool): seq<Word> {
    if comma then [Mark(',')] else []
  }

  function ListWords(list: seq<Listed>): seq<Word> {
    if list == [] then [] else ParamWords(list[0].p) + (CommaWords(list[0].comma) + ListWords(list[1..]))
  }

  function Typed(list: seq<Listed>): (params: seq<TypedParam>)
    ensures |params| == |list|
  {
    seq(|list|, i requires 0 <= i < |list| => list[i].p)
  }

  /** The printer's list: a comma between parameters and none at the end. */
  function Separated(params: seq<TypedParam>): (list: seq<Listed>)
    ensures Typed(list) == params
  {
    if params == [] then [] else [Listed(params[0], |params| > 1)] + Separated(params[1..])
  }

  function ParamsWords(params: seq<TypedParam>): seq<Word> {
    ListWords(Separated(params))
  }

  lemma ListSplits(first: Listed, others: seq<Listed>)
    ensures ListWords([first] + others) == ParamWords(first.p) + (CommaWords(first.comma) + ListWords(others))
    ensures Typed([first] + others) == [first.p] + Typed(others)
  {
    assert ([first] + others)[1..] == others;
  }

  lemma ParamsSplit(params: seq<TypedParam>)
    requires params != []
    ensures |params| == 1 ==> ParamsWords(params) == ParamWords(params[0])
    ensures |params| > 1 ==> ParamsWords(params) == ParamWords(params[0]) + ([Mark(',')] + ParamsWords(params[1..]))
  {
    ListSplits(Listed(params[0], |params| > 1), Separated(params[1..]));
    assert |params| == 1 ==> ListWords(Separated(params[1..])) == [];
  }

  lemma ReadsParam(p: TypedParam, tail: string, line: nat)
    requires IsIdent(p.name) && ProperType(p.t) && EndsName(tail)
    ensures Reads(p.name + ": " + Canon(p.t), ParamWords(p), tail, line)
  {
    ReadsType(p.t, tail, line);
    CanonStarts(p.t);
    ReadsMarkAndSpace(':', Canon(p.t) + tail, line);
    assert [':'] + " " == ": ";
    ReadsInTurn(": ", [Mark(':')], Canon(p.t), Spelling(p.t), tail, line);
    ReadsName(p.name, ": " + Canon(p.t) + tail, line);
    ReadsInTurn(p.name, [Word(Ident, p.name)], ": " + Canon(p.t), [Mark(':')] + Spelling(p.t), tail, line);
    Regroup(p.name, ": ", Canon(p.t));
  }

  lemma ParamsTextStarts(params: seq<TypedParam>)
    requires ProperParams(params) && params != []
    ensures ParamsText(Erased(params)) != "" && IsIdentStart(ParamsText(Erased(params))[0])
  {
    assert params[0] in params;
  }

  /** A parameter list reads as its words, before anything that ends a name. */
  lemma {:induction false} ReadsParams(params: seq<TypedParam>, tail: string, line: nat)
    requires ProperParams(params) && EndsName(tail)
    ensures Reads(ParamsText(Erased(params)), ParamsWords(params), tail, line)
    decreases |params|
  {
    if params == [] {
      assert "" + tail == tail && Placed([], line) == [];
      PrependNothing(Lex(tail, line));
    } else {
      assert params[0] in params;
      var rest := params[1..];
      assert Erased(params)[1..] == Erased(rest);
      ParamsSplit(params);
      if rest == [] {
        ReadsParam(params[0], tail, line);
      } else {
        var one := params[0].name + ": " + Canon(params[0].t);
        var more := ParamsText(Erased(rest));
        ReadsParams(rest, tail, line);
        ParamsTextStarts(rest);
        ReadsMarkAndSpace(',', more + tail, line);
        assert [','] + " " == ", ";
        ReadsInTurn(", ", [Mark(',')], more, ParamsWords(rest), tail, line);
        ReadsParam(params[0], ", " + more + tail, line);
        ReadsInTurn(one, ParamWords(params[0]), ", " + more, [Mark(',')] + ParamsWords(rest), tail, line);
      }
    }
  }

  /** A parameter list up to its closing parenthesis. */
  function ListToEnd(list: seq<Listed>): (words: seq<Word>)
    ensures words != []
  {
    ListWords(list) + [Mark(')')]
  }

  /** A name with its parameters in parentheses. */
  function HeadWords(name: string, list: seq<Listed>): seq<Word> {
    [Word(Ident, name)] + ([Mark('(')] + ListToEnd(list))
  }

  lemma ReadsList(params: seq<TypedParam>, tail: string, line: nat)
    requires ProperParams(params)
    ensures Reads("(" + (ParamsText(Erased(params)) + ")"), [Mark('(')] + ListToEnd(Separated(params)), tail, line)
  {
    var inner := ParamsText(Erased(params));
    ReadsMark(')', tail, line);
    ReadsParams(params, ")" + tail, line);
    ReadsInTurn(inner, ParamsWords(params), ")", [Mark(')')], tail, line);
    ReadsMark('(', inner + ")" + tail, line);
    ReadsInTurn("(", [Mark('(')], inner + ")", ParamsWords(params) + [Mark(')')], tail, line);
  }

  lemma ReadsHead(d: Decl, tail: string, line: nat)
    requires ProperDecl(d)
    ensures Reads(d.name + "(" + ParamsText(Erased(d.params)) + ")", HeadWords(d.name, Separated(d.params)), tail, line)
  {
    var list := "(" + (ParamsText(Erased(d.params)) + ")");
    ReadsList(d.params, tail, line);
    ReadsName(d.name, list + tail, line);
    ReadsInTurn(d.name, [Word(Ident, d.name)], list, [Mark('(')] + ListToEnd(Separated(d.params)), tail, line);
    Regroup(d.name, "(", ParamsText(Erased(d.params)) + ")");
    Regroup(d.name + "(", ParamsText(Erased(d.params)), ")");
  }

  /** The keyword before a declaration and the space after it. */
  lemma ReadsKeyword(keyword: string, tail: string, line: nat)
    requires IsIdent(keyword) && tail != "" && IsIdentStart(tail[0])
    ensures Reads(keyword + " ", [Word(Ident, keyword)], tail, line)
  {
    ReadsSpace(tail, line);
    ReadsName(keyword, " " + tail, line);
    ReadsInTurn(keyword, [Word(Ident, keyword)], " ", [], tail, line);
    assert [Word(Ident, keyword)] + [] == [Word(Ident, keyword)];
  }

  /** A space before what a word begins changes nothing. */
  lemma ReadsSpaced(text: string, words: seq<Word>, tail: string, line: nat)
    requires text != "" && !IsSpace(text[0]) && Reads(text, words, tail, line)
    ensures Reads(" " + text, words, tail, line)
  {
    ReadsSpace(text + tail, line);
    ReadsInTurn(" ", [], text, words, tail, line);
    assert [] + words == words;
  }

  /** An arrow with its spaces, and the result. */
  lemma ReadsResult(t: TypeExpr, line: nat)
    requires ProperType(t)
    ensures Reads(" -> " + Canon(t), [Word(Punct, "->")] + Spelling(t), "", line)
  {
    var typed := " " + Canon(t);
    CanonStarts(t);
    ReadsType(t, "", line);
    ReadsSpaced(Canon(t), Spelling(t), "", line);
    ReadsArrow(typed + "", line);
    ReadsInTurn("->", [Word(Punct, "->")], typed, Spelling(t), "", line);
    ReadsSpaced("->" + typed, [Word(Punct, "->")] + Spelling(t), "", line);
    assert " " + ("->" + typed) == " -> " + Canon(t);
  }

  // ── Their words, parsed ────────────────────────────────────────────────────

  lemma SpelledParamParses(ts: seq<Token>, p: TypedParam, rest: seq<Token>)
    requires Ended(ts) && Ended(rest) && IsIdent(p.name) && ProperType(p.t) && Begins(ts, ParamWords(p), rest)
    ensures ParamOf(ts) == Ok((Param(p.name, Canon(p.t)), rest))
    ensures ts[0].value == p.name
  {
    BeginsWithOne(ts, Word(Ident, p.name), [Mark(':')] + Spelling(p.t), rest);
    SomethingBegins(ts[1..], [Mark(':')] + Spelling(p.t), rest);
    BeginsWithOne(ts[1..], Mark(':'), Spelling(p.t), rest);
    SomethingBegins(ts[1..][1..], Spelling(p.t), rest);
    SpelledTypeParses(ts[1..][1..], p.t, rest);
  }

  lemma NamesAreNotMarks(name: string, c: char)
    requires IsIdent(name) && IsPunct(c)
    ensures name != [c]
  {
  }

  /** The cursor past a comma if there is one, on words that begin with none. */
  lemma CommaAccepted(middle: seq<Token>, comma: bool, words: seq<Word>, rest: seq<Token>)
    requires Ended(middle) && rest != [] && Begins(middle, CommaWords(comma) + words, rest)
    requires words != [] && words[0].value != ","
    ensures Ended(Accepted(middle, ",")) && Begins(Accepted(middle, ","), words, rest)
  {
    if comma {
      BeginsWithOne(middle, Mark(','), words, rest);
      SomethingBegins(middle[1..], words, rest);
    } else {
      assert [] + words == words;
    }
  }

  lemma ListToEndSplits(first: Listed, others: seq<Listed>)
    ensures ListToEnd([first] + others) == ParamWords(first.p) + (CommaWords(first.comma) + ListToEnd(others))
  {
    ListSplits(first, others);
    var comma := CommaWords(first.comma);
    Regroup(ParamWords(first.p), comma + ListWords(others), [Mark(')')]);
    Regroup(comma, ListWords(others), [Mark(')')]);
  }

  lemma ListStarts(list: seq<Listed>)
    requires ProperParams(Typed(list))
    ensures ListToEnd(list)[0].value != ","
  {
    if list != [] {
      assert Typed(list)[0] in Typed(list);
      assert ListToEnd(list)[0] == Word(Ident, list[0].p.name);
      NamesAreNotMarks(list[0].p.name, ',');
    }
  }

  lemma {:induction false} SpelledListParses(ts: seq<Token>, list: seq<Listed>, rest: seq<Token>)
    requires Ended(ts) && Ended(rest) && ProperParams(Typed(list)) && Begins(ts, ListToEnd(list), rest)
    ensures ParamsTail(ts) == Ok((Erased(Typed(list)), rest))
    decreases |list|
  {
    if list == [] {
      assert ListToEnd(list) == [Mark(')')] + [];
      BeginsWithOne(ts, Mark(')'), [], rest);
    } else {
      var first, others := list[0], list[1..];
      assert list == [first] + others;
      ListSplits(first, others);
      ListToEndSplits(first, others);
      assert Typed(list)[0] in Typed(list) && forall p :: p in Typed(others) ==> p in Typed(list);
      ListStarts(others);
      var more := FirstListedParses(ts, first, ListToEnd(others), rest);
      SpelledListParses(more, others, rest);
      ErasedMore(first.p, Typed(others));
    }
  }

  lemma FirstListedParses(ts: seq<Token>, first: Listed, words: seq<Word>, rest: seq<Token>) returns (more: seq<Token>)
    requires Ended(ts) && Ended(rest) && IsIdent(first.p.name) && ProperType(first.p.t)
    requires Begins(ts, ParamWords(first.p) + (CommaWords(first.comma) + words), rest)
    requires words != [] && words[0].value != ","
    ensures Ended(more) && Begins(more, words, rest)
    ensures ParamsTail(ts) == Onto([Param(first.p.name, Canon(first.p.t))], ParamsTail(more))
  {
    var middle := BeginsInParts(ts, ParamWords(first.p), CommaWords(first.comma) + words, rest);
    SomethingBegins(middle, CommaWords(first.comma) + words, rest);
    RestIsEnded(ts, ParamWords(first.p), middle);
    SpelledParamParses(ts, first.p, middle);
    NamesAreNotMarks(first.p.name, ')');
    CommaAccepted(middle, first.comma, words, rest);
    more := Accepted(middle, ",");
  }

  /** A keyword, a name and a parameter list, up to `rest`. */
  lemma SpelledHeadParses(ts: seq<Token>, keyword: string, name: string, list: seq<Listed>, rest: seq<Token>)
    requires Ended(ts) && Ended(rest) && IsIdent(name) && ProperParams(Typed(list))
    requires Begins(ts, [Word(Ident, keyword)] + HeadWords(name, list), rest)
    ensures SignatureOf(ts, keyword) == Ok((((name, ts[0].line), Erased(Typed(list))), rest))
  {
    BeginsWithOne(ts, Word(Ident, keyword), HeadWords(name, list), rest);
    SomethingBegins(ts[1..], HeadWords(name, list), rest);
    BeginsWithOne(ts[1..], Word(Ident, name), [Mark('(')] + ListToEnd(list), rest);
    SomethingBegins(ts[1..][1..], [Mark('(')] + ListToEnd(list), rest);
    BeginsWithOne(ts[1..][1..], Mark('('), ListToEnd(list), rest);
    SomethingBegins(ts[1..][1..][1..], ListToEnd(list), rest);
    SpelledListParses(ts[1..][1..][1..], list, rest);
  }

  function ResultWords(rtype: Option<TypeExpr>): seq<Word> {
    if rtype.Some? then [Word(Punct, "->")] + Spelling(rtype.value) else []
  }

  lemma SpelledResultParses(middle: seq<Token>, rtype: Option<TypeExpr>, rest: seq<Token>)
    requires Ended(middle) && Ended(rest) && Begins(middle, ResultWords(rtype), rest)
    requires match rtype case Some(t) => ProperType(t) case None => rest[0].value != "->"
    ensures ResultOf(middle) == Ok((if rtype.Some? then Some(Canon(rtype.value)) else None, rest))
  {
    if rtype.Some? {
      BeginsWithOne(middle, Word(Punct, "->"), Spelling(rtype.value), rest);
      SomethingBegins(middle[1..], Spelling(rtype.value), rest);
      SpelledTypeParses(middle[1..], rtype.value, rest);
    }
  }

  lemma SpelledMethodParses(ts: seq<Token>, name: string, list: seq<Listed>, rtype: Option<TypeExpr>,
                            middle: seq<Token>, rest: seq<Token>)
    requires Ended(ts) && Ended(middle) && Ended(rest) && ProperDecl(Decl(name, Typed(list), rtype))
    requires Begins(ts, [Word(Ident, "method")] + HeadWords(name, list), middle)
    requires Begins(middle, ResultWords(rtype), rest) && (rtype.None? ==> rest[0].value != "->")
    ensures MethodOf(ts) == Ok((AsMethod(Decl(name, Typed(list), rtype), ts[0].line), rest))
  {
    SpelledHeadParses(ts, "method", name, list, middle);
    SpelledResultParses(middle, rtype, rest);
  }

  // ── Round trips ────────────────────────────────────────────────────────────

  lemma ReadsSignature(d: Decl, line: nat)
    requires ProperDecl(d)
    ensures Reads(Signature(d.name, Erased(d.params), AsMethod(d, line).rtype), HeadWords(d.name, Separated(d.params)) + ResultWords(d.rtype), "", line)
  {
    var head := d.name + "(" + ParamsText(Erased(d.params)) + ")";
    if d.rtype.Some? {
      CanonStarts(d.rtype.value);
      var result := " -> " + Canon(d.rtype.value);
      ReadsResult(d.rtype.value, line);
      ReadsHead(d, result + "", line);
      ReadsInTurn(head, HeadWords(d.name, Separated(d.params)), result, ResultWords(d.rtype), "", line);
      Regroup(head, " -> ", Canon(d.rtype.value));
    } else {
      ReadsHead(d, "", line);
      assert HeadWords(d.name, Separated(d.params)) + [] == HeadWords(d.name, Separated(d.params));
    }
  }

  /** The tokens of a keyword and a signature. */
  lemma SignatureTokens(keyword: string, d: Decl) returns (ts: seq<Token>, middle: seq<Token>, eof: seq<Token>)
    requires IsIdent(keyword) && ProperDecl(d)
    ensures Lex(keyword + " " + Signature(d.name, Erased(d.params), AsMethod(d, 1).rtype), 1) == Ok(ts)
    ensures Ended(ts) && Ended(middle) && eof == [Token(Eof, "", 1)] && ts[0].line == 1
    ensures Begins(ts, [Word(Ident, keyword)] + HeadWords(d.name, Separated(d.params)), middle) && Begins(middle, ResultWords(d.rtype), eof)
  {
    var sig := Signature(d.name, Erased(d.params), AsMethod(d, 1).rtype);
    var words := HeadWords(d.name, Separated(d.params)) + ResultWords(d.rtype);
    var first := [Word(Ident, keyword)];
    ReadsSignature(d, 1);
    SignatureStarts(d);
    ReadsKeyword(keyword, sig + "", 1);
    ReadsInTurn(keyword + " ", first, sig, words, "", 1);
    assert keyword + " " + sig + "" == keyword + " " + sig;
    eof := [Token(Eof, "", 1)];
    ts := Placed(first + words, 1) + eof;
    Regroup(first, HeadWords(d.name, Separated(d.params)), ResultWords(d.rtype));
    PlacedBegins(first + words, 1, eof);
    middle := BeginsInParts(ts, first + HeadWords(d.name, Separated(d.params)), ResultWords(d.rtype), eof);
    SignatureHasNoEnd(d);
    PlacedIsEnded(first + words, 1, eof);
    SomethingBegins(middle, ResultWords(d.rtype), eof);
    RestIsEnded(ts, first + HeadWords(d.name, Separated(d.params)), middle);
  }

  lemma SignatureStarts(d: Decl)
    requires ProperDecl(d)
    ensures var sig := Signature(d.name, Erased(d.params), AsMethod(d, 1).rtype); sig != "" && IsIdentStart(sig[0])
  {
  }

  lemma {:induction false} ListHasNoEnd(list: seq<Listed>)
    ensures NoEnd(ListWords(list))
  {
    if list != [] {
      TypeHasNoEnd(list[0].p.t);
      ListHasNoEnd(list[1..]);
    }
  }

  lemma SignatureHasNoEnd(d: Decl)
    ensures NoEnd(HeadWords(d.name, Separated(d.params)) + ResultWords(d.rtype))
  {
    ListHasNoEnd(Separated(d.params));
    if d.rtype.Some? {
      TypeHasNoEnd(d.rtype.value);
    }
  }

  /** For every method with proper names and types however deep: `method` and its
      signature, tokenized and parsed, is the same method, with nothing left. */
  lemma MethodRoundTrip(d: Decl)
    requires ProperDecl(d)
    ensures var m := AsMethod(d, 1);
            var r := Lex("method " + Signature(m.name, m.params, m.rtype), 1);
            && r.Ok? && Ended(r.value)
            && MethodOf(r.value) == Ok((m, [Token(Eof, "", 1)]))
  {
    var ts, middle, eof := SignatureTokens("method", d);
    SpelledMethodParses(ts, d.name, Separated(d.params), d.rtype, middle, eof);
    assert "method" + " " == "method ";
  }

  lemma EventRoundTrip(d: Decl)
    requires ProperDecl(d) && d.rtype.None?
    ensures var e := AsEvent(d, 1);
            var r := Lex("event " + Signature(e.name, e.params, None), 1);
            && r.Ok? && Ended(r.value)
            && EventOf(r.value) == Ok((e, [Token(Eof, "", 1)]))
  {
    var ts, middle, eof := SignatureTokens("event", d);
    SpelledHeadParses(ts, "event", d.name, Separated(d.params), middle);
    assert "event" + " " == "event ";
  }

  // ── Whatever was parsed round-trips ────────────────────────────────────────

  /** A token as the tokenizer makes it. */
  predicate ProperToken(t: Token) {
    match t.kind
    case Ident => IsIdent(t.value)
    case Str => t.value != "" && t.value[0] == '"'
    case Punct => t.value == "->" || (|t.value| == 1 && IsPunct(t.value[0]))
    case Eof => t.value == ""
    case Ws => false
  }

  /** What reads as a mark is one. */
  lemma MarkIsPunct(t: Token, c: char)
    requires ProperToken(t) && t.value == [c] && IsPunct(c)
    ensures WordOf(t) == Mark(c)
  {
  }

  ghost predicate Lexed(ts: seq<Token>) {
    forall i :: 0 <= i < |ts| ==> ProperToken(ts[i])
  }

  lemma LexemesAreProper(s: string, line: nat)
    requires s != [] && FirstLexeme(s).Some? && FirstLexeme(s).value.kind != Ws
    ensures var m := FirstLexeme(s).value; m.kind != Eof && ProperToken(Token(m.kind, s[..m.length], line))
  {
    var m := FirstLexeme(s).value;
    assert s[..m.length][0] == s[0];
    if m.kind == Ident {
      assert s[..m.length] == [s[0]] + s[1..][..m.length - 1];
    }
  }

  lemma {:induction false} TokensAreLexed(s: string, line: nat)
    ensures Lex(s, line).Ok? ==> Lexed(Lex(s, line).value) && Ended(Lex(s, line).value)
    decreases |s|
  {
    if s == [] || FirstLexeme(s).None? {
      LexStops(s, line);
    } else {
      var m := FirstLexeme(s).value;
      var rest := Lex(s[m.length..], line + Newlines(s[..m.length]));
      TokensAreLexed(s[m.length..], line + Newlines(s[..m.length]));
      if m.kind == Ws {
        PrependNothing(rest);
      } else {
        LexemesAreProper(s, line);
      }
    }
  }

  lemma TailIsLexed(ts: seq<Token>)
    requires ts != [] && Lexed(ts)
    ensures Lexed(ts[1..])
  {
  }

  lemma {:induction false} RestIsLexed(ts: seq<Token>, words: seq<Word>, rest: seq<Token>)
    requires Lexed(ts) && Begins(ts, words, rest)
    ensures Lexed(rest)
    decreases |words|
  {
    if words != [] {
      TailIsLexed(ts);
      RestIsLexed(ts[1..], words[1..], rest);
    }
  }

  lemma ParsedNameIsSpelled(ts: seq<Token>) returns (t: TypeExpr)
    requires Ended(ts) && Lexed(ts) && TypeExprOf(ts).Ok?
    requires ts[0].value != "?" && ts[0].value != "[" && ts[0].value != "{"
    ensures ProperType(t) && TypeExprOf(ts).value == (Canon(t), ts[1..])
    ensures Begins(ts, Spelling(t), ts[1..])
  {
    assert ProperToken(ts[0]);
    BeginsWith(ts, Word(Ident, ts[0].value), [], ts[1..]);
    t := Named(ts[0].value);
  }

  /** The marks of a parsed map, with its key and value parsed before each. */
  lemma MapIsParsed(ts: seq<Token>) returns (colon: seq<Token>, close: seq<Token>)
    requires Ended(ts) && Lexed(ts) && ts[0].value == "{" && TypeExprOf(ts).Ok?
    ensures Ended(ts[1..]) && Ended(colon) && Ended(colon[1..]) && Ended(close) && WordOf(ts[0]) == Mark('{')
    ensures TypeExprOf(ts[1..]).Ok? && TypeExprOf(ts[1..]).value.1 == colon && WordOf(colon[0]) == Mark(':')
    ensures TypeExprOf(colon[1..]).Ok? && TypeExprOf(colon[1..]).value.1 == close && WordOf(close[0]) == Mark('}')
    ensures TypeExprOf(ts).value ==
              ("{" + TypeExprOf(ts[1..]).value.0 + ": " + TypeExprOf(colon[1..]).value.0 + "}", close[1..])
  {
    MarkIsPunct(ts[0], '{');
    colon := TypeExprOf(ts[1..]).value.1;
    close := TypeExprOf(colon[1..]).value.1;
  }

  lemma BeginsWith(ts: seq<Token>, word: Word, words: seq<Word>, rest: seq<Token>)
    requires ts != [] && WordOf(ts[0]) == word && Begins(ts[1..], words, rest)
    ensures Begins(ts, [word] + words, rest)
  {
    assert ([word] + words)[1..] == words;
  }

  lemma Enclosed(ts: seq<Token>, open: Word, words: seq<Word>, close: seq<Token>, shut: Word)
    requires ts != [] && WordOf(ts[0]) == open && Begins(ts[1..], words, close)
    requires close != [] && WordOf(close[0]) == shut
    ensures Begins(ts, [open] + words + [shut], close[1..])
  {
    BeginsWith(close, shut, [], close[1..]);
    BeginsByParts(ts[1..], words, close, [shut], close[1..]);
    BeginsWith(ts, open, words + [shut], close[1..]);
    Regroup([open], words, [shut]);
  }

  /** Two enclosed spellings with a word between them. */
  lemma EnclosedPair(ts: seq<Token>, open: Word, a: seq<Word>, middle: seq<Token>, between: Word, b: seq<Word>,
                     close: seq<Token>, shut: Word)
    requires ts != [] && WordOf(ts[0]) == open && Begins(ts[1..], a, middle)
    requires middle != [] && WordOf(middle[0]) == between && Begins(middle[1..], b, close)
    requires close != [] && WordOf(close[0]) == shut
    ensures Begins(ts, [open] + (a + ([between] + (b + [shut]))), close[1..])
  {
    var rest := close[1..];
    BeginsWith(close, shut, [], rest);
    BeginsByParts(middle[1..], b, close, [shut], rest);
    BeginsWith(middle, between, b + [shut], rest);
    BeginsByParts(ts[1..], a, middle, [between] + (b + [shut]), rest);
    BeginsWith(ts, open, a + ([between] + (b + [shut])), rest);
  }

  lemma OptionalIsParsed(ts: seq<Token>)
    requires Ended(ts) && Lexed(ts) && ts[0].value == "?" && TypeExprOf(ts).Ok?
    ensures Ended(ts[1..]) && TypeExprOf(ts[1..]).Ok? && WordOf(ts[0]) == Mark('?')
    ensures TypeExprOf(ts).value == ("?" + TypeExprOf(ts[1..]).value.0, TypeExprOf(ts[1..]).value.1)
  {
    MarkIsPunct(ts[0], '?');
  }

  lemma ListIsParsed(ts: seq<Token>) returns (close: seq<Token>)
    requires Ended(ts) && Lexed(ts) && ts[0].value == "[" && TypeExprOf(ts).Ok?
    ensures Ended(ts[1..]) && TypeExprOf(ts[1..]).Ok? && close == TypeExprOf(ts[1..]).value.1 && close != []
    ensures WordOf(ts[0]) == Mark('[') && WordOf(close[0]) == Mark(']')
    ensures TypeExprOf(ts).value == ("[" + TypeExprOf(ts[1..]).value.0 + "]", close[1..])
  {
    MarkIsPunct(ts[0], '[');
    close := TypeExprOf(ts[1..]).value.1;
  }

  /** What the parser reads as a type expression is one, spelled at the cursor, and
      what it returns is its canonical string. */
  lemma {:induction false} ParsedTypeIsSpelled(ts: seq<Token>) returns (t: TypeExpr)
    requires Ended(ts) && Lexed(ts) && TypeExprOf(ts).Ok?
    ensures ProperType(t) && Canon(t) == TypeExprOf(ts).value.0
    ensures Begins(ts, Spelling(t), TypeExprOf(ts).value.1)
    decreases |ts|
  {
    var first := ts[0].value;
    TailIsLexed(ts);
    if first == "?" {
      OptionalIsParsed(ts);
      t := ParsedTypeIsSpelled(ts[1..]);
      BeginsWith(ts, Mark('?'), Spelling(t), TypeExprOf(ts).value.1);
      t := Optional(t);
    } else if first == "[" {
      var close := ListIsParsed(ts);
      t := ParsedTypeIsSpelled(ts[1..]);
      Enclosed(ts, Mark('['), Spelling(t), close, Mark(']'));
      t := ListOf(t);
    } else if first == "{" {
      var colon, close := MapIsParsed(ts);
      var key := ParsedTypeIsSpelled(ts[1..]);
      RestIsLexed(ts[1..], Spelling(key), colon);
      TailIsLexed(colon);
      var val := ParsedTypeIsSpelled(colon[1..]);
      EnclosedPair(ts, Mark('{'), Spelling(key), colon, Mark(':'), Spelling(val), close, Mark('}'));
      MapRegroups(key, val);
      t := MapOf(key, val);
    } else {
      t := ParsedNameIsSpelled(ts);
    }
  }

  ghost predicate SpellsType(ts: seq<Token>, t: TypeExpr, rest: seq<Token>) {
    ProperType(t) && rest != [] && Begins(ts, Spelling(t), rest)
  }

  lemma WhatIsSpelledIsAccepted(ts: seq<Token>, t: TypeExpr, rest: seq<Token>)
    requires Ended(ts) && SpellsType(ts, t, rest)
    ensures TypeExprOf(ts).Ok?
  {
    RestIsEnded(ts, Spelling(t), rest);
    SpelledTypeParses(ts, t, rest);
  }

  /** The parser accepts exactly the spellings of type expressions. */
  lemma TypeExprsAreExactlyTheGrammar(ts: seq<Token>)
    requires Ended(ts) && Lexed(ts)
    ensures TypeExprOf(ts).Ok? <==> exists t, rest :: SpellsType(ts, t, rest)
  {
    if TypeExprOf(ts).Ok? {
      var t := ParsedTypeIsSpelled(ts);
      assert SpellsType(ts, t, TypeExprOf(ts).value.1);
    } else {
      forall t, rest | SpellsType(ts, t, rest) ensures false {
        WhatIsSpelledIsAccepted(ts, t, rest);
      }
    }
  }

  lemma ParsedNamedTypeIsSpelled(ts: seq<Token>) returns (p: TypedParam)
    requires Ended(ts) && Lexed(ts) && NamedTypeOf(ts).Ok?
    ensures IsIdent(p.name) && ProperType(p.t) && p.name == ts[0].value
    ensures NamedTypeOf(ts).value.0 == (ts[0], Canon(p.t))
    ensures Begins(ts, ParamWords(p), NamedTypeOf(ts).value.1)
  {
    var rest := NamedTypeOf(ts).value.1;
    assert ProperToken(ts[0]);
    var t := ParsedTypeIsSpelled(ts[1..][1..]);
    BeginsWith(ts[1..], Mark(':'), Spelling(t), rest);
    BeginsWith(ts, Word(Ident, ts[0].value), [Mark(':')] + Spelling(t), rest);
    p := TypedParam(ts[0].value, t);
  }

  lemma ParamsTailStep(ts: seq<Token>)
    requires Ended(ts) && ts[0].value != ")" && ParamsTail(ts).Ok?
    ensures NamedTypeOf(ts).Ok? && ParamOf(ts).Ok? && ParamOf(ts).value.1 == NamedTypeOf(ts).value.1
    ensures ParamOf(ts).value.0 == Param(NamedTypeOf(ts).value.0.0.value, NamedTypeOf(ts).value.0.1)
    ensures var tail := ParamsTail(Accepted(ParamOf(ts).value.1, ","));
            tail.Ok? && ParamsTail(ts).value == ([ParamOf(ts).value.0] + tail.value.0, tail.value.1)
  {
  }

  /** The comma that was or was not accepted, and what comes after it. */
  lemma CommaSpelled(middle: seq<Token>, words: seq<Word>, rest: seq<Token>) returns (comma: bool)
    requires Ended(middle) && Lexed(middle) && Begins(Accepted(middle, ","), words, rest)
    ensures Begins(middle, CommaWords(comma) + words, rest)
  {
    comma := middle[0].value == ",";
    if comma {
      MarkIsPunct(middle[0], ',');
      BeginsWith(middle, Mark(','), words, rest);
    } else {
      assert [] + words == words;
    }
  }

  lemma AcceptedIsLexed(ts: seq<Token>, value: string)
    requires Ended(ts) && Lexed(ts) && value != ""
    ensures Lexed(Accepted(ts, value))
  {
  }

  lemma ErasedMore(p: TypedParam, others: seq<TypedParam>)
    requires IsIdent(p.name) && ProperType(p.t) && ProperParams(others)
    ensures Erased([p] + others) == [Param(p.name, Canon(p.t))] + Erased(others) && ProperParams([p] + others)
  {
  }

  lemma {:induction false} ParsedListIsSpelled(ts: seq<Token>) returns (list: seq<Listed>)
    requires Ended(ts) && Lexed(ts) && ParamsTail(ts).Ok?
    ensures ProperParams(Typed(list)) && ParamsTail(ts).value.0 == Erased(Typed(list))
    ensures Begins(ts, ListToEnd(list), ParamsTail(ts).value.1)
    decreases |ts|
  {
    var rest := ParamsTail(ts).value.1;
    if ts[0].value == ")" {
      MarkIsPunct(ts[0], ')');
      list := [];
      BeginsWith(ts, Mark(')'), [], rest);
      assert ListToEnd(list) == [Mark(')')] + [];
    } else {
      ParamsTailStep(ts);
      var p := ParsedNamedTypeIsSpelled(ts);
      var middle := NamedTypeOf(ts).value.1;
      RestIsLexed(ts, ParamWords(p), middle);
      AcceptedIsLexed(middle, ",");
      var others := ParsedListIsSpelled(Accepted(middle, ","));
      var comma := CommaSpelled(middle, ListToEnd(others), rest);
      BeginsByParts(ts, ParamWords(p), middle, CommaWords(comma) + ListToEnd(others), rest);
      list := [Listed(p, comma)] + others;
      ListSplits(Listed(p, comma), others);
      ListToEndSplits(Listed(p, comma), others);
      ErasedMore(p, Typed(others));
    }
  }

  /** A parsed signature: a proper name and parameters, spelled after the keyword. */
  lemma ParsedHeadIsSpelled(ts: seq<Token>, keyword: string) returns (name: string, list: seq<Listed>)
    requires Ended(ts) && Lexed(ts) && SignatureOf(ts, keyword).Ok?
    ensures IsIdent(name) && ProperParams(Typed(list))
    ensures SignatureOf(ts, keyword).value.0 == ((name, ts[0].line), Erased(Typed(list)))
    ensures Begins(ts, [Word(Ident, keyword)] + HeadWords(name, list), SignatureOf(ts, keyword).value.1)
  {
    var rest := SignatureOf(ts, keyword).value.1;
    assert ProperToken(ts[1]);
    name := ts[1].value;
    list := ParsedListIsSpelled(ts[1..][1..][1..]);
    BeginsWith(ts[1..][1..], Mark('('), ListToEnd(list), rest);
    BeginsWith(ts[1..], Word(Ident, name), [Mark('(')] + ListToEnd(list), rest);
    BeginsWith(ts, Word(Ident, keyword), HeadWords(name, list), rest);
  }

  lemma ParsedResultIsSpelled(ts: seq<Token>) returns (rtype: Option<TypeExpr>)
    requires Ended(ts) && Lexed(ts) && ResultOf(ts).Ok?
    ensures rtype.Some? ==> ProperType(rtype.value)
    ensures ResultOf(ts).value.0 == if rtype.Some? then Some(Canon(rtype.value)) else None
    ensures Begins(ts, ResultWords(rtype), ResultOf(ts).value.1)
    ensures rtype.None? ==> ts[0].value != "->"
  {
    if ts[0].value != "->" {
      return None;
    }
    assert ProperToken(ts[0]);
    var t := ParsedTypeIsSpelled(ts[1..]);
    BeginsWith(ts, Word(Punct, "->"), Spelling(t), ResultOf(ts).value.1);
    rtype := Some(t);
  }

  lemma ParsedMethodIsTyped(ts: seq<Token>) returns (d: Decl)
    requires Ended(ts) && Lexed(ts) && MethodOf(ts).Ok?
    ensures ProperDecl(d) && AsMethod(d, ts[0].line) == MethodOf(ts).value.0
  {
    var name, list := ParsedHeadIsSpelled(ts, "method");
    var middle := SignatureOf(ts, "method").value.1;
    RestIsLexed(ts, [Word(Ident, "method")] + HeadWords(name, list), middle);
    var rtype := ParsedResultIsSpelled(middle);
    d := Decl(name, Typed(list), rtype);
  }

  /** The method a source's tokens declare prints to a signature that reads back as
      it: parsing after printing changes nothing, whatever was parsed. */
  lemma ParsedMethodRoundTrips(ts: seq<Token>)
    requires Ended(ts) && Lexed(ts) && MethodOf(ts).Ok?
    ensures var m := MethodOf(ts).value.0;
            var r := Lex("method " + Signature(m.name, m.params, m.rtype), 1);
            && r.Ok? && Ended(r.value)
            && MethodOf(r.value) == Ok((m.(line := 1), [Token(Eof, "", 1)]))
  {
    var d := ParsedMethodIsTyped(ts);
    MethodRoundTrip(d);
  }

  /** The same for events. */
  lemma ParsedEventRoundTrips(ts: seq<Token>)
    requires Ended(ts) && Lexed(ts) && EventOf(ts).Ok?
    ensures var e := EventOf(ts).value.0;
            var r := Lex("event " + Signature(e.name, e.params, None), 1);
            && r.Ok? && Ended(r.value)
            && EventOf(r.value) == Ok((e.(line := 1), [Token(Eof, "", 1)]))
  {
    var name, list := ParsedHeadIsSpelled(ts, "event");
    EventRoundTrip(Decl(name, Typed(list), None));
  }
}
