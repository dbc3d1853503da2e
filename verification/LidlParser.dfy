/** From tokens to declarations: the recursive-descent parser over its cursor,
    against the grammar it reads. */
module LidlParser {
  import opened Wrappers
  import opened LidlLexer

  datatype Param = Param(name: string, ptype: string)
  datatype Method = Method(name: string, line: nat, params: seq<Param>, rtype: Option<string>)
  datatype EventDecl = EventDecl(name: string, line: nat, params: seq<Param>)
  datatype Field = Field(name: string, ftype: string, optional: bool, line: nat)
  datatype Record = Record(name: string, line: nat, fields: seq<Field>)
  datatype Module = Module(name: string, line: nat, types: seq<Record>, methods: seq<Method>, events: seq<EventDecl>)

  /** Tokens that end in their only end of input, which has no text. */
  ghost predicate Ended(ts: seq<Token>) {
    && ts != []
    && ts[|ts| - 1].kind == Eof && ts[|ts| - 1].value == ""
    && forall i :: 0 <= i < |ts| - 1 ==> ts[i].kind != Eof
  }

  /** A parse: what was read and the tokens after it, or an error. */
  type Parse<T> = Result<(T, seq<Token>), LidlError>

  /** A parse that succeeds has consumed a token and left the end of input. */
  ghost predicate Proper<T>(r: Parse<T>, ts: seq<Token>) {
    r.Ok? ==> |r.value.1| < |ts| && Ended(r.value.1)
  }

  // ── The grammar as functions on what is left ───────────────────────────────

  function ExpectKind(ts: seq<Token>, kind: Kind): (r: Parse<Token>)
    requires Ended(ts) && kind != Eof
    ensures Proper(r, ts)
  {
    if ts[0].kind != kind then Err(ExpectedKind(ts[0].line, kind, ts[0].value)) else Ok((ts[0], ts[1..]))
  }

  function ExpectText(ts: seq<Token>, kind: Kind, want: string): (r: Parse<Token>)
    requires Ended(ts) && kind != Eof
    ensures Proper(r, ts)
  {
    if ts[0].kind != kind || ts[0].value != want then Err(Expected(ts[0].line, want, ts[0].value))
    else Ok((ts[0], ts[1..]))
  }

  /** The tokens after `value`, if it comes next. */
  function Accepted(ts: seq<Token>, value: string): (rest: seq<Token>)
    requires Ended(ts) && value != ""
    ensures Ended(rest) && |rest| <= |ts|
    ensures ts[0].value == value ==> |rest| < |ts|
  {
    if ts[0].value == value then ts[1..] else ts
  }

  /** The canonical string of a type expression. */
  function TypeExprOf(ts: seq<Token>): (r: Parse<string>)
    requires Ended(ts)
    ensures Proper(r, ts)
    decreases |ts|
  {
    var t := ts[0];
    if t.value == "?" then
      match TypeExprOf(ts[1..])
      case Err(e) => Err(e)
      case Ok((inner, rest)) => Ok(("?" + inner, rest))
    else if t.value == "[" then
      match TypeExprOf(ts[1..])
      case Err(e) => Err(e)
      case Ok((inner, rest)) =>
        match ExpectText(rest, Punct, "]")
        case Err(e) => Err(e)
        case Ok((_, rest)) => Ok(("[" + inner + "]", rest))
    else if t.value == "{" then
      match TypeExprOf(ts[1..])
      case Err(e) => Err(e)
      case Ok((key, rest)) =>
        match ExpectText(rest, Punct, ":")
        case Err(e) => Err(e)
        case Ok((_, rest)) =>
          match TypeExprOf(rest)
          case Err(e) => Err(e)
          case Ok((val, rest)) =>
            match ExpectText(rest, Punct, "}")
            case Err(e) => Err(e)
            case Ok((_, rest)) => Ok(("{" + key + ": " + val + "}", rest))
    else if t.kind == Ident then Ok((t.value, ts[1..]))
    else Err(ExpectedType(t.line, t.value))
  }

  /** A name, a colon and a type expression. */
  function NamedTypeOf(ts: seq<Token>): (r: Parse<(Token, string)>)
    requires Ended(ts)
    ensures Proper(r, ts)
  {
    match ExpectKind(ts, Ident)
    case Err(e) => Err(e)
    case Ok((name, rest)) =>
      match ExpectText(rest, Punct, ":")
      case Err(e) => Err(e)
      case Ok((_, rest)) =>
        match TypeExprOf(rest)
        case Err(e) => Err(e)
        case Ok((typed, rest)) => Ok(((name, typed), rest))
  }

  function ParamOf(ts: seq<Token>): (r: Parse<Param>)
    requires Ended(ts)
    ensures Proper(r, ts)
  {
    match NamedTypeOf(ts)
    case Err(e) => Err(e)
    case Ok((named, rest)) => Ok((Param(named.0.value, named.1), rest))
  }

  /** A list read so far with the parse of its tail. */
  function Onto<T>(done: seq<T>, tail: Parse<seq<T>>): Parse<seq<T>> {
    match tail
    case Err(e) => Err(e)
    case Ok((more, rest)) => Ok((done + more, rest))
  }

  /** Parameters up to the closing parenthesis, a comma after each optional. */
  function ParamsTail(ts: seq<Token>): (r: Parse<seq<Param>>)
    requires Ended(ts)
    ensures Proper(r, ts)
    decreases |ts|
  {
    if ts[0].value == ")" then Ok(([], ts[1..]))
    else match ParamOf(ts)
      case Err(e) => Err(e)
      case Ok((param, rest)) =>
        Onto([param], ParamsTail(Accepted(rest, ",")))
  }

  function ParamsOf(ts: seq<Token>): (r: Parse<seq<Param>>)
    requires Ended(ts)
    ensures Proper(r, ts)
  {
    match ExpectText(ts, Punct, "(")
    case Err(e) => Err(e)
    case Ok((_, rest)) => ParamsTail(rest)
  }

  /** A keyword and the name it declares. */
  function HeadOf(ts: seq<Token>, keyword: string): (r: Parse<(string, nat)>)
    requires Ended(ts)
    ensures Proper(r, ts)
  {
    match ExpectText(ts, Ident, keyword)
    case Err(e) => Err(e)
    case Ok((first, rest)) =>
      match ExpectKind(rest, Ident)
      case Err(e) => Err(e)
      case Ok((name, rest)) => Ok(((name.value, first.line), rest))
  }

  /** A name with its parameters, as methods and events have them. */
  function SignatureOf(ts: seq<Token>, keyword: string): (r: Parse<((string, nat), seq<Param>)>)
    requires Ended(ts)
    ensures Proper(r, ts)
  {
    match HeadOf(ts, keyword)
    case Err(e) => Err(e)
    case Ok((head, rest)) =>
      match ParamsOf(rest)
      case Err(e) => Err(e)
      case Ok((params, rest)) => Ok(((head, params), rest))
  }

  /** An arrow and a type expression, or nothing. */
  function ResultOf(ts: seq<Token>): (r: Parse<Option<string>>)
    requires Ended(ts)
    ensures r.Ok? ==> |r.value.1| <= |ts| && Ended(r.value.1)
  {
    if ts[0].value != "->" then Ok((None, ts))
    else match TypeExprOf(ts[1..])
      case Err(e) => Err(e)
      case Ok((rtype, rest)) => Ok((Some(rtype), rest))
  }

  function MethodOf(ts: seq<Token>): (r: Parse<Method>)
    requires Ended(ts)
    ensures Proper(r, ts)
  {
    match SignatureOf(ts, "method")
    case Err(e) => Err(e)
    case Ok(((head, params), rest)) =>
      match ResultOf(rest)
      case Err(e) => Err(e)
      case Ok((rtype, rest)) => Ok((Method(head.0, head.1, params, rtype), rest))
  }

  function EventOf(ts: seq<Token>): (r: Parse<EventDecl>)
    requires Ended(ts)
    ensures Proper(r, ts)
  {
    match SignatureOf(ts, "event")
    case Err(e) => Err(e)
    case Ok(((head, params), rest)) => Ok((EventDecl(head.0, head.1, params), rest))
  }

  function FieldOf(ts: seq<Token>): (r: Parse<Field>)
    requires Ended(ts)
    ensures Proper(r, ts)
  {
    var optional := ts[0].value == "?";
    match NamedTypeOf(Accepted(ts, "?"))
    case Err(e) => Err(e)
    case Ok((named, rest)) =>
      Ok((Field(named.0.value, named.1, optional || "?" <= named.1, named.0.line), rest))
  }

  function FieldsTail(ts: seq<Token>): (r: Parse<seq<Field>>)
    requires Ended(ts)
    ensures Proper(r, ts)
    decreases |ts|
  {
    if ts[0].value == "}" then Ok(([], ts[1..]))
    else match FieldOf(ts)
      case Err(e) => Err(e)
      case Ok((field, rest)) =>
        Onto([field], FieldsTail(rest))
  }

  function RecordOf(ts: seq<Token>): (r: Parse<Record>)
    requires Ended(ts)
    ensures Proper(r, ts)
  {
    match HeadOf(ts, "type")
    case Err(e) => Err(e)
    case Ok((head, rest)) =>
      match ExpectText(rest, Punct, "{")
      case Err(e) => Err(e)
      case Ok((_, rest)) =>
        match FieldsTail(rest)
        case Err(e) => Err(e)
        case Ok((fields, rest)) => Ok((Record(head.0, head.1, fields), rest))
  }

  /** A dependency list's names up to its closing bracket, commas optional. */
  function NamesTail(ts: seq<Token>): (r: Parse<()>)
    requires Ended(ts)
    ensures Proper(r, ts)
    decreases |ts|
  {
    if ts[0].value == "]" then Ok(((), ts[1..]))
    else match ExpectKind(ts, Ident)
      case Err(e) => Err(e)
      case Ok((_, rest)) => NamesTail(Accepted(rest, ","))
  }

  lemma OntoNothing<T>(tail: Parse<seq<T>>)
    ensures Onto([], tail) == tail
  {
    if tail.Ok? {
      assert [] + tail.value.0 == tail.value.0;
    }
  }

  lemma OntoOne<T>(done: seq<T>, one: T, tail: Parse<seq<T>>)
    ensures Onto(done, Onto([one], tail)) == Onto(done + [one], tail)
  {
    if tail.Ok? {
      assert done + ([one] + tail.value.0) == (done + [one]) + tail.value.0;
    }
  }

  lemma OntoEnd<T>(done: seq<T>, rest: seq<Token>)
    ensures Onto(done, Ok(([], rest))) == Ok((done, rest))
  {
    assert done + [] == done;
  }

  /** One turn of the parameter loop: the list is over, a parameter fails, or it
      is one parameter longer. */
  lemma ParamsTurn(whole: Parse<seq<Param>>, done: seq<Param>, ts: seq<Token>)
    requires Ended(ts) && whole == Onto(done, ParamsTail(ts))
    ensures ts[0].value == ")" ==> whole == Ok((done, ts[1..]))
    ensures ts[0].value != ")" ==>
              match ParamOf(ts)
              case Err(e) => whole == Err(e)
              case Ok((p, rest)) => whole == Onto(done + [p], ParamsTail(Accepted(rest, ",")))
  {
    if ts[0].value == ")" {
      OntoEnd(done, ts[1..]);
    } else if ParamOf(ts).Ok? {
      OntoOne(done, ParamOf(ts).value.0, ParamsTail(Accepted(ParamOf(ts).value.1, ",")));
    }
  }

  lemma FieldsTurn(whole: Parse<seq<Field>>, done: seq<Field>, ts: seq<Token>)
    requires Ended(ts) && whole == Onto(done, FieldsTail(ts))
    ensures ts[0].value == "}" ==> whole == Ok((done, ts[1..]))
    ensures ts[0].value != "}" ==>
              match FieldOf(ts)
              case Err(e) => whole == Err(e)
              case Ok((f, rest)) => whole == Onto(done + [f], FieldsTail(rest))
  {
    if ts[0].value == "}" {
      OntoEnd(done, ts[1..]);
    } else if FieldOf(ts).Ok? {
      OntoOne(done, FieldOf(ts).value.0, FieldsTail(FieldOf(ts).value.1));
    }
  }

  datatype Declaration = Attribute | RecordDecl(r: Record) | MethodDecl(m: Method) | Event(e: EventDecl)

  function Added(m: Module, d: Declaration): Module {
    match d
    case Attribute => m
    case RecordDecl(r) => m.(types := m.types + [r])
    case MethodDecl(d) => m.(methods := m.methods + [d])
    case Event(e) => m.(events := m.events + [e])
  }

  function Mapped<A, B>(r: Parse<A>, f: A -> B): Parse<B> {
    match r
    case Err(e) => Err(e)
    case Ok((a, rest)) => Ok((f(a), rest))
  }

  /** One declaration of a module body that is neither over nor at the end of input. */
  function DeclarationOf(ts: seq<Token>): (r: Parse<Declaration>)
    requires Ended(ts)
    ensures Proper(r, ts)
  {
    var t := ts[0];
    if t.kind == Eof then Err(UnclosedModule)
    else if t.value == "version" || t.value == "description" || t.value == "category" then
      Mapped(ExpectKind(ts[1..], Str), (_: Token) => Attribute)
    else if t.value == "depends" || t.value == "optional_depends" then
      match ExpectText(ts[1..], Punct, "[")
      case Err(e) => Err(e)
      case Ok((_, rest)) => Mapped(NamesTail(rest), (_: ()) => Attribute)
    else if t.value == "type" then Mapped(RecordOf(ts), (r: Record) => RecordDecl(r))
    else if t.value == "method" then Mapped(MethodOf(ts), (m: Method) => MethodDecl(m))
    else if t.value == "event" then Mapped(EventOf(ts), (e: EventDecl) => Event(e))
    else Err(UnexpectedDeclaration(t.line, t.value))
  }

  function BodyTail(ts: seq<Token>, m: Module): (r: Parse<Module>)
    requires Ended(ts)
    ensures Proper(r, ts)
    decreases |ts|
  {
    if ts[0].value == "}" then Ok((m, ts[1..]))
    else match DeclarationOf(ts)
      case Err(e) => Err(e)
      case Ok((d, rest)) => BodyTail(rest, Added(m, d))
  }

  function ModuleOf(ts: seq<Token>): (r: Parse<Module>)
    requires Ended(ts)
    ensures Proper(r, ts)
  {
    match ExpectText(ts, Ident, "module")
    case Err(e) => Err(e)
    case Ok((_, rest)) =>
      match ExpectKind(rest, Ident)
      case Err(e) => Err(e)
      case Ok((name, rest)) =>
        match ExpectText(rest, Punct, "{")
        case Err(e) => Err(e)
        case Ok((_, rest)) => BodyTail(rest, Module(name.value, name.line, [], [], []))
  }

  // ── The parser over its cursor ─────────────────────────────────────────────

  class Parser {
    const tokens: seq<Token>
    var i: nat

    /** What the cursor has before it. */
    function Left(): seq<Token>
      reads this
      requires i <= |tokens|
    {
      tokens[i..]
    }

    /** The cursor is on a token and no end of input is behind it. */
    ghost predicate Valid()
      reads this
    {
      i < |tokens| && Ended(tokens)
    }

    /** The method did what the grammar says, and left the cursor after what it read. */
    ghost predicate Follows<T>(r: Result<T, LidlError>, parse: Parse<T>)
      reads this
    {
      match parse
      case Err(e) => r == Err(e)
      case Ok((value, rest)) => r == Ok(value) && Valid() && Left() == rest
    }

    constructor (ts: seq<Token>)
      requires Ended(ts)
      ensures Valid() && tokens == ts && Left() == ts
    {
      tokens, i := ts, 0;
    }

    method Next() returns (t: Token)
      requires Valid()
      modifies this
      ensures i == old(i) + 1 <= |tokens| && t == tokens[old(i)]
      ensures t.kind != Eof ==> Valid() && Left() == old(Left())[1..]
    {
      t := tokens[i];
      i := i + 1;
    }

    method Expect(kind: Kind) returns (r: Result<Token, LidlError>)
      requires Valid() && kind != Eof
      modifies this
      ensures Ended(old(Left())) && Follows(r, ExpectKind(old(Left()), kind))
    {
      var t := Next();
      if t.kind != kind {
        return Err(ExpectedKind(t.line, kind, t.value));
      }
      return Ok(t);
    }

    method ExpectValue(kind: Kind, want: string) returns (r: Result<Token, LidlError>)
      requires Valid() && kind != Eof
      modifies this
      ensures Ended(old(Left())) && Follows(r, ExpectText(old(Left()), kind, want))
    {
      var t := Next();
      if t.kind != kind || t.value != want {
        return Err(Expected(t.line, want, t.value));
      }
      return Ok(t);
    }

    method Accept(value: string) returns (accepted: bool)
      requires Valid() && value != ""
      modifies this
      ensures Valid() && Ended(old(Left())) && Left() == Accepted(old(Left()), value)
      ensures accepted == (old(Left())[0].value == value)
      ensures i >= old(i) && (accepted ==> i > old(i))
    {
      if tokens[i].value == value {
        var _ := Next();
        return true;
      }
      return false;
    }

    method ParseTypeExpr() returns (r: Result<string, LidlError>)
      requires Valid()
      modifies this
      ensures Ended(old(Left())) && Follows(r, TypeExprOf(old(Left())))
      decreases |tokens| - i
    {
      var t := Next();
      if t.value == "?" {
        var inner := ParseTypeExpr();
        if inner.Err? {
          return Err(inner.error);
        }
        return Ok("?" + inner.value);
      }
      if t.value == "[" {
        var inner := ParseTypeExpr();
        if inner.Err? {
          return Err(inner.error);
        }
        var close := ExpectValue(Punct, "]");
        if close.Err? {
          return Err(close.error);
        }
        return Ok("[" + inner.value + "]");
      }
      if t.value == "{" {
        var key := ParseTypeExpr();
        if key.Err? {
          return Err(key.error);
        }
        var colon := ExpectValue(Punct, ":");
        if colon.Err? {
          return Err(colon.error);
        }
        var val := ParseTypeExpr();
        if val.Err? {
          return Err(val.error);
        }
        var close := ExpectValue(Punct, "}");
        if close.Err? {
          return Err(close.error);
        }
        return Ok("{" + key.value + ": " + val.value + "}");
      }
      if t.kind == Ident {
        return Ok(t.value);
      }
      return Err(ExpectedType(t.line, t.value));
    }

    method ParseNamedType() returns (r: Result<(Token, string), LidlError>)
      requires Valid()
      modifies this
      ensures Ended(old(Left())) && Follows(r, NamedTypeOf(old(Left())))
    {
      var name := Expect(Ident);
      if name.Err? {
        return Err(name.error);
      }
      var colon := ExpectValue(Punct, ":");
      if colon.Err? {
        return Err(colon.error);
      }
      var typed := ParseTypeExpr();
      if typed.Err? {
        return Err(typed.error);
      }
      return Ok((name.value, typed.value));
    }

    method ParseParam() returns (r: Result<Param, LidlError>)
      requires Valid()
      modifies this
      ensures Ended(old(Left())) && Follows(r, ParamOf(old(Left())))
    {
      var named := ParseNamedType();
      return if named.Err? then Err(named.error) else Ok(Param(named.value.0.value, named.value.1));
    }

    method ParseParams() returns (r: Result<seq<Param>, LidlError>)
      requires Valid()
      modifies this
      ensures Ended(old(Left())) && Follows(r, ParamsOf(old(Left())))
    {
      var open := ExpectValue(Punct, "(");
      if open.Err? {
        return Err(open.error);
      }
      r := ParseParamsTail();
    }

    method ParseParamsTail() returns (r: Result<seq<Param>, LidlError>)
      requires Valid()
      modifies this
      ensures Ended(old(Left())) && Follows(r, ParamsTail(old(Left())))
    {
      var params: seq<Param> := [];
      ghost var whole, left := ParamsTail(Left()), Left();
      OntoNothing(whole);
      ParamsTurn(whole, params, left);
      var closed := Accept(")");
      while !closed
        invariant Valid() && Ended(left)
        invariant closed ==> whole == Ok((params, Left()))
        invariant !closed ==> left == Left() && left[0].value != ")" && whole == Onto(params, ParamsTail(left))
        decreases |tokens| - i, if closed then 0 else 1
      {
        ParamsTurn(whole, params, left);
        var param := ParseParam();
        if param.Err? {
          return Err(param.error);
        }
        var _ := Accept(",");
        params := params + [param.value];
        left := Left();
        ParamsTurn(whole, params, left);
        closed := Accept(")");
      }
      return Ok(params);
    }

    method ParseHead(keyword: string) returns (r: Result<(string, nat), LidlError>)
      requires Valid()
      modifies this
      ensures Ended(old(Left())) && Follows(r, HeadOf(old(Left()), keyword))
    {
      var first := ExpectValue(Ident, keyword);
      if first.Err? {
        return Err(first.error);
      }
      var name := Expect(Ident);
      if name.Err? {
        return Err(name.error);
      }
      return Ok((name.value.value, first.value.line));
    }

    method ParseMethod() returns (r: Result<Method, LidlError>)
      requires Valid()
      modifies this
      ensures Ended(old(Left())) && Follows(r, MethodOf(old(Left())))
    {
      var head := ParseHead("method");
      if head.Err? {
        return Err(head.error);
      }
      var params := ParseParams();
      if params.Err? {
        return Err(params.error);
      }
      var arrow := Accept("->");
      if !arrow {
        return Ok(Method(head.value.0, head.value.1, params.value, None));
      }
      var rtype := ParseTypeExpr();
      if rtype.Err? {
        return Err(rtype.error);
      }
      return Ok(Method(head.value.0, head.value.1, params.value, Some(rtype.value)));
    }

    method ParseEvent() returns (r: Result<EventDecl, LidlError>)
      requires Valid()
      modifies this
      ensures Ended(old(Left())) && Follows(r, EventOf(old(Left())))
    {
      var head := ParseHead("event");
      if head.Err? {
        return Err(head.error);
      }
      var params := ParseParams();
      if params.Err? {
        return Err(params.error);
      }
      return Ok(EventDecl(head.value.0, head.value.1, params.value));
    }

    method ParseField() returns (r: Result<Field, LidlError>)
      requires Valid()
      modifies this
      ensures Ended(old(Left())) && Follows(r, FieldOf(old(Left())))
    {
      var optional := Accept("?");
      var named := ParseNamedType();
      if named.Err? {
        return Err(named.error);
      }
      var (name, ftype) := named.value;
      return Ok(Field(name.value, ftype, optional || "?" <= ftype, name.line));
    }

    method ParseType() returns (r: Result<Record, LidlError>)
      requires Valid()
      modifies this
      ensures Ended(old(Left())) && Follows(r, RecordOf(old(Left())))
    {
      var head := ParseHead("type");
      if head.Err? {
        return Err(head.error);
      }
      var open := ExpectValue(Punct, "{");
      if open.Err? {
        return Err(open.error);
      }
      var fields := ParseFieldsTail();
      if fields.Err? {
        return Err(fields.error);
      }
      return Ok(Record(head.value.0, head.value.1, fields.value));
    }

    method ParseFieldsTail() returns (r: Result<seq<Field>, LidlError>)
      requires Valid()
      modifies this
      ensures Ended(old(Left())) && Follows(r, FieldsTail(old(Left())))
    {
      var fields: seq<Field> := [];
      ghost var whole, left := FieldsTail(Left()), Left();
      OntoNothing(whole);
      FieldsTurn(whole, fields, left);
      var closed := Accept("}");
      while !closed
        invariant Valid() && Ended(left)
        invariant closed ==> whole == Ok((fields, Left()))
        invariant !closed ==> left == Left() && left[0].value != "}" && whole == Onto(fields, FieldsTail(left))
        decreases |tokens| - i, if closed then 0 else 1
      {
        FieldsTurn(whole, fields, left);
        var field := ParseField();
        if field.Err? {
          return Err(field.error);
        }
        fields := fields + [field.value];
        left := Left();
        FieldsTurn(whole, fields, left);
        closed := Accept("}");
      }
      return Ok(fields);
    }

    method ParseNames() returns (r: Result<(), LidlError>)
      requires Valid()
      modifies this
      ensures Ended(old(Left())) && Follows(r, NamesTail(old(Left())))
    {
      ghost var whole := NamesTail(Left());
      var closed := Accept("]");
      while !closed
        invariant Valid()
        invariant closed ==> whole == Ok(((), Left()))
        invariant !closed ==> whole == NamesTail(Left()) && Left()[0].value != "]"
        decreases |tokens| - i, if closed then 0 else 1
      {
        var name := Expect(Ident);
        if name.Err? {
          return Err(name.error);
        }
        var _ := Accept(",");
        closed := Accept("]");
      }
      return Ok(());
    }

    method ParseDeclaration() returns (r: Result<Declaration, LidlError>)
      requires Valid()
      modifies this
      ensures Ended(old(Left())) && Follows(r, DeclarationOf(old(Left())))
    {
      var t := tokens[i];
      if t.kind == Eof {
        return Err(UnclosedModule);
      } else if t.value == "version" || t.value == "description" || t.value == "category" {
        var _ := Next();
        var text := Expect(Str);
        return if text.Err? then Err(text.error) else Ok(Attribute);
      } else if t.value == "depends" || t.value == "optional_depends" {
        var _ := Next();
        var open := ExpectValue(Punct, "[");
        if open.Err? {
          return Err(open.error);
        }
        var names := ParseNames();
        return if names.Err? then Err(names.error) else Ok(Attribute);
      } else if t.value == "type" {
        var record := ParseType();
        return if record.Err? then Err(record.error) else Ok(RecordDecl(record.value));
      } else if t.value == "method" {
        var m := ParseMethod();
        return if m.Err? then Err(m.error) else Ok(MethodDecl(m.value));
      } else if t.value == "event" {
        var e := ParseEvent();
        return if e.Err? then Err(e.error) else Ok(Event(e.value));
      }
      return Err(UnexpectedDeclaration(t.line, t.value));
    }

    /** Every token list that ends in its only end of input gives a module or an
        error, without reading past that end. */
    method ParseModule() returns (r: Result<Module, LidlError>)
      requires Valid()
      modifies this
      ensures Ended(old(Left())) && Follows(r, ModuleOf(old(Left())))
    {
      var keyword := ExpectValue(Ident, "module");
      if keyword.Err? {
        return Err(keyword.error);
      }
      var name := Expect(Ident);
      if name.Err? {
        return Err(name.error);
      }
      var open := ExpectValue(Punct, "{");
      if open.Err? {
        return Err(open.error);
      }
      r := ParseBody(Module(name.value.value, name.value.line, [], [], []));
    }

    method ParseBody(empty: Module) returns (r: Result<Module, LidlError>)
      requires Valid()
      modifies this
      ensures Ended(old(Left())) && Follows(r, BodyTail(old(Left()), empty))
    {
      var m := empty;
      ghost var whole := BodyTail(Left(), m);
      var closed := Accept("}");
      while !closed
        invariant Valid()
        invariant closed ==> whole == Ok((m, Left()))
        invariant !closed ==> whole == BodyTail(Left(), m) && Left()[0].value != "}"
        decreases |tokens| - i, if closed then 0 else 1
      {
        var d := ParseDeclaration();
        if d.Err? {
          return Err(d.error);
        }
        m := Added(m, d.value);
        closed := Accept("}");
      }
      return Ok(m);
    }
  }
}
