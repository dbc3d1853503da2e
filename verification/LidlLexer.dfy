/** From a LIDL source to tokens: the comment stripper and the tokenizer. */
module LidlLexer {
  import opened Sequences
  import opened Wrappers

  datatype Kind = Ws | Str | Ident | Punct | Eof

  datatype Token = Token(kind: Kind, value: string, line: nat)

  datatype LidlError =
    | UnexpectedCharacter(line: nat, character: char)
    | Expected(line: nat, want: string, found: string)
    | ExpectedKind(line: nat, kind: Kind, found: string)
    | ExpectedType(line: nat, found: string)
    | UnclosedModule
    | UnexpectedDeclaration(line: nat, found: string)

  // ── Characters ─────────────────────────────────────────────────────────────

  /** What the `\s` class and `strip` take for whitespace. */
  predicate IsSpace(c: char) {
    var n := c as int;
    || 0x09 <= n <= 0x0D || 0x1C <= n <= 0x20 || n == 0x85 || n == 0xA0 || n == 0x1680
    || 0x2000 <= n <= 0x200A || n == 0x2028 || n == 0x2029 || n == 0x202F || n == 0x205F || n == 0x3000
  }

  /** Where `splitlines` breaks. */
  predicate IsBreak(c: char) {
    var n := c as int;
    0x0A <= n <= 0x0D || 0x1C <= n <= 0x1E || n == 0x85 || n == 0x2028 || n == 0x2029
  }

  predicate IsIdentStart(c: char) {
    'A' <= c <= 'Z' || 'a' <= c <= 'z' || c == '_'
  }

  predicate IsIdentChar(c: char) {
    IsIdentStart(c) || '0' <= c <= '9'
  }

  predicate IsPunct(c: char) {
    c == '{' || c == '}' || c == '[' || c == ']' || c == '(' || c == ')' || c == ',' || c == ':' || c == '?'
  }

  predicate IsIdent(s: string) {
    s != [] && IsIdentStart(s[0]) && forall i :: 0 <= i < |s| ==> IsIdentChar(s[i])
  }

  function Newlines(s: string): nat {
    Count(s, '\n')
  }

  // ── Lines and comments ─────────────────────────────────────────────────────

  /** The length of the first line, without its break. */
  function LineLength(s: string): (n: nat)
    ensures n <= |s|
    ensures forall i :: 0 <= i < n ==> !IsBreak(s[i])
    ensures n < |s| ==> IsBreak(s[n])
  {
    if s == [] || IsBreak(s[0]) then 0 else 1 + LineLength(s[1..])
  }

  /** The source's lines without their breaks; a break at the end opens no line. */
  function SplitLines(s: string): (lines: seq<string>)
    ensures forall line :: line in lines ==> forall c :: c in line ==> !IsBreak(c)
    decreases |s|
  {
    if s == [] then [] else
    var n := LineLength(s);
    if n == |s| then [s]
    else if s[n] == '\r' && n + 1 < |s| && s[n + 1] == '\n' then [s[..n]] + SplitLines(s[n + 2..])
    else [s[..n]] + SplitLines(s[n + 1..])
  }

  function JoinLines(lines: seq<string>): string {
    if lines == [] then ""
    else if |lines| == 1 then lines[0]
    else lines[0] + "\n" + JoinLines(lines[1..])
  }

  /** Where a scan of one line stands: outside a string, inside one, or inside one
      after a backslash. */
  datatype Scan = Outside | Inside | Escaped

  function Scanned(scan: Scan, c: char): Scan {
    match scan
    case Escaped => Inside
    case Inside => if c == '\\' then Escaped else if c == '"' then Outside else Inside
    case Outside => if c == '"' then Inside else Outside
  }

  function ScanOf(line: string): Scan {
    if line == [] then Outside else Scanned(ScanOf(line[..|line| - 1]), line[|line| - 1])
  }

  /** `cut` is where the line's comment starts: its first `;` outside a string. */
  ghost predicate CommentAt(line: string, cut: nat) {
    && cut < |line| && line[cut] == ';' && ScanOf(line[..cut]) == Outside
    && forall i :: 0 <= i < cut && line[i] == ';' ==> ScanOf(line[..i]) != Outside
  }

  ghost predicate NoComment(line: string) {
    forall i :: 0 <= i < |line| && line[i] == ';' ==> ScanOf(line[..i]) != Outside
  }

  /** `code` is all of the line where it has no comment, else what is before it. */
  ghost predicate KeepsItsCode(line: string, code: string) {
    (NoComment(line) && code == line) || exists cut: nat :: CommentAt(line, cut) && code == line[..cut]
  }

  function FirstComment(line: string, from: nat): (cut: Option<nat>)
    requires from <= |line|
    requires forall i :: 0 <= i < from && line[i] == ';' ==> ScanOf(line[..i]) != Outside
    ensures cut.Some? ==> CommentAt(line, cut.value)
    ensures cut.None? ==> NoComment(line)
    decreases |line| - from
  {
    if from == |line| then None
    else if line[from] == ';' && ScanOf(line[..from]) == Outside then Some(from)
    else FirstComment(line, from + 1)
  }

  /** The code of a line: all of it, or what comes before its comment. */
  function Kept(line: string): string {
    var cut := FirstComment(line, 0);
    if cut.Some? then line[..cut.value] else line
  }

  function StripLeft(s: string): string {
    if s != [] && IsSpace(s[0]) then StripLeft(s[1..]) else s
  }

  function StripRight(s: string): string {
    if s != [] && IsSpace(s[|s| - 1]) then StripRight(s[..|s| - 1]) else s
  }

  function Strip(s: string): string {
    StripRight(StripLeft(s))
  }

  /** A comment's text, and whether it has its line to itself. */
  datatype Comment = Comment(text: string, ownLine: bool)

  function CommentOf(line: string): Option<Comment> {
    var cut := FirstComment(line, 0);
    if cut.None? then None else Some(Comment(Strip(line[cut.value + 1..]), Strip(line[..cut.value]) == ""))
  }

  function KeptLines(lines: seq<string>): (kept: seq<string>)
    ensures |kept| == |lines|
  {
    seq(|lines|, i requires 0 <= i < |lines| => Kept(lines[i]))
  }

  /** The code of a source: its lines without their comments. */
  function CodeOf(source: string): string {
    JoinLines(KeptLines(SplitLines(source)))
  }

  /** The scan of one line, by the two flags, up to its comment. */
  method FindComment(line: string) returns (cut: Option<nat>)
    ensures cut == FirstComment(line, 0)
  {
    var inString, escaped := false, false;
    var i := 0;
    while i < |line|
      invariant i <= |line|
      invariant ScanOf(line[..i]) == (if escaped then Escaped else if inString then Inside else Outside)
      invariant escaped ==> inString
      invariant forall k :: 0 <= k < i && line[k] == ';' ==> ScanOf(line[..k]) != Outside
    {
      assert line[..i + 1][..i] == line[..i];
      var ch := line[i];
      if escaped {
        escaped := false;
      } else if ch == '\\' && inString {
        escaped := true;
      } else if ch == '"' {
        inString := !inString;
      } else if ch == ';' && !inString {
        CutIsUnique(line, Some(i));
        return Some(i);
      }
      i := i + 1;
    }
    CutIsUnique(line, None);
    return None;
  }

  /** Each line's comment, by the line's number from one. */
  ghost predicate Annotates(comments: map<nat, Comment>, lines: seq<string>) {
    && (forall n: nat :: n in comments <==> 1 <= n <= |lines| && CommentOf(lines[n - 1]).Some?)
    && (forall n: nat :: n in comments ==> Some(comments[n]) == CommentOf(lines[n - 1]))
  }

  lemma AnnotatesMore(comments: map<nat, Comment>, lines: seq<string>, n: nat)
    requires 0 < n <= |lines| && Annotates(comments, lines[..n - 1])
    ensures var c := CommentOf(lines[n - 1]);
            Annotates(if c.None? then comments else comments[n := c.value], lines[..n])
  {
  }

  /** The code that is left, and the comments by their line, counted from one. */
  method SplitComments(source: string) returns (code: string, comments: map<nat, Comment>, ghost kept: seq<string>)
    ensures code == CodeOf(source) == JoinLines(kept) && |kept| == |SplitLines(source)|
    ensures forall k :: 0 <= k < |kept| ==> KeepsItsCode(SplitLines(source)[k], kept[k])
    ensures Annotates(comments, SplitLines(source))
  {
    var lines := SplitLines(source);
    var codeLines: seq<string> := [];
    comments := map[];
    var lineno := 1;
    while lineno <= |lines|
      invariant 1 <= lineno <= |lines| + 1
      invariant codeLines == KeptLines(lines[..lineno - 1])
      invariant Annotates(comments, lines[..lineno - 1])
    {
      var line := lines[lineno - 1];
      var cut := FindComment(line);
      OneMoreLine(lines, lineno);
      AnnotatesMore(comments, lines, lineno);
      if cut.None? {
        codeLines := codeLines + [line];
      } else {
        var before := line[..cut.value];
        comments := comments[lineno := Comment(Strip(line[cut.value + 1..]), Strip(before) == "")];
        codeLines := codeLines + [before];
      }
      lineno := lineno + 1;
    }
    assert lines[..lineno - 1] == lines;
    code, kept := JoinLines(codeLines), codeLines;
  }

  lemma OneMoreLine(lines: seq<string>, n: nat)
    requires 0 < n <= |lines|
    ensures KeptLines(lines[..n]) == KeptLines(lines[..n - 1]) + [Kept(lines[n - 1])]
  {
  }

  lemma CutIsUnique(line: string, cut: Option<nat>)
    requires match cut case Some(i) => CommentAt(line, i) case None => NoComment(line)
    ensures FirstComment(line, 0) == cut
  {
  }

  // ── Tokens ─────────────────────────────────────────────────────────────────

  function SpaceRun(s: string): (n: nat)
    ensures n <= |s|
  {
    if s != [] && IsSpace(s[0]) then 1 + SpaceRun(s[1..]) else 0
  }

  function IdentRun(s: string): (n: nat)
    ensures n <= |s|
    ensures forall i :: 0 <= i < n ==> IsIdentChar(s[i])
  {
    if s != [] && IsIdentChar(s[0]) then 1 + IdentRun(s[1..]) else 0
  }

  /** The length of a string's rest after its opening quote, its closing quote
      included: escapes in pairs, and no escaped newline. */
  function StringRest(s: string): (n: Option<nat>)
    ensures n.Some? ==> 0 < n.value <= |s|
    decreases |s|
  {
    if s == [] then None
    else if s[0] == '"' then Some(1)
    else if s[0] == '\\' then
      if |s| < 2 || s[1] == '\n' then None else Longer(2, StringRest(s[2..]))
    else Longer(1, StringRest(s[1..]))
  }

  function Longer(n: nat, rest: Option<nat>): Option<nat> {
    if rest.Some? then Some(n + rest.value) else None
  }

  datatype Lexeme = Lexeme(kind: Kind, length: nat)

  /** What the token pattern matches at the start of `s`. */
  function FirstLexeme(s: string): (m: Option<Lexeme>)
    requires s != []
    ensures m.Some? ==> 0 < m.value.length <= |s|
  {
    if IsSpace(s[0]) then Some(Lexeme(Ws, 1 + SpaceRun(s[1..])))
    else if s[0] == '"' then
      var rest := StringRest(s[1..]);
      if rest.Some? then Some(Lexeme(Str, 1 + rest.value)) else None
    else if IsIdentStart(s[0]) then Some(Lexeme(Ident, 1 + IdentRun(s[1..])))
    else if s[0] == '-' && |s| > 1 && s[1] == '>' then Some(Lexeme(Punct, 2))
    else if IsPunct(s[0]) then Some(Lexeme(Punct, 1))
    else None
  }

  function Prepend(tokens: seq<Token>, r: Result<seq<Token>, LidlError>): Result<seq<Token>, LidlError> {
    match r
    case Ok(rest) => Ok(tokens + rest)
    case Err(e) => Err(e)
  }

  /** The tokens of `s`, its first character on line `line`. */
  function Lex(s: string, line: nat): Result<seq<Token>, LidlError>
    decreases |s|, 1
  {
    if s == [] then Ok([Token(Eof, "", line)])
    else match FirstLexeme(s)
      case None => Err(UnexpectedCharacter(line, s[0]))
      case Some(m) => LexOn(s, line, m)
  }

  function LexOn(s: string, line: nat, m: Lexeme): Result<seq<Token>, LidlError>
    requires 0 < m.length <= |s|
    decreases |s|, 0
  {
    var value := s[..m.length];
    Prepend(if m.kind == Ws then [] else [Token(m.kind, value, line)],
            Lex(s[m.length..], line + Newlines(value)))
  }

  method Tokenize(code: string) returns (r: Result<seq<Token>, LidlError>)
    ensures r == Lex(code, 1)
  {
    var tokens: seq<Token> := [];
    var lineno: nat := 1;
    var pos: nat := 0;
    ghost var goal := Lex(code, 1);
    ghost var rest := code;
    PrependNothing(goal);
    while pos < |code|
      invariant pos <= |code| && rest == code[pos..]
      invariant goal == Prepend(tokens, Lex(rest, lineno))
    {
      var m := FirstLexeme(code[pos..]);
      if m.None? {
        LexStops(rest, lineno);
        return Err(UnexpectedCharacter(lineno, code[pos]));
      }
      var kind, value := m.value.kind, code[pos..pos + m.value.length];
      assert rest[..m.value.length] == value && rest[m.value.length..] == code[pos + m.value.length..];
      ghost var before, line := tokens, lineno;
      if kind != Ws {
        tokens := tokens + [Token(kind, value, lineno)];
      }
      lineno := lineno + Newlines(value);
      pos := pos + m.value.length;
      Advanced(goal, before, rest, line, m.value, tokens, code[pos..], lineno);
      rest := code[pos..];
    }
    LexStops(rest, lineno);
    tokens := tokens + [Token(Eof, "", lineno)];
    r := Ok(tokens);
  }

  lemma PrependNothing(r: Result<seq<Token>, LidlError>)
    ensures Prepend([], r) == r
  {
    if r.Ok? {
      assert [] + r.value == r.value;
    }
  }

  lemma LexStops(s: string, line: nat)
    requires s == [] || FirstLexeme(s).None?
    ensures Lex(s, line) == if s == [] then Ok([Token(Eof, "", line)]) else Err(UnexpectedCharacter(line, s[0]))
  {
  }

  lemma LexStep(s: string, line: nat, m: Lexeme)
    requires s != [] && FirstLexeme(s) == Some(m)
    ensures m.length <= |s|
    ensures Lex(s, line) == Prepend(if m.kind == Ws then [] else [Token(m.kind, s[..m.length], line)],
                                    Lex(s[m.length..], line + Newlines(s[..m.length])))
  {
  }

  lemma PrependTwice(a: seq<Token>, b: seq<Token>, r: Result<seq<Token>, LidlError>)
    ensures Prepend(a, Prepend(b, r)) == Prepend(a + b, r)
  {
    if r.Ok? {
      Regroup(a, b, r.value);
    }
  }

  /** One turn of the loop keeps what the whole answer is. */
  lemma Advanced(goal: Result<seq<Token>, LidlError>, before: seq<Token>, s: string, line: nat, m: Lexeme,
                 tokens: seq<Token>, rest: string, line': nat)
    requires s != [] && FirstLexeme(s) == Some(m) && goal == Prepend(before, Lex(s, line))
    requires rest == s[m.length..] && line' == line + Newlines(s[..m.length])
    requires tokens == before + (if m.kind == Ws then [] else [Token(m.kind, s[..m.length], line)])
    ensures goal == Prepend(tokens, Lex(rest, line'))
  {
    LexStep(s, line, m);
    PrependTwice(before, if m.kind == Ws then [] else [Token(m.kind, s[..m.length], line)], Lex(rest, line'));
  }
}
