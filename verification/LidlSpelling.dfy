/** What the stripper and the tokenizer do, character by character: their line breaks,
    comments and tokens written out. */
module LidlSpelling {
  import opened Wrappers
  import opened Sequences
  import opened LidlLexer

  // ── Lines ──────────────────────────────────────────────────────────────────

  /** The two-character break, or one of the ten of one character. */
  predicate BreakText(b: string) {
    || b == "\r\n"
    || (|b| == 1 && b[0] as int in {10, 11, 12, 13, 28, 29, 30, 133, 8232, 8233})
  }

  /** Each line with what ended it. */
  function Interleaved(lines: seq<string>, breaks: seq<string>): string
    requires |lines| == |breaks|
  {
    if lines == [] then "" else lines[0] + breaks[0] + Interleaved(lines[1..], breaks[1..])
  }

  /** Every line but perhaps the last ends in a break, holds none, and a `\r` that
      breaks a line takes the `\n` after it along. */
  ghost predicate BreaksUp(s: string, lines: seq<string>, breaks: seq<string>) {
    && |lines| == |breaks| && s == Interleaved(lines, breaks)
    && (forall k :: 0 <= k < |lines| ==> BreakText(breaks[k]) || (k == |lines| - 1 && breaks[k] == "" && lines[k] != ""))
    && (forall k, i :: 0 <= k < |lines| && 0 <= i < |lines[k]| ==> !BreakText([lines[k][i]]))
    && (forall k :: 0 <= k < |lines| - 1 && breaks[k] == "\r" ==>
          (lines[k + 1] + breaks[k + 1]) != "" && (lines[k + 1] + breaks[k + 1])[0] != '\n')
  }

  lemma BreaksAreBreaks(c: char)
    ensures IsBreak(c) <==> BreakText([c])
  {
  }

  lemma BreaksUpMore(line: string, b: string, s: string, lines: seq<string>, breaks: seq<string>)
    requires BreaksUp(s, lines, breaks) && BreakText(b) && (b == "\r" && s != "" ==> s[0] != '\n')
    requires forall i :: 0 <= i < |line| ==> !BreakText([line[i]])
    ensures BreaksUp(line + b + s, [line] + lines, [b] + breaks)
  {
    var lines', breaks' := [line] + lines, [b] + breaks;
    assert lines'[1..] == lines && breaks'[1..] == breaks;
    forall k | 0 <= k < |lines'|
      ensures BreakText(breaks'[k]) || (k == |lines'| - 1 && breaks'[k] == "" && lines'[k] != "")
      ensures forall i :: 0 <= i < |lines'[k]| ==> !BreakText([lines'[k][i]])
    {
      if k > 0 {
        assert lines'[k] == lines[k - 1] && breaks'[k] == breaks[k - 1];
      }
    }
    forall k | 0 <= k < |lines'| - 1 && breaks'[k] == "\r"
      ensures (lines'[k + 1] + breaks'[k + 1]) != "" && (lines'[k + 1] + breaks'[k + 1])[0] != '\n'
    {
      assert lines'[k + 1] == lines[k] && breaks'[k + 1] == breaks[k];
      if k == 0 {
        FirstOfInterleaved(lines, breaks);
      } else {
        assert breaks'[k] == breaks[k - 1];
      }
    }
  }

  lemma FirstOfInterleaved(lines: seq<string>, breaks: seq<string>)
    requires |lines| == |breaks| && lines != []
    ensures lines[0] + breaks[0] <= Interleaved(lines, breaks)
  {
  }

  lemma LastLine(s: string)
    requires s != "" && LineLength(s) == |s|
    ensures BreaksUp(s, [s], [""])
  {
    assert Interleaved([s], [""]) == s;
    forall i | 0 <= i < |s| ensures !BreakText([s[i]]) {
      BreaksAreBreaks(s[i]);
    }
  }

  /** The break that ends the first line. */
  function BreakAfter(s: string, n: nat): string
    requires n < |s|
  {
    if s[n] == '\r' && n + 1 < |s| && s[n + 1] == '\n' then "\r\n" else [s[n]]
  }

  lemma FirstBreak(s: string, n: nat)
    requires n < |s| && n == LineLength(s)
    ensures var b := BreakAfter(s, n);
            n + |b| <= |s| && s == s[..n] + b + s[n + |b|..] && SplitLines(s) == [s[..n]] + SplitLines(s[n + |b|..])
    ensures BreakText(BreakAfter(s, n)) && forall i :: 0 <= i < n ==> !BreakText([s[..n][i]])
  {
    BreaksAreBreaks(s[n]);
    forall i | 0 <= i < n ensures !BreakText([s[..n][i]]) {
      BreaksAreBreaks(s[..n][i]);
    }
  }

  /** The source's lines are what stands between its breaks. */
  lemma {:induction false} SplitLinesIs(s: string) returns (breaks: seq<string>)
    ensures BreaksUp(s, SplitLines(s), breaks)
    decreases |s|
  {
    var n := LineLength(s);
    if s == "" {
      breaks := [];
    } else if n == |s| {
      breaks := [""];
      LastLine(s);
    } else {
      var b := BreakAfter(s, n);
      FirstBreak(s, n);
      var rest := s[n + |b|..];
      var more := SplitLinesIs(rest);
      BreaksUpMore(s[..n], b, rest, SplitLines(rest), more);
      breaks := [b] + more;
    }
  }

  // ── Comments ───────────────────────────────────────────────────────────────

  /** The code of a line: all of it where no comment starts, else what is before its
      first `;` outside a string. */
  lemma KeptIsTheCode(line: string)
    ensures KeepsItsCode(line, Kept(line))
  {
  }

  /** The text `Strip` leaves is what stands between the whitespace at both ends. */
  lemma StripIs(s: string) returns (left: string, right: string)
    ensures s == left + Strip(s) + right
    ensures (forall i :: 0 <= i < |left| ==> IsSpace(left[i])) && (forall i :: 0 <= i < |right| ==> IsSpace(right[i]))
    ensures Strip(s) != "" ==> !IsSpace(Strip(s)[0]) && !IsSpace(Strip(s)[|Strip(s)| - 1])
  {
    left := StripLeftIs(s);
    right := StripRightIs(StripLeft(s));
    Regroup(left, Strip(s), right);
  }

  lemma {:induction false} StripLeftIs(s: string) returns (left: string)
    ensures s == left + StripLeft(s) && forall i :: 0 <= i < |left| ==> IsSpace(left[i])
    ensures StripLeft(s) != "" ==> !IsSpace(StripLeft(s)[0])
  {
    if s != "" && IsSpace(s[0]) {
      left := StripLeftIs(s[1..]);
      left := [s[0]] + left;
    } else {
      left := "";
    }
  }

  lemma {:induction false} StripRightIs(s: string) returns (right: string)
    ensures s == StripRight(s) + right && forall i :: 0 <= i < |right| ==> IsSpace(right[i])
    ensures StripRight(s) != "" ==> !IsSpace(StripRight(s)[|StripRight(s)| - 1])
    ensures StripRight(s) != "" ==> StripRight(s)[0] == s[0]
  {
    if s != "" && IsSpace(s[|s| - 1]) {
      right := StripRightIs(s[..|s| - 1]);
      right := right + [s[|s| - 1]];
    } else {
      right := "";
    }
  }

  lemma {:induction false} StripToNothing(s: string)
    ensures Strip(s) == "" <==> forall i :: 0 <= i < |s| ==> IsSpace(s[i])
  {
    var left, right := StripIs(s);
    if Strip(s) != "" {
      assert s[|left|] == Strip(s)[0];
    }
  }

  /** A comment is the text after its `;` without the whitespace around it, and has its
      line to itself when nothing else is before it. */
  lemma CommentIs(line: string, cut: nat)
    requires CommentAt(line, cut)
    ensures CommentOf(line).Some? && CommentOf(line).value.text == Strip(line[cut + 1..])
    ensures CommentOf(line).value.ownLine <==> forall i :: 0 <= i < cut ==> IsSpace(line[i])
  {
    CutIsUnique(line, Some(cut));
    StripToNothing(line[..cut]);
  }

  lemma NoCommentIs(line: string)
    requires NoComment(line)
    ensures CommentOf(line).None?
  {
    CutIsUnique(line, None);
  }

  // ── Tokens ─────────────────────────────────────────────────────────────────

  /** A letter, a digit or an underscore. */
  predicate WordChar(c: char) {
    'A' <= c <= 'Z' || 'a' <= c <= 'z' || '0' <= c <= '9' || c == '_'
  }

  predicate Digit(c: char) {
    '0' <= c <= '9'
  }

  /** Whitespace, by code point. */
  predicate SpaceChar(c: char) {
    var n := c as int;
    n in {9, 10, 11, 12, 13, 28, 29, 30, 31, 32, 133, 160, 5760, 8192, 8193, 8194, 8195, 8196, 8197, 8198, 8199, 8200, 8201,
          8202, 8232, 8233, 8239, 8287, 12288}
  }

  /** What may stand between quotes: anything but a quote or a backslash, and a
      backslash with the character after it, unless that ends the line. */
  predicate Quotable(s: string)
    decreases |s|
  {
    s == "" ||
    (if s[0] == '\\' then |s| > 1 && s[1] != '\n' && Quotable(s[2..]) else s[0] != '"' && Quotable(s[1..]))
  }

  /** The quote that opens `s` is closed by its `n`th character. */
  predicate ClosesAt(s: string, n: nat) {
    2 <= n <= |s| && s[n - 1] == '"' && Quotable(s[1..n - 1])
  }

  /** The kind and the text of a token, or of a run of whitespace, as `s` begins with it. */
  ghost predicate StartsWith(s: string, kind: Kind, n: nat)
    requires 0 < n <= |s|
  {
    match kind
    case Ws => (forall i :: 0 <= i < n ==> SpaceChar(s[i])) && (n < |s| ==> !SpaceChar(s[n]))
    case Ident =>
      !Digit(s[0]) && (forall i :: 0 <= i < n ==> WordChar(s[i])) && (n < |s| ==> !WordChar(s[n]))
    case Str => s[0] == '"' && ClosesAt(s, n)
    case Punct => s[..n] == "->" || s[..n] in {"{", "}", "[", "]", "(", ")", ",", ":", "?"}
    case Eof => false
  }

  /** No token starts with `s`. */
  ghost predicate StartsNothing(s: string)
    requires s != ""
  {
    && !SpaceChar(s[0]) && (Digit(s[0]) || !WordChar(s[0]))
    && s[0] !in {'{', '}', '[', ']', '(', ')', ',', ':', '?'}
    && (s[0] == '-' ==> |s| == 1 || s[1] != '>')
    && (s[0] == '"' ==> forall n: nat :: !ClosesAt(s, n))
  }

  lemma SpacesAreSpaces(c: char)
    ensures IsSpace(c) <==> SpaceChar(c)
  {
  }

  lemma {:induction false} SpaceRunIs(s: string)
    ensures forall i :: 0 <= i < SpaceRun(s) ==> SpaceChar(s[i])
    ensures SpaceRun(s) < |s| ==> !SpaceChar(s[SpaceRun(s)])
  {
    if s != "" {
      SpacesAreSpaces(s[0]);
      if IsSpace(s[0]) {
        SpaceRunIs(s[1..]);
      }
    }
  }

  lemma {:induction false} IdentRunIs(s: string)
    ensures forall i :: 0 <= i < IdentRun(s) ==> WordChar(s[i])
    ensures IdentRun(s) < |s| ==> !WordChar(s[IdentRun(s)])
  {
    if s != "" && IsIdentChar(s[0]) {
      IdentRunIs(s[1..]);
    }
  }

  /** The rest of a string is what may stand between quotes, and a quote. */
  lemma {:induction false} StringRestIs(s: string)
    ensures StringRest(s).Some? ==>
              var n := StringRest(s).value; n > 0 && n <= |s| && s[n - 1] == '"' && Quotable(s[..n - 1])
    decreases |s|
  {
    if s != "" && s[0] != '"' && StringRest(s).Some? {
      var n := StringRest(s).value;
      var k := if s[0] == '\\' then 2 else 1;
      StringRestIs(s[k..]);
      assert s[k..][..n - k - 1] == s[..n - 1][k..];
      assert s[k..][n - k - 1] == s[n - 1];
    }
  }

  lemma {:induction false} NoStringRest(s: string, n: nat)
    requires 0 < n <= |s| && s[n - 1] == '"' && Quotable(s[..n - 1])
    ensures StringRest(s) == Some(n)
    decreases |s|
  {
    if n > 1 {
      var k := if s[0] == '\\' then 2 else 1;
      assert s[..n - 1][0] == s[0];
      if k == 2 {
        assert s[..n - 1][1] == s[1];
      }
      assert s[k..][..n - k - 1] == s[..n - 1][k..];
      NoStringRest(s[k..], n - k);
    }
  }

  lemma StringStarts(s: string)
    requires s != "" && s[0] == '"'
    ensures match FirstLexeme(s) case Some(m) => m.kind == Str && StartsWith(s, Str, m.length) case None => StartsNothing(s)
  {
    StringRestIs(s[1..]);
    if StringRest(s[1..]).Some? {
      var n := StringRest(s[1..]).value;
      assert s[1..][..n - 1] == s[1..n] && s[1..][n - 1] == s[n];
    } else {
      forall n: nat ensures !ClosesAt(s, n) {
        if ClosesAt(s, n) {
          assert s[1..][..n - 2] == s[1..n - 1] && s[1..][n - 2] == s[n - 1];
          NoStringRest(s[1..], n - 1);
        }
      }
    }
  }

  /** The tokenizer takes from the front exactly what the written-out tokens say: the
      longest run of whitespace or of word characters, a closed string, a mark, or
      nothing when none of them starts there. */
  lemma FirstLexemeIs(s: string)
    requires s != ""
    ensures match FirstLexeme(s) case Some(m) => StartsWith(s, m.kind, m.length) case None => StartsNothing(s)
  {
    SpacesAreSpaces(s[0]);
    if IsSpace(s[0]) {
      SpaceRunIs(s[1..]);
    } else if s[0] == '"' {
      StringStarts(s);
    } else if IsIdentStart(s[0]) {
      IdentRunIs(s[1..]);
    } else {
      MarkStarts(s);
    }
  }

  lemma MarkStarts(s: string)
    requires s != "" && !IsSpace(s[0]) && s[0] != '"' && !IsIdentStart(s[0])
    ensures match FirstLexeme(s) case Some(m) => StartsWith(s, m.kind, m.length) case None => StartsNothing(s)
  {
    SpacesAreSpaces(s[0]);
    assert s[..1] == [s[0]];
    if |s| > 1 {
      assert s[..2] == [s[0], s[1]];
    }
  }

  // ── Texts of one token ─────────────────────────────────────────────────────

  lemma OneToken(s: string, kind: Kind, line: nat)
    requires s != "" && FirstLexeme(s) == Some(Lexeme(kind, |s|)) && kind != Ws
    ensures Lex(s, line) == Ok([Token(kind, s, line), Token(Eof, "", line + Newlines(s))])
  {
    LexStep(s, line, Lexeme(kind, |s|));
    assert s[..|s|] == s && s[|s|..] == "";
    LexStops("", line + Newlines(s));
    assert [Token(kind, s, line)] + [Token(Eof, "", line + Newlines(s))] == [Token(kind, s, line), Token(Eof, "", line + Newlines(s))];
  }

  /** A word that starts with no digit is one name. */
  lemma WordsTokenize(s: string, line: nat)
    requires s != "" && !Digit(s[0]) && forall i :: 0 <= i < |s| ==> WordChar(s[i])
    ensures Lex(s, line) == Ok([Token(Ident, s, line), Token(Eof, "", line)])
  {
    FirstLexemeIs(s);
    SpacesAreSpaces(s[0]);
    IdentRunIs(s[1..]);
    assert FirstLexeme(s) == Some(Lexeme(Ident, |s|));
    CountNone(s, '\n');
    OneToken(s, Ident, line);
  }

  lemma MarksTokenize(s: string, line: nat)
    requires s in {"->", "{", "}", "[", "]", "(", ")", ",", ":", "?"}
    ensures Lex(s, line) == Ok([Token(Punct, s, line), Token(Eof, "", line)])
  {
    CountNone(s, '\n');
    assert FirstLexeme(s) == Some(Lexeme(Punct, |s|));
    OneToken(s, Punct, line);
  }

  /** Whatever may stand between quotes is, with them, one string. */
  lemma StringsTokenize(body: string, line: nat)
    requires Quotable(body)
    ensures var s := "\"" + body + "\"";
            Lex(s, line) == Ok([Token(Str, s, line), Token(Eof, "", line + Newlines(s))])
  {
    var s := "\"" + body + "\"";
    assert s[1..] == body + "\"" && s[1..][..|body|] == body;
    NoStringRest(s[1..], |body| + 1);
    OneToken(s, Str, line);
  }
}
