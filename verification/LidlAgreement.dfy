/** The comment stripper works line by line and the tokenizer on the whole text;
    where each string closes on its own line they see the same strings. */
module LidlAgreement {
  import opened Wrappers
  import opened LidlLexer
  import opened Sequences

  /** A stretch of code as the tokenizer cuts it, whitespace included. */
  datatype Piece = Piece(kind: Kind, text: string)

  /** The pieces of `s` up to where no token matches, and what is left. */
  function Cut(s: string): (r: (seq<Piece>, string))
    decreases |s|, 1
  {
    if s == [] then ([], "")
    else match FirstLexeme(s)
      case None => ([], s)
      case Some(m) => CutOn(s, m)
  }

  function CutOn(s: string, m: Lexeme): (r: (seq<Piece>, string))
    requires 0 < m.length <= |s|
    decreases |s|, 0
  {
    var (pieces, rest) := Cut(s[m.length..]);
    ([Piece(m.kind, s[..m.length])] + pieces, rest)
  }

  function Text(pieces: seq<Piece>): string {
    if pieces == [] then "" else pieces[0].text + Text(pieces[1..])
  }

  /** The pieces as tokens: whitespace dropped, each on the line it begins on. */
  function Located(pieces: seq<Piece>, line: nat): seq<Token> {
    if pieces == [] then []
    else
      (if pieces[0].kind == Ws then [] else [Token(pieces[0].kind, pieces[0].text, line)])
      + Located(pieces[1..], line + Newlines(pieces[0].text))
  }

  lemma CutStep(s: string)
    requires s != [] && FirstLexeme(s).Some?
    ensures var m := FirstLexeme(s).value;
            var (pieces, rest) := Cut(s[m.length..]);
            Cut(s) == ([Piece(m.kind, s[..m.length])] + pieces, rest)
  {
  }

  lemma TextOfMore(piece: Piece, pieces: seq<Piece>)
    ensures Text([piece] + pieces) == piece.text + Text(pieces)
  {
    assert ([piece] + pieces)[1..] == pieces;
  }

  lemma LocatedMore(piece: Piece, pieces: seq<Piece>, line: nat)
    ensures Located([piece] + pieces, line) ==
              (if piece.kind == Ws then [] else [Token(piece.kind, piece.text, line)])
              + Located(pieces, line + Newlines(piece.text))
  {
    assert ([piece] + pieces)[1..] == pieces;
  }

  lemma {:induction false} PiecesAreTheCode(s: string)
    ensures Text(Cut(s).0) + Cut(s).1 == s
    decreases |s|
  {
    if s != [] && FirstLexeme(s).Some? {
      var m := FirstLexeme(s).value;
      var (pieces, rest) := Cut(s[m.length..]);
      PiecesAreTheCode(s[m.length..]);
      CutStep(s);
      TextOfMore(Piece(m.kind, s[..m.length]), pieces);
      Regroup(s[..m.length], Text(pieces), rest);
    }
  }

  /** What the tokenizer answers for pieces and what is left after them. */
  function Answer(pieces: seq<Piece>, rest: string, line: nat): Result<seq<Token>, LidlError> {
    var end := line + Newlines(Text(pieces));
    if rest == [] then Ok(Located(pieces, line) + [Token(Eof, "", end)]) else Err(UnexpectedCharacter(end, rest[0]))
  }

  lemma AnswerOfNothing(rest: string, line: nat)
    ensures Answer([], rest, line) ==
              if rest == [] then Ok([Token(Eof, "", line)]) else Err(UnexpectedCharacter(line, rest[0]))
  {
    assert Newlines(Text([])) == 0 && [] + [Token(Eof, "", line)] == [Token(Eof, "", line)];
  }

  lemma AnswerMore(piece: Piece, pieces: seq<Piece>, rest: string, line: nat)
    ensures Answer([piece] + pieces, rest, line) ==
              Prepend(if piece.kind == Ws then [] else [Token(piece.kind, piece.text, line)],
                      Answer(pieces, rest, line + Newlines(piece.text)))
  {
    TextOfMore(piece, pieces);
    LocatedMore(piece, pieces, line);
    CountAdds(piece.text, Text(pieces), '\n');
    Regroup(if piece.kind == Ws then [] else [Token(piece.kind, piece.text, line)],
            Located(pieces, line + Newlines(piece.text)),
            [Token(Eof, "", line + Newlines(piece.text) + Newlines(Text(pieces)))]);
  }

  lemma OnePieceMore(s: string, line: nat, m: Lexeme, after: string, line': nat)
    requires s != [] && FirstLexeme(s) == Some(m) && after == s[m.length..] && line' == line + Newlines(s[..m.length])
    requires Lex(after, line') == Answer(Cut(after).0, Cut(after).1, line')
    ensures Lex(s, line) == Answer(Cut(s).0, Cut(s).1, line)
  {
    LexStep(s, line, m);
    CutStep(s);
    AnswerMore(Piece(m.kind, s[..m.length]), Cut(after).0, Cut(after).1, line);
  }

  /** The tokenizer's answer is its pieces, located. */
  lemma {:induction false} TokensAreThePieces(s: string, line: nat)
    ensures Lex(s, line) == Answer(Cut(s).0, Cut(s).1, line)
    decreases |s|
  {
    if s == [] || FirstLexeme(s).None? {
      LastPiece(s, line);
    } else {
      var m := FirstLexeme(s).value;
      var after, line' := s[m.length..], line + Newlines(s[..m.length]);
      TokensAreThePieces(after, line');
      OnePieceMore(s, line, m, after, line');
    }
  }

  lemma LastPiece(s: string, line: nat)
    requires s == [] || FirstLexeme(s).None?
    ensures Lex(s, line) == Answer(Cut(s).0, Cut(s).1, line)
  {
    LexStops(s, line);
    AnswerOfNothing(s, line);
  }

  // ── One scan over the whole code ───────────────────────────────────────────

  /** The stripper's scan starts over on each line. */
  function Next(scan: Scan, c: char): Scan {
    if c == '\n' then Outside else Scanned(scan, c)
  }

  /** From `scan` on: each `;` is inside a string and no line ends inside one. */
  ghost predicate Clean(s: string, scan: Scan)
    decreases |s|
  {
    if s == [] then scan == Outside
    else
      && (s[0] == ';' ==> scan != Outside)
      && (s[0] == '\n' ==> scan == Outside)
      && Clean(s[1..], Next(scan, s[0]))
  }

  /** The line's strings close on it, or a comment begins first. */
  ghost predicate ClosesStrings(line: string) {
    FirstComment(line, 0).None? ==> ScanOf(line) == Outside
  }

  lemma {:induction false} LineIsClean(kept: string, i: nat, tail: string)
    requires i <= |kept| && ScanOf(kept) == Outside && '\n' !in kept
    requires forall k :: 0 <= k < |kept| && kept[k] == ';' ==> ScanOf(kept[..k]) != Outside
    requires Clean(tail, Outside)
    ensures Clean(kept[i..] + tail, ScanOf(kept[..i]))
    decreases |kept| - i
  {
    if i == |kept| {
      assert kept[i..] + tail == tail && kept[..i] == kept;
    } else {
      LineIsClean(kept, i + 1, tail);
      var s := kept[i..] + tail;
      assert s[0] == kept[i] && s[1..] == kept[i + 1..] + tail;
      assert kept[..i + 1][..i] == kept[..i];
    }
  }

  lemma KeptIsClean(line: string, tail: string)
    requires ClosesStrings(line) && '\n' !in line && Clean(tail, Outside)
    ensures Clean(Kept(line) + tail, Outside)
  {
    var kept := Kept(line);
    forall k | 0 <= k < |kept| && kept[k] == ';' ensures ScanOf(kept[..k]) != Outside {
      assert kept[..k] == line[..k];
    }
    LineIsClean(kept, 0, tail);
    assert kept[0..] + tail == kept + tail && kept[..0] == "";
  }

  /** What the code has after its first line. */
  function CodeAfter(rest: seq<string>): string {
    if rest == [] then "" else "\n" + JoinLines(KeptLines(rest))
  }

  lemma CodeSplits(lines: seq<string>)
    requires lines != []
    ensures JoinLines(KeptLines(lines)) == Kept(lines[0]) + CodeAfter(lines[1..])
  {
    assert KeptLines(lines)[1..] == KeptLines(lines[1..]);
    assert Kept(lines[0]) + "" == Kept(lines[0]);
  }

  lemma AfterIsClean(rest: seq<string>)
    ensures Clean(CodeAfter(rest), Outside) <==> rest == [] || Clean(JoinLines(KeptLines(rest)), Outside)
  {
    assert rest != [] ==> CodeAfter(rest)[1..] == JoinLines(KeptLines(rest));
  }

  lemma {:induction false} CodeIsClean(lines: seq<string>)
    requires forall line :: line in lines ==> ClosesStrings(line) && '\n' !in line
    ensures Clean(JoinLines(KeptLines(lines)), Outside)
  {
    if lines != [] {
      CodeIsClean(lines[1..]);
      AfterIsClean(lines[1..]);
      KeptIsClean(lines[0], CodeAfter(lines[1..]));
      CodeSplits(lines);
    }
  }

  // ── The tokenizer follows it ───────────────────────────────────────────────

  /** `k` characters and then `n` more. */
  lemma TwoSteps(s: string, k: nat, n: nat)
    requires k + n <= |s| && '\n' !in s[..k] && '\n' !in s[k..][..n]
    ensures s[k..][n..] == s[k + n..] && '\n' !in s[..k + n]
  {
    assert s[..k + n] == s[..k] + s[k..][..n];
  }

  /** A backslash inside a string takes the next character with it, on the same line. */
  lemma EscapeIsClean(s: string)
    requires Clean(s, Inside) && s[0] == '\\'
    ensures |s| >= 2 && s[1] != '\n' && Clean(s[2..], Inside) && '\n' !in s[..2]
  {
    assert Clean(s[1..], Escaped);
    assert s[1..] != [] && s[1..][0] == s[1];
    assert s[1..][1..] == s[2..];
    assert s[..2] == [s[0], s[1]];
  }

  lemma OtherIsClean(s: string)
    requires Clean(s, Inside) && s[0] != '\\' && s[0] != '"'
    ensures Clean(s[1..], Inside) && '\n' !in s[..1]
  {
    assert s[..1] == [s[0]];
  }

  /** Inside a string both see the same end. */
  lemma {:induction false} StringCloses(s: string)
    requires Clean(s, Inside)
    ensures StringRest(s).Some?
    ensures Clean(s[StringRest(s).value..], Outside)
    ensures '\n' !in s[..StringRest(s).value]
    decreases |s|
  {
    if s[0] == '"' {
      assert s[..1] == ['"'];
    } else {
      var k := if s[0] == '\\' then 2 else 1;
      if s[0] == '\\' {
        EscapeIsClean(s);
      } else {
        OtherIsClean(s);
      }
      StringCloses(s[k..]);
      TwoSteps(s, k, StringRest(s[k..]).value);
      assert StringRest(s) == Some(k + StringRest(s[k..]).value);
    }
  }

  /** Characters that neither open a string nor start a comment leave the scan outside. */
  lemma {:induction false} PlainStaysOutside(s: string, n: nat)
    requires n <= |s| && Clean(s, Outside)
    requires forall i :: 0 <= i < n ==> s[i] != '"'
    ensures Clean(s[n..], Outside) && ';' !in s[..n]
    decreases n
  {
    if n > 0 {
      PlainStaysOutside(s[1..], n - 1);
      assert s[n..] == s[1..][n - 1..];
      assert s[..n] == [s[0]] + s[1..][..n - 1];
    }
  }

  lemma {:induction false} SpaceRunIsSpace(s: string)
    ensures forall i :: 0 <= i < SpaceRun(s) ==> IsSpace(s[i])
  {
    if s != [] && IsSpace(s[0]) {
      SpaceRunIsSpace(s[1..]);
    }
  }

  lemma OtherLexemesArePlain(s: string)
    requires s != [] && FirstLexeme(s).Some? && FirstLexeme(s).value.kind != Str
    ensures forall i :: 0 <= i < FirstLexeme(s).value.length ==> s[i] != '"'
  {
    SpaceRunIsSpace(s[1..]);
  }

  /** Only whitespace holds a newline, and only a string a `;` or a quote. */
  predicate OnOneLine(piece: Piece) {
    && piece.text != ""
    && (piece.kind != Ws ==> '\n' !in piece.text)
    && (piece.kind != Str ==> ';' !in piece.text && '"' !in piece.text)
  }

  lemma NamesHoldNoNewline(s: string)
    requires s != [] && FirstLexeme(s).Some? && FirstLexeme(s).value.kind != Str && FirstLexeme(s).value.kind != Ws
    ensures '\n' !in s[..FirstLexeme(s).value.length]
  {
    assert FirstLexeme(s).value.kind == Ident ==> s[..FirstLexeme(s).value.length] == [s[0]] + s[1..][..IdentRun(s[1..])];
  }

  lemma LexemeAgrees(s: string)
    requires s != [] && Clean(s, Outside)
    ensures match FirstLexeme(s)
            case None => s[0] != ';' && s[0] != '"'
            case Some(m) => Clean(s[m.length..], Outside) && OnOneLine(Piece(m.kind, s[..m.length]))
  {
    if s[0] == '"' {
      StringCloses(s[1..]);
      var n := StringRest(s[1..]).value;
      assert s[1 + n..] == s[1..][n..];
      assert s[..1 + n] == ['"'] + s[1..][..n];
    } else if FirstLexeme(s).Some? {
      OtherLexemesArePlain(s);
      PlainStaysOutside(s, FirstLexeme(s).value.length);
      if !IsSpace(s[0]) {
        NamesHoldNoNewline(s);
      }
    }
  }

  lemma {:induction false} CutAgrees(s: string)
    requires Clean(s, Outside)
    ensures var (pieces, rest) := Cut(s);
            && (forall piece :: piece in pieces ==> OnOneLine(piece))
            && (rest != [] ==> rest[0] != ';' && rest[0] != '"')
    decreases |s|
  {
    if s != [] {
      LexemeAgrees(s);
      if FirstLexeme(s).Some? {
        CutAgrees(s[FirstLexeme(s).value.length..]);
      }
    }
  }

  /** A source's lines hold no newline. */
  lemma SourceLinesAreLines(source: string)
    ensures forall line :: line in SplitLines(source) ==> '\n' !in line
  {
  }

  /** For every source whose strings close on their own lines: a `;` left in the
      stripped code is inside a string piece, which keeps to one line, and neither
      a `;` nor a quote ever stops the tokenizer. */
  lemma StripperAndTokenizerAgree(source: string)
    requires forall line :: line in SplitLines(source) ==> ClosesStrings(line)
    ensures var (pieces, rest) := Cut(CodeOf(source));
            && (forall piece :: piece in pieces ==> OnOneLine(piece))
            && (rest != "" ==> rest[0] != ';' && rest[0] != '"')
  {
    SourceLinesAreLines(source);
    CodeIsClean(SplitLines(source));
    CutAgrees(CodeOf(source));
  }

  // ── And only there ─────────────────────────────────────────────────────────

  lemma {:induction false} StringIsClean(s: string)
    requires StringRest(s).Some? && '\n' !in s[..StringRest(s).value] && Clean(s[StringRest(s).value..], Outside)
    ensures Clean(s, Inside)
    decreases |s|
  {
    if s[0] != '"' {
      var k, n := if s[0] == '\\' then 2 else 1, StringRest(s).value;
      assert StringRest(s[k..]) == Some(n - k);
      assert s[k..][n - k..] == s[n..];
      assert forall c :: c in s[k..][..n - k] ==> c in s[..n];
      assert s[0] in s[..n] && (k == 2 ==> s[1] in s[..n]);
      StringIsClean(s[k..]);
      if k == 2 {
        assert s[1..][1..] == s[2..] && Clean(s[1..], Escaped);
      }
    }
  }

  lemma {:induction false} PlainIsClean(s: string, n: nat)
    requires n <= |s| && Clean(s[n..], Outside)
    requires forall i :: 0 <= i < n ==> s[i] != '"' && s[i] != ';'
    ensures Clean(s, Outside)
    decreases n
  {
    if n > 0 {
      assert s[1..][n - 1..] == s[n..];
      PlainIsClean(s[1..], n - 1);
    }
  }

  lemma OtherLexemesHoldNoSemicolon(s: string)
    requires s != [] && FirstLexeme(s).Some? && FirstLexeme(s).value.kind != Str
    ensures forall i :: 0 <= i < FirstLexeme(s).value.length ==> s[i] != ';'
  {
    SpaceRunIsSpace(s[1..]);
  }

  lemma LexemeIsClean(s: string, m: Lexeme)
    requires s != [] && FirstLexeme(s) == Some(m) && Clean(s[m.length..], Outside)
    requires m.kind == Str ==> '\n' !in s[..m.length]
    ensures Clean(s, Outside)
  {
    if m.kind == Str {
      assert s[1..][m.length - 1..] == s[m.length..];
      assert forall c :: c in s[1..][..m.length - 1] ==> c in s[..m.length];
      StringIsClean(s[1..]);
    } else {
      OtherLexemesArePlain(s);
      OtherLexemesHoldNoSemicolon(s);
      PlainIsClean(s, m.length);
    }
  }

  /** All of it is cut, each piece on one line. */
  ghost predicate CutOnLines(cut: (seq<Piece>, string)) {
    cut.1 == "" && forall i :: 0 <= i < |cut.0| ==> OnOneLine(cut.0[i])
  }

  lemma FirstPieceOfMany(piece: Piece, pieces: seq<Piece>, rest: string)
    requires CutOnLines(([piece] + pieces, rest))
    ensures OnOneLine(piece) && CutOnLines((pieces, rest))
  {
    assert ([piece] + pieces)[0] == piece;
    forall i | 0 <= i < |pieces| ensures OnOneLine(pieces[i]) {
      assert ([piece] + pieces)[i + 1] == pieces[i];
    }
  }

  lemma FirstPiece(s: string)
    requires s != [] && CutOnLines(Cut(s))
    ensures FirstLexeme(s).Some?
    ensures var m := FirstLexeme(s).value; OnOneLine(Piece(m.kind, s[..m.length])) && CutOnLines(Cut(s[m.length..]))
  {
    var m := FirstLexeme(s).value;
    CutStep(s);
    FirstPieceOfMany(Piece(m.kind, s[..m.length]), Cut(s[m.length..]).0, Cut(s[m.length..]).1);
  }

  lemma {:induction false} CutIsClean(s: string)
    requires CutOnLines(Cut(s))
    ensures Clean(s, Outside)
    decreases |s|
  {
    if s != [] {
      FirstPiece(s);
      var m := FirstLexeme(s).value;
      CutIsClean(s[m.length..]);
      LexemeIsClean(s, m);
    }
  }

  lemma {:induction false} CleanLineCloses(kept: string, i: nat, tail: string)
    requires i <= |kept| && '\n' !in kept && (tail == "" || tail[0] == '\n')
    requires Clean(kept[i..] + tail, ScanOf(kept[..i]))
    ensures ScanOf(kept) == Outside && Clean(tail, Outside)
    decreases |kept| - i
  {
    if i == |kept| {
      assert kept[i..] + tail == tail && kept[..i] == kept;
    } else {
      var s := kept[i..] + tail;
      assert s[0] == kept[i] && s[1..] == kept[i + 1..] + tail;
      assert kept[..i + 1][..i] == kept[..i];
      CleanLineCloses(kept, i + 1, tail);
    }
  }

  lemma CleanFirstLine(line: string, tail: string)
    requires '\n' !in line && (tail == "" || tail[0] == '\n') && Clean(Kept(line) + tail, Outside)
    ensures ClosesStrings(line) && Clean(tail, Outside)
  {
    var kept := Kept(line);
    assert kept[0..] + tail == kept + tail && kept[..0] == "";
    CleanLineCloses(kept, 0, tail);
  }

  lemma {:induction false} CleanCodeCloses(lines: seq<string>)
    requires Clean(JoinLines(KeptLines(lines)), Outside) && forall line :: line in lines ==> '\n' !in line
    ensures forall line :: line in lines ==> ClosesStrings(line)
  {
    if lines != [] {
      CodeSplits(lines);
      CleanFirstLine(lines[0], CodeAfter(lines[1..]));
      AfterIsClean(lines[1..]);
      if lines[1..] != [] {
        CleanCodeCloses(lines[1..]);
      }
    }
  }

  /** For a source the tokenizer accepts, they agree exactly when every string
      closes on its line: a string left open puts a `;` or a line's end where the
      two see it differently. */
  lemma AgreementIsExact(source: string)
    requires Cut(CodeOf(source)).1 == ""
    ensures (forall line :: line in SplitLines(source) ==> ClosesStrings(line))
            <==> (forall piece :: piece in Cut(CodeOf(source)).0 ==> OnOneLine(piece))
  {
    if forall line :: line in SplitLines(source) ==> ClosesStrings(line) {
      StripperAndTokenizerAgree(source);
    }
    if forall piece :: piece in Cut(CodeOf(source)).0 ==> OnOneLine(piece) {
      SourceLinesAreLines(source);
      CutIsClean(CodeOf(source));
      CleanCodeCloses(SplitLines(source));
    }
  }
}
