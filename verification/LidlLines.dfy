/** Where the tokens of a source stand: the line each bears is its line of the
    original, comments stripped or not. */
module LidlLines {
  import opened Wrappers
  import opened LidlLexer
  import opened LidlAgreement
  import opened Sequences

  lemma InWindow(code: string, offset: nat, n: nat, k: nat)
    requires offset <= k < offset + n <= |code|
    ensures code[k] in code[offset..offset + n]
  {
    assert code[offset..offset + n][k - offset] == code[k];
  }

  lemma FindInFirst(first: string, more: string, offset: nat, n: nat)
    requires 0 < n && offset < |first| && offset + n <= |first + "\n" + more|
    requires '\n' !in first && '\n' !in (first + "\n" + more)[offset..offset + n]
    ensures offset + n <= |first| && first[offset..offset + n] == (first + "\n" + more)[offset..offset + n]
    ensures Newlines((first + "\n" + more)[..offset]) == 0
  {
    var code := first + "\n" + more;
    if offset + n > |first| {
      InWindow(code, offset, n, |first|);
      assert false;
    }
    assert code[..offset] == first[..offset];
    CountNone(first[..offset], '\n');
  }

  lemma TailSlices(head: string, more: string, offset: nat, n: nat)
    requires |head| <= offset && offset + n <= |head + more|
    ensures (head + more)[offset..offset + n] == more[offset - |head|..offset - |head| + n]
    ensures (head + more)[..offset] == head + more[..offset - |head|]
  {
  }

  lemma FindInRest(first: string, more: string, offset: nat, n: nat)
    requires offset > |first| && offset + n <= |first + "\n" + more| && '\n' !in first
    ensures var skip := |first| + 1;
            && (first + "\n" + more)[offset..offset + n] == more[offset - skip..offset - skip + n]
            && Newlines((first + "\n" + more)[..offset]) == 1 + Newlines(more[..offset - skip])
  {
    var head := first + "\n";
    TailSlices(head, more, offset, n);
    CountAdds(head, more[..offset - |head|], '\n');
    CountAdds(first, "\n", '\n');
    CountAll("\n", '\n');
    CountNone(first, '\n');
  }

  /** How far into its line an offset is. */
  function ColumnOf(code: string, offset: nat): (column: nat)
    requires offset <= |code|
    ensures column <= offset
    decreases offset
  {
    if offset == 0 || code[offset - 1] == '\n' then 0 else 1 + ColumnOf(code, offset - 1)
  }

  lemma {:induction false} ColumnInFirst(code: string, offset: nat)
    requires offset <= |code| && '\n' !in code[..offset]
    ensures ColumnOf(code, offset) == offset
  {
    if offset > 0 {
      InWindow(code, 0, offset, offset - 1);
      forall c | c in code[..offset - 1] ensures c in code[..offset] {
      }
      ColumnInFirst(code, offset - 1);
    }
  }

  lemma {:induction false} ColumnInRest(first: string, more: string, offset: nat)
    requires |first| < offset <= |first + "\n" + more|
    ensures ColumnOf(first + "\n" + more, offset) == ColumnOf(more, offset - |first| - 1)
    decreases offset
  {
    if offset > |first| + 1 {
      ColumnInRest(first, more, offset - 1);
    }
  }

  /** The `n` characters at `offset` are on the line and at the column it says. */
  ghost predicate FoundIn(lines: seq<string>, code: string, offset: nat, n: nat) {
    && offset + n <= |code|
    && var line, column := Newlines(code[..offset]), ColumnOf(code, offset);
       && line < |lines| && column + n <= |lines[line]|
       && lines[line][column..column + n] == code[offset..offset + n]
  }

  lemma FoundInFirst(lines: seq<string>, more: string, offset: nat, n: nat)
    requires |lines| > 1 && 0 < n && offset < |lines[0]| && offset + n <= |lines[0] + "\n" + more|
    requires '\n' !in lines[0] && '\n' !in (lines[0] + "\n" + more)[offset..offset + n]
    ensures FoundIn(lines, lines[0] + "\n" + more, offset, n)
  {
    var code := lines[0] + "\n" + more;
    FindInFirst(lines[0], more, offset, n);
    assert code[..offset] == lines[0][..offset];
    ColumnInFirst(code, offset);
  }

  lemma FoundInRest(lines: seq<string>, more: string, offset: nat, n: nat)
    requires |lines| > 1 && offset > |lines[0]| && offset + n <= |lines[0] + "\n" + more| && '\n' !in lines[0]
    requires FoundIn(lines[1..], more, offset - |lines[0]| - 1, n)
    ensures FoundIn(lines, lines[0] + "\n" + more, offset, n)
  {
    FindInRest(lines[0], more, offset, n);
    ColumnInRest(lines[0], more, offset);
  }

  lemma FoundInOnly(line: string, offset: nat, n: nat)
    requires offset + n <= |line| && '\n' !in line
    ensures FoundIn([line], line, offset, n)
  {
    forall c | c in line[..offset] ensures c != '\n' {
      assert c in line;
    }
    CountNone(line[..offset], '\n');
    ColumnInFirst(line, offset);
  }

  lemma NotTheBreak(code: string, offset: nat, n: nat, k: nat)
    requires 0 < n && offset + n <= |code| && '\n' !in code[offset..offset + n] && k < |code| && code[k] == '\n'
    ensures offset != k
  {
    assert code[offset..offset + n][0] == code[offset];
  }

  /** A stretch of joined lines without a newline lies in the line and at the column
      its offset says. */
  lemma {:induction false} FindInLines(lines: seq<string>, offset: nat, n: nat)
    requires forall line :: line in lines ==> '\n' !in line
    requires 0 < n && offset + n <= |JoinLines(lines)|
    requires '\n' !in JoinLines(lines)[offset..offset + n]
    ensures FoundIn(lines, JoinLines(lines), offset, n)
  {
    if |lines| == 1 {
      FoundInOnly(lines[0], offset, n);
      assert lines == [lines[0]];
    } else {
      var first, more := lines[0], JoinLines(lines[1..]);
      NotTheBreak(first + "\n" + more, offset, n, |first|);
      if offset < |first| {
        FoundInFirst(lines, more, offset, n);
      } else {
        FindInRest(first, more, offset, n);
        FindInLines(lines[1..], offset - |first| - 1, n);
        FoundInRest(lines, more, offset, n);
      }
    }
  }

  lemma PrefixSlices(a: string, b: string, from: nat, n: nat)
    requires a <= b && from + n <= |a|
    ensures from + n <= |b| && b[from..from + n] == a[from..from + n]
  {
  }

  lemma KeptStartsItsLine(lines: seq<string>)
    requires forall l :: l in lines ==> '\n' !in l
    ensures forall l :: l in KeptLines(lines) ==> '\n' !in l
    ensures forall k :: 0 <= k < |lines| ==> KeptLines(lines)[k] <= lines[k]
  {
    forall k | 0 <= k < |lines| ensures '\n' !in KeptLines(lines)[k] && KeptLines(lines)[k] <= lines[k] {
      assert lines[k] in lines;
    }
  }

  /** The same, in the lines of the source the code was stripped from. */
  lemma FindInSource(source: string, offset: nat, n: nat)
    requires 0 < n && offset + n <= |CodeOf(source)| && '\n' !in CodeOf(source)[offset..offset + n]
    ensures FoundIn(SplitLines(source), CodeOf(source), offset, n)
  {
    SourceLinesAreLines(source);
    var lines := SplitLines(source);
    KeptStartsItsLine(lines);
    FindInLines(KeptLines(lines), offset, n);
    var line, column := Newlines(CodeOf(source)[..offset]), ColumnOf(CodeOf(source), offset);
    PrefixSlices(KeptLines(lines)[line], lines[line], column, n);
  }

  // ── Tokens and their lines ─────────────────────────────────────────────────

  /** The token is the code at `offset`, and bears that place's line. */
  ghost predicate Sits(code: string, t: Token, offset: nat) {
    && t.value != "" && t.value[0] != '\n'
    && offset + |t.value| <= |code| && code[offset..offset + |t.value|] == t.value
    && t.line == 1 + Newlines(code[..offset])
  }

  /** One lexeme on: where the next begins, and where this one sits. */
  lemma LexemeSits(code: string, pos: nat, s: string, line: nat, m: Lexeme, after: string, line': nat)
    requires pos < |code| && s == code[pos..] && line == 1 + Newlines(code[..pos]) && FirstLexeme(s) == Some(m)
    requires after == s[m.length..] && line' == line + Newlines(s[..m.length])
    ensures pos + m.length <= |code| && after == code[pos + m.length..] && line' == 1 + Newlines(code[..pos + m.length])
    ensures m.kind != Ws ==> Sits(code, Token(m.kind, s[..m.length], line), pos)
  {
    var text := s[..m.length];
    assert code[..pos + m.length] == code[..pos] + text;
    CountAdds(code[..pos], text, '\n');
    assert text[0] == code[pos] && code[pos..pos + m.length] == text;
  }

  /** Each token at its own offset, none overlapping the next. */
  ghost predicate SitInOrder(code: string, ts: seq<Token>, offsets: seq<nat>, pos: nat) {
    && |ts| == |offsets| + 1
    && (forall i :: 0 <= i < |offsets| ==> offsets[i] >= pos && Sits(code, ts[i], offsets[i]))
    && (forall i, j :: 0 <= i < j < |offsets| ==> offsets[i] + |ts[i].value| <= offsets[j])
  }

  lemma SitFirst(code: string, t: Token, ts: seq<Token>, offsets: seq<nat>, pos: nat)
    requires Sits(code, t, pos) && SitInOrder(code, ts, offsets, pos + |t.value|)
    ensures SitInOrder(code, [t] + ts, [pos] + offsets, pos)
  {
    var ts', offsets' := [t] + ts, [pos] + offsets;
    forall i | 0 <= i < |offsets'| ensures offsets'[i] >= pos && Sits(code, ts'[i], offsets'[i]) {
      if i > 0 {
        assert ts'[i] == ts[i - 1] && offsets'[i] == offsets[i - 1];
      }
    }
    forall i, j | 0 <= i < j < |offsets'| ensures offsets'[i] + |ts'[i].value| <= offsets'[j] {
      assert offsets'[j] == offsets[j - 1];
      if i > 0 {
        assert ts'[i] == ts[i - 1] && offsets'[i] == offsets[i - 1];
      }
    }
  }

  /** Whitespace adds nothing, any other lexeme a token. */
  lemma SitStep(code: string, t: Token, later: seq<Token>, at: seq<nat>, pos: nat, n: nat) returns (offsets: seq<nat>)
    requires |t.value| == n && (t.kind != Ws ==> Sits(code, t, pos)) && SitInOrder(code, later, at, pos + n)
    ensures SitInOrder(code, (if t.kind == Ws then [] else [t]) + later, offsets, pos)
  {
    if t.kind == Ws {
      assert [] + later == later;
      offsets := at;
    } else {
      SitFirst(code, t, later, at, pos);
      offsets := [pos] + at;
    }
  }

  lemma NothingSits(code: string, line: nat, pos: nat)
    ensures SitInOrder(code, [Token(Eof, "", line)], [], pos)
  {
  }

  lemma {:induction false} TokensSit(code: string, pos: nat, s: string, line: nat) returns (offsets: seq<nat>)
    requires pos <= |code| && s == code[pos..] && line == 1 + Newlines(code[..pos]) && Lex(s, line).Ok?
    ensures SitInOrder(code, Lex(s, line).value, offsets, pos)
    decreases |s|
  {
    if s == [] || FirstLexeme(s).None? {
      LexStops(s, line);
      NothingSits(code, line, pos);
      offsets := [];
    } else {
      var m := FirstLexeme(s).value;
      var text := s[..m.length];
      var after, line' := s[m.length..], line + Newlines(text);
      LexemeSits(code, pos, s, line, m, after, line');
      LexStep(s, line, m);
      var later := TokensSit(code, pos + m.length, after, line');
      offsets := SitStep(code, Token(m.kind, text, line), Lex(after, line').value, later, pos, m.length);
    }
  }

  /** The token begins on the line it bears, at its offset's column, and unless it
      spans lines it is all there. */
  ghost predicate OnItsLine(lines: seq<string>, code: string, t: Token, offset: nat) {
    && Sits(code, t, offset)
    && 1 <= t.line <= |lines|
    && var line, column, n := lines[t.line - 1], ColumnOf(code, offset), |t.value|;
       && column < |line| && line[column] == t.value[0]
       && ('\n' !in t.value ==> column + n <= |line| && line[column..column + n] == t.value)
  }

  lemma FoundCharacter(lines: seq<string>, code: string, offset: nat, line: nat, column: nat)
    requires FoundIn(lines, code, offset, 1) && line == Newlines(code[..offset]) && column == ColumnOf(code, offset)
    ensures line < |lines| && column < |lines[line]| && lines[line][column] == code[offset]
  {
    assert lines[line][column..column + 1][0] == code[offset..offset + 1][0];
  }

  lemma FoundIsOnItsLine(lines: seq<string>, code: string, t: Token, offset: nat)
    requires Sits(code, t, offset)
    requires FoundIn(lines, code, offset, 1) && ('\n' !in t.value ==> FoundIn(lines, code, offset, |t.value|))
    ensures OnItsLine(lines, code, t, offset)
  {
    FoundCharacter(lines, code, offset, t.line - 1, ColumnOf(code, offset));
    assert t.value[0] == code[offset];
  }

  lemma SittingIsOnItsLine(source: string, code: string, t: Token, offset: nat)
    requires code == CodeOf(source) && Sits(code, t, offset)
    ensures OnItsLine(SplitLines(source), code, t, offset)
  {
    OneCharacter(code, offset);
    FindInSource(source, offset, 1);
    if '\n' !in t.value {
      FindInSource(source, offset, |t.value|);
    }
    FoundIsOnItsLine(SplitLines(source), code, t, offset);
  }

  lemma OneCharacter(code: string, offset: nat)
    requires offset < |code|
    ensures code[offset..offset + 1] == [code[offset]]
  {
  }

  /** For every source the tokenizer accepts: each token but the end of input begins
      on the line of the original source it bears, at the column of its own offset
      in the code, comments stripped or not; the offsets are in order and apart. */
  lemma TokensKeepTheirSourceLine(source: string) returns (offsets: seq<nat>)
    requires Lex(CodeOf(source), 1).Ok?
    ensures var ts := Lex(CodeOf(source), 1).value;
            && SitInOrder(CodeOf(source), ts, offsets, 0)
            && forall i :: 0 <= i < |ts| - 1 ==> OnItsLine(SplitLines(source), CodeOf(source), ts[i], offsets[i])
  {
    var code := CodeOf(source);
    assert code[..0] == [] && code[0..] == code;
    offsets := TokensSit(code, 0, code, 1);
    var ts := Lex(code, 1).value;
    forall i | 0 <= i < |ts| - 1 ensures OnItsLine(SplitLines(source), code, ts[i], offsets[i]) {
      SittingIsOnItsLine(source, code, ts[i], offsets[i]);
    }
  }

  lemma UnmatchedIsNoBreak(s: string)
    requires s != [] && FirstLexeme(s).None?
    ensures s[0] != '\n'
  {
  }

  lemma {:induction false} RestIsNoBreak(s: string)
    ensures Cut(s).1 != "" ==> Cut(s).1[0] != '\n'
    decreases |s|
  {
    if s != [] {
      if FirstLexeme(s).None? {
        UnmatchedIsNoBreak(s);
      } else {
        CutStep(s);
        RestIsNoBreak(s[FirstLexeme(s).value.length..]);
      }
    }
  }

  lemma ErrorSits(code: string) returns (offset: nat)
    requires Lex(code, 1).Err?
    ensures offset < |code| && code[offset] != '\n'
    ensures Lex(code, 1).error == UnexpectedCharacter(1 + Newlines(code[..offset]), code[offset])
  {
    var (pieces, rest) := Cut(code);
    TokensAreThePieces(code, 1);
    PiecesAreTheCode(code);
    RestIsNoBreak(code);
    offset := |Text(pieces)|;
    assert code[..offset] == Text(pieces) && code[offset] == rest[0];
  }

  /** An error that names a character, and a place of it on the line it names. */
  ghost predicate NamesItsLine(lines: seq<string>, e: LidlError, column: nat) {
    && e.UnexpectedCharacter? && 1 <= e.line <= |lines|
    && column < |lines[e.line - 1]| && lines[e.line - 1][column] == e.character
  }

  /** And where it accepts none: the error names a character of the source, on the
      line it is on. */
  lemma ErrorsKeepTheirSourceLine(source: string) returns (column: nat)
    requires Lex(CodeOf(source), 1).Err?
    ensures NamesItsLine(SplitLines(source), Lex(CodeOf(source), 1).error, column)
  {
    var code := CodeOf(source);
    var offset := ErrorSits(code);
    var line := Newlines(code[..offset]);
    column := ColumnOf(code, offset);
    OneCharacter(code, offset);
    FindInSource(source, offset, 1);
    FoundCharacter(SplitLines(source), code, offset, line, column);
    assert Lex(code, 1).error == UnexpectedCharacter(1 + line, code[offset]);
  }
}
