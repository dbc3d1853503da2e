/** The grammar as a table of rules, what a run of a rule looks at, and what it goes on with. */
module LidlTable {
  import opened Wrappers
  import opened LidlLexer
  import opened LidlParser

  // ── The grammar as a table ─────────────────────────────────────────────────

  datatype Part =
    | Type | ListType | MapType | Named
    | Params | Fields | Names | Signature
    | Body | TextItem | NamesItem | RecordItem | MethodItem | EventItem

  /** What may be asked of one token: nothing, a kind, a text, the name of a type, or to
      begin a declaration, which no token left does. */
  datatype Want = Any | A(kind: Kind) | This(text: string) | TypeName | Keyword

  /** A rule reads nothing, one token, one rule after another, one of two by the text of
      the next token, or a whole part. */
  datatype Rule =
    | Nothing
    | One(want: Want)
    | Seq(first: Rule, second: Rule)
    | If(text: string, yes: Rule, no: Rule)
    | All(part: Part)

  type Rules = Part -> Rule

  function KindOf(text: string): Kind {
    if text in {"(", ")", "[", "]", "{", "}", ":"} then Punct else Ident
  }

  /** What is wrong with a token. */
  function Fault(want: Want, t: Token): Option<LidlError> {
    match want
    case Any => if t.kind == Eof then Some(UnclosedModule) else None
    case A(kind) => if t.kind == kind && kind != Eof then None else Some(ExpectedKind(t.line, kind, t.value))
    case This(text) => if t.kind == KindOf(text) && t.value == text then None else Some(Expected(t.line, text, t.value))
    case TypeName => if t.kind == Ident then None else Some(ExpectedType(t.line, t.value))
    case Keyword => Some(if t.kind == Eof then UnclosedModule else UnexpectedDeclaration(t.line, t.value))
  }

  predicate Consumes(g: Rule) {
    match g
    case Nothing => false
    case One(_) => true
    case Seq(p, q) => Consumes(p) || Consumes(q)
    case If(_, p, q) => Consumes(p) && Consumes(q)
    case All(_) => true
  }

  /** The parts in the order in which one may begin with another. */
  function Rank(part: Part): nat {
    match part
    case Body => 60
    case TextItem => 50
    case NamesItem => 40
    case RecordItem | Type => 30
    case MethodItem | ListType | Params | Fields => 20
    case _ => 10
  }

  /** How far a rule goes before it has read a token. */
  function Size(g: Rule): nat {
    match g
    case Nothing => 1
    case One(_) => 1
    case Seq(p, q) => 1 + Size(p) + if Consumes(p) then 0 else Size(q)
    case If(_, p, q) => 1 + Size(p) + Size(q)
    case All(part) => Rank(part)
  }

  /** A part reads something, and begins with parts after it in the order alone. */
  ghost predicate Ranked(rules: Rules) {
    forall part :: Size(rules(part)) < Rank(part) && Consumes(rules(part))
  }

  /** Tokens that stop: the last is the end of input. */
  predicate Stops(ts: seq<Token>) {
    ts != [] && ts[|ts| - 1].kind == Eof
  }

  /** Where a rule is when it is through, or the wrong token it has come upon. */
  datatype Outcome = Outcome(at: nat, error: Option<LidlError>)

  function Run(rules: Rules, ts: seq<Token>, g: Rule, i: nat): (o: Outcome)
    requires Ranked(rules) && Stops(ts) && i < |ts|
    ensures i <= o.at < |ts| && (o.error.None? && Consumes(g) ==> i < o.at)
    decreases |ts| - i, Size(g), 1
  {
    match g
    case Nothing => Outcome(i, None)
    case One(want) =>
      var fault := Fault(want, ts[i]);
      if fault.None? then Outcome(i + 1, None) else Outcome(i, fault)
    case Seq(p, q) => RunOn(rules, ts, Run(rules, ts, p, i), q, g, i)
    case If(text, p, q) => if ts[i].value == text then Run(rules, ts, p, i) else Run(rules, ts, q, i)
    case All(part) => Run(rules, ts, rules(part), i)
  }

  function RunOn(rules: Rules, ts: seq<Token>, o: Outcome, q: Rule, g: Rule, i: nat): (o': Outcome)
    requires Ranked(rules) && Stops(ts) && i <= o.at < |ts|
    requires o.error.None? ==> i < o.at || Size(q) < Size(g)
    ensures o.at <= o'.at < |ts| && (o'.error.None? ==> o.error.None? && (Consumes(q) ==> o.at < o'.at))
    decreases |ts| - i, Size(g), 0
  {
    if o.error.Some? then o else Run(rules, ts, q, o.at)
  }

  lemma RunSeq(rules: Rules, ts: seq<Token>, p: Rule, q: Rule, i: nat)
    requires Ranked(rules) && Stops(ts) && i < |ts|
    ensures var o := Run(rules, ts, p, i);
            Run(rules, ts, Seq(p, q), i) == if o.error.Some? then o else Run(rules, ts, q, o.at)
  {
  }

  lemma RunIf(rules: Rules, ts: seq<Token>, text: string, p: Rule, q: Rule, i: nat)
    requires Ranked(rules) && Stops(ts) && i < |ts|
    ensures Run(rules, ts, If(text, p, q), i) == Run(rules, ts, if ts[i].value == text then p else q, i)
  {
  }

  lemma RunAll(rules: Rules, ts: seq<Token>, part: Part, i: nat)
    requires Ranked(rules) && Stops(ts) && i < |ts|
    ensures Run(rules, ts, All(part), i) == Run(rules, ts, rules(part), i)
  {
  }

  // ── What a run looks at ────────────────────────────────────────────────────

  /** Not one of the marks a rule may go on with or leave out. */
  predicate Calm(t: Token) {
    t.value !in {",", "->", "?"}
  }

  /** No rule asks for the end of input, and one that reads nothing has found no mark that
      may be left out. */
  predicate Optional(g: Rule) {
    match g
    case One(want) => want != A(Eof)
    case Seq(p, q) => Optional(p) && Optional(q)
    case If(text, p, q) =>
      Optional(p) && Optional(q) && Consumes(p) && (!Consumes(q) ==> text in {",", "->", "?"})
    case _ => true
  }

  ghost predicate Optionals(rules: Rules) {
    forall part :: Optional(rules(part))
  }

  /** An error is the fault of the token the run has come upon. */
  lemma {:induction false} ErrorIsAFault(rules: Rules, ts: seq<Token>, g: Rule, i: nat) returns (want: Want)
    requires Ranked(rules) && Optionals(rules) && Optional(g)
    requires Stops(ts) && i < |ts| && Run(rules, ts, g, i).error.Some?
    ensures var o := Run(rules, ts, g, i); want != A(Eof) && o.error == Fault(want, ts[o.at])
    decreases |ts| - i, Size(g)
  {
    match g
    case One(w) => want := w;
    case Seq(p, q) =>
      RunSeq(rules, ts, p, q, i);
      if Run(rules, ts, p, i).error.Some? {
        want := ErrorIsAFault(rules, ts, p, i);
      } else {
        want := ErrorIsAFault(rules, ts, q, Run(rules, ts, p, i).at);
      }
    case If(text, p, q) =>
      RunIf(rules, ts, text, p, q, i);
      want := ErrorIsAFault(rules, ts, if ts[i].value == text then p else q, i);
    case All(part) =>
      RunAll(rules, ts, part, i);
      want := ErrorIsAFault(rules, ts, rules(part), i);
  }

  /** `b` is `ts` as far as the run from `i` to `o` goes; the token after it may be
      another one, when nothing is wrong and it is no mark to go on with. */
  ghost predicate SameFor(ts: seq<Token>, b: seq<Token>, i: nat, o: Outcome) {
    && o.at < |ts| && o.at < |b| && (forall k :: i <= k < o.at ==> ts[k] == b[k])
    && (ts[o.at] == b[o.at] || (o.error.None? && Calm(b[o.at])))
  }

  /** A run looks no further than the token it ends before. */
  lemma {:induction false} SameRun(rules: Rules, ts: seq<Token>, b: seq<Token>, g: Rule, i: nat)
    requires Ranked(rules) && Optionals(rules) && Stops(ts) && Stops(b) && i < |ts| && Optional(g)
    requires SameFor(ts, b, i, Run(rules, ts, g, i))
    ensures i < |b| && Run(rules, b, g, i) == Run(rules, ts, g, i)
    decreases |ts| - i, Size(g)
  {
    var o := Run(rules, ts, g, i);
    match g
    case Nothing =>
    case One(w) =>
    case Seq(p, q) =>
      RunSeq(rules, ts, p, q, i);
      var o1 := Run(rules, ts, p, i);
      assert SameFor(ts, b, i, o1);
      SameRun(rules, ts, b, p, i);
      RunSeq(rules, b, p, q, i);
      if o1.error.None? {
        SameRun(rules, ts, b, q, o1.at);
      }
    case If(text, p, q) =>
      RunIf(rules, ts, text, p, q, i);
      RunIf(rules, b, text, p, q, i);
      SameRun(rules, ts, b, if ts[i].value == text then p else q, i);
    case All(part) =>
      RunAll(rules, ts, part, i);
      RunAll(rules, b, part, i);
      SameRun(rules, ts, b, rules(part), i);
  }

  // ── What a run goes on with ────────────────────────────────────────────────

  /** A token that will do. */
  function Sample(want: Want): Token {
    match want
    case A(kind) => Token(kind, if kind == Str then "\"\"" else "x", 0)
    case This(text) => Token(KindOf(text), text, 0)
    case _ => Token(Ident, "x", 0)
  }

  type Samples = Part -> seq<Token>

  /** The shortest that a rule reads. */
  function Least(samples: Samples, g: Rule): seq<Token> {
    match g
    case Nothing => []
    case One(want) => [Sample(want)]
    case Seq(p, q) => Least(samples, p) + Least(samples, q)
    case If(text, p, q) =>
      if !Consumes(q) then []
      else if p == One(Any) then [Token(KindOf(text), text, 0)]
      else if q == One(Keyword) then Least(samples, p)
      else Least(samples, q)
    case All(part) => samples(part)
  }

  ghost predicate StartsOn(tokens: seq<Token>, text: string) {
    tokens != [] && tokens[0].value == text
  }

  /** A rule whose least tokens it reads: each wants some token there is, and an `If`
      begins as its own branch does. */
  ghost predicate Neat(samples: Samples, g: Rule) {
    match g
    case Nothing => true
    case One(want) => want != Keyword && want != A(Eof) && Calm(Sample(want))
    case Seq(p, q) => Neat(samples, p) && Neat(samples, q)
    case If(text, p, q) =>
      && Neat(samples, p) && (q == One(Keyword) || Neat(samples, q))
      && (!Consumes(q) ==> q == Nothing && text in {",", "->", "?"})
      && (Consumes(q) && p == One(Any) ==> text != "" && Calm(Token(Ident, text, 0)))
      && (p != One(Any) && q == One(Keyword) ==> StartsOn(Least(samples, p), text))
      && (p != One(Any) && q != One(Keyword) && Consumes(q) ==>
            Least(samples, q) != [] && !StartsOn(Least(samples, q), text))
    case All(_) => true
  }

  ghost predicate NoEnd(tokens: seq<Token>) {
    forall k :: 0 <= k < |tokens| ==> tokens[k].kind != Eof
  }

  ghost predicate Sampled(rules: Rules, samples: Samples) {
    forall part :: Neat(samples, rules(part)) && samples(part) == Least(samples, rules(part))
                   && samples(part) != [] && Calm(samples(part)[0]) && NoEnd(samples(part))
  }

  lemma {:induction false} LeastIsCalm(rules: Rules, samples: Samples, g: Rule)
    requires Sampled(rules, samples) && Neat(samples, g)
    ensures Least(samples, g) != [] ==> Calm(Least(samples, g)[0])
  {
    match g
    case Nothing =>
    case One(_) =>
    case Seq(p, q) =>
      LeastIsCalm(rules, samples, p);
      LeastIsCalm(rules, samples, q);
    case If(text, p, q) =>
      LeastIsCalm(rules, samples, p);
      if q != One(Keyword) {
        LeastIsCalm(rules, samples, q);
      }
    case All(part) =>
  }

  lemma {:induction false} LeastHasNoEnd(rules: Rules, samples: Samples, g: Rule)
    requires Sampled(rules, samples) && Neat(samples, g)
    ensures NoEnd(Least(samples, g))
  {
    match g
    case Nothing =>
    case One(_) =>
    case Seq(p, q) =>
      LeastHasNoEnd(rules, samples, p);
      LeastHasNoEnd(rules, samples, q);
    case If(text, p, q) =>
      LeastHasNoEnd(rules, samples, p);
      if q != One(Keyword) {
        LeastHasNoEnd(rules, samples, q);
      }
    case All(part) =>
  }

  /** From `i` on, `b` is `tokens` and then `more`, which is no mark to go on with. */
  ghost predicate GoesOn(b: seq<Token>, i: nat, tokens: seq<Token>, more: seq<Token>) {
    Stops(b) && more != [] && Calm(more[0]) && i + |tokens| + |more| == |b| && b[i..] == tokens + more
  }

  lemma GoesOnSplit(b: seq<Token>, i: nat, first: seq<Token>, second: seq<Token>, more: seq<Token>)
    requires GoesOn(b, i, first + second, more) && (second != [] ==> Calm(second[0]))
    ensures GoesOn(b, i, first, second + more) && GoesOn(b, i + |first|, second, more)
  {
    assert (first + second) + more == first + (second + more);
    assert b[i + |first|..] == b[i..][|first|..];
  }

  /** A rule reads its least tokens, whatever calm token comes after them. */
  lemma {:induction false} LeastRuns(rules: Rules, samples: Samples, b: seq<Token>, g: Rule, i: nat, more: seq<Token>)
    requires Ranked(rules) && Sampled(rules, samples) && Neat(samples, g)
    requires GoesOn(b, i, Least(samples, g), more)
    ensures Run(rules, b, g, i) == Outcome(|b| - |more|, None)
    decreases |b| - i, Size(g), 1
  {
    assert b[i] == b[i..][0];
    match g
    case Nothing =>
    case One(_) =>
    case Seq(_, _) => LeastOfSeq(rules, samples, b, g, i, more);
    case If(_, _, _) => LeastOfIf(rules, samples, b, g, i, more);
    case All(part) =>
      RunAll(rules, b, part, i);
      LeastRuns(rules, samples, b, rules(part), i, more);
  }

  lemma {:induction false} LeastOfSeq(rules: Rules, samples: Samples, b: seq<Token>, g: Rule, i: nat, more: seq<Token>)
    requires g.Seq?
    requires Ranked(rules) && Sampled(rules, samples) && Neat(samples, g)
    requires GoesOn(b, i, Least(samples, g), more)
    ensures Run(rules, b, g, i) == Outcome(|b| - |more|, None)
    decreases |b| - i, Size(g), 0
  {
    var p, q := g.first, g.second;
    var first, second := Least(samples, p), Least(samples, q);
    LeastIsCalm(rules, samples, q);
    GoesOnSplit(b, i, first, second, more);
    LeastRuns(rules, samples, b, p, i, second + more);
    LeastRuns(rules, samples, b, q, i + |first|, more);
    RunSeq(rules, b, p, q, i);
  }

  lemma {:induction false} LeastOfIf(rules: Rules, samples: Samples, b: seq<Token>, g: Rule, i: nat, more: seq<Token>)
    requires g.If?
    requires Ranked(rules) && Sampled(rules, samples) && Neat(samples, g)
    requires GoesOn(b, i, Least(samples, g), more)
    ensures Run(rules, b, g, i) == Outcome(|b| - |more|, None)
    decreases |b| - i, Size(g), 0
  {
    var p, q := g.yes, g.no;
    assert b[i] == b[i..][0];
    RunIf(rules, b, g.text, p, q, i);
    if Consumes(q) && p != One(Any) {
      LeastRuns(rules, samples, b, if q == One(Keyword) then p else q, i, more);
    }
  }

  /** What to put after the tokens before the wrong one. */
  function Repair(rules: Rules, samples: Samples, ts: seq<Token>, g: Rule, i: nat): seq<Token>
    requires Ranked(rules) && Stops(ts) && i < |ts|
    decreases |ts| - i, Size(g)
  {
    match g
    case Seq(p, q) =>
      var o := Run(rules, ts, p, i);
      if o.error.Some? then Repair(rules, samples, ts, p, i) + Least(samples, q)
      else Repair(rules, samples, ts, q, o.at)
    case If(text, p, q) =>
      var branch := if ts[i].value == text then p else q;
      if Run(rules, ts, branch, i).at == i then Least(samples, g) else Repair(rules, samples, ts, branch, i)
    case All(part) => Repair(rules, samples, ts, rules(part), i)
    case _ => Least(samples, g)
  }

  lemma {:induction false} RepairIsCalm(rules: Rules, samples: Samples, ts: seq<Token>, g: Rule, i: nat)
    requires Ranked(rules) && Sampled(rules, samples) && Neat(samples, g) && Stops(ts) && i < |ts|
    requires Run(rules, ts, g, i).error.Some?
    ensures var r := Repair(rules, samples, ts, g, i); r != [] ==> Calm(r[0])
    decreases |ts| - i, Size(g)
  {
    LeastIsCalm(rules, samples, g);
    match g
    case Nothing =>
    case One(_) =>
    case Seq(p, q) =>
      RunSeq(rules, ts, p, q, i);
      LeastIsCalm(rules, samples, q);
      if Run(rules, ts, p, i).error.Some? {
        RepairIsCalm(rules, samples, ts, p, i);
      } else {
        RepairIsCalm(rules, samples, ts, q, Run(rules, ts, p, i).at);
      }
    case If(text, p, q) =>
      RunIf(rules, ts, text, p, q, i);
      var branch := if ts[i].value == text then p else q;
      if Run(rules, ts, branch, i).at > i {
        RepairIsCalm(rules, samples, ts, branch, i);
      }
    case All(part) =>
      RunAll(rules, ts, part, i);
      RepairIsCalm(rules, samples, ts, rules(part), i);
  }

  lemma {:induction false} RepairHasNoEnd(rules: Rules, samples: Samples, ts: seq<Token>, g: Rule, i: nat)
    requires Ranked(rules) && Sampled(rules, samples) && Neat(samples, g) && Stops(ts) && i < |ts|
    requires Run(rules, ts, g, i).error.Some?
    ensures NoEnd(Repair(rules, samples, ts, g, i))
    decreases |ts| - i, Size(g)
  {
    LeastHasNoEnd(rules, samples, g);
    match g
    case Nothing =>
    case One(_) =>
    case Seq(p, q) =>
      RunSeq(rules, ts, p, q, i);
      LeastHasNoEnd(rules, samples, q);
      if Run(rules, ts, p, i).error.Some? {
        RepairHasNoEnd(rules, samples, ts, p, i);
      } else {
        RepairHasNoEnd(rules, samples, ts, q, Run(rules, ts, p, i).at);
      }
    case If(text, p, q) =>
      RunIf(rules, ts, text, p, q, i);
      var branch := if ts[i].value == text then p else q;
      if Run(rules, ts, branch, i).at > i {
        RepairHasNoEnd(rules, samples, ts, branch, i);
      }
    case All(part) =>
      RunAll(rules, ts, part, i);
      RepairHasNoEnd(rules, samples, ts, rules(part), i);
  }

  /** `b` is `ts` up to the wrong token, then `tokens`, then `more`. */
  ghost predicate Mended(ts: seq<Token>, b: seq<Token>, at: nat, tokens: seq<Token>, more: seq<Token>) {
    at < |ts| && GoesOn(b, at, tokens, more) && ts[..at] == b[..at]
  }

  /** With the repair in place of the wrong token and what came after it, the rule reads
      up to what comes next. */
  lemma {:induction false} RepairRuns(rules: Rules, samples: Samples, ts: seq<Token>, b: seq<Token>, g: Rule, i: nat,
                                      more: seq<Token>)
    requires Ranked(rules) && Optionals(rules) && Sampled(rules, samples) && Optional(g) && Neat(samples, g)
    requires Stops(ts) && i < |ts| && Run(rules, ts, g, i).error.Some?
    requires Mended(ts, b, Run(rules, ts, g, i).at, Repair(rules, samples, ts, g, i), more)
    ensures Run(rules, b, g, i) == Outcome(|b| - |more|, None)
    decreases |ts| - i, Size(g), 1
  {
    match g
    case One(_) =>
      LeastRuns(rules, samples, b, g, i, more);
    case Seq(_, _) =>
      RepairedSeq(rules, samples, ts, b, g, i, more);
    case If(_, _, _) =>
      RepairedIf(rules, samples, ts, b, g, i, more);
    case All(part) =>
      RunAll(rules, ts, part, i);
      RepairRuns(rules, samples, ts, b, rules(part), i, more);
      RunAll(rules, b, part, i);
  }

  lemma {:induction false} RepairedSeq(rules: Rules, samples: Samples, ts: seq<Token>, b: seq<Token>, g: Rule, i: nat,
                                       more: seq<Token>)
    requires g.Seq?
    requires Ranked(rules) && Optionals(rules) && Sampled(rules, samples) && Optional(g) && Neat(samples, g)
    requires Stops(ts) && i < |ts| && Run(rules, ts, g, i).error.Some?
    requires Mended(ts, b, Run(rules, ts, g, i).at, Repair(rules, samples, ts, g, i), more)
    ensures Run(rules, b, g, i) == Outcome(|b| - |more|, None)
    decreases |ts| - i, Size(g), 0
  {
    var p, q := g.first, g.second;
    RunSeq(rules, ts, p, q, i);
    var o := Run(rules, ts, p, i);
    if o.error.Some? {
      var first, second := Repair(rules, samples, ts, p, i), Least(samples, q);
      LeastIsCalm(rules, samples, q);
      GoesOnSplit(b, o.at, first, second, more);
      RepairRuns(rules, samples, ts, b, p, i, second + more);
      LeastRuns(rules, samples, b, q, o.at + |first|, more);
    } else {
      RepairIsCalm(rules, samples, ts, q, o.at);
      MendedRun(rules, ts, b, p, i, Run(rules, ts, q, o.at).at, Repair(rules, samples, ts, q, o.at), more);
      RepairRuns(rules, samples, ts, b, q, o.at, more);
    }
    RunSeq(rules, b, p, q, i);
  }

  lemma {:induction false} RepairedIf(rules: Rules, samples: Samples, ts: seq<Token>, b: seq<Token>, g: Rule, i: nat,
                                      more: seq<Token>)
    requires g.If?
    requires Ranked(rules) && Optionals(rules) && Sampled(rules, samples) && Optional(g) && Neat(samples, g)
    requires Stops(ts) && i < |ts| && Run(rules, ts, g, i).error.Some?
    requires Mended(ts, b, Run(rules, ts, g, i).at, Repair(rules, samples, ts, g, i), more)
    ensures Run(rules, b, g, i) == Outcome(|b| - |more|, None)
    decreases |ts| - i, Size(g), 0
  {
    var n := Run(rules, ts, g, i).at;
    var branch := if ts[i].value == g.text then g.yes else g.no;
    RunIf(rules, ts, g.text, g.yes, g.no, i);
    if n == i {
      LeastRuns(rules, samples, b, g, i, more);
    } else {
      assert ts[..n][i] == b[..n][i];
      RepairRuns(rules, samples, ts, b, branch, i, more);
      RunIf(rules, b, g.text, g.yes, g.no, i);
    }
  }

  lemma MendedIsSame(ts: seq<Token>, b: seq<Token>, i: nat, o: Outcome, n: nat, tokens: seq<Token>, more: seq<Token>)
    requires Mended(ts, b, n, tokens, more) && (tokens != [] ==> Calm(tokens[0]))
    requires o.at <= n && o.error.None?
    ensures SameFor(ts, b, i, o)
  {
    forall k | 0 <= k < n ensures ts[k] == b[k] {
      assert ts[..n][k] == b[..n][k];
    }
    assert b[n] == b[n..][0] == (tokens + more)[0];
  }

  /** What was read before the wrong token is read again. */
  lemma MendedRun(rules: Rules, ts: seq<Token>, b: seq<Token>, p: Rule, i: nat, n: nat, tokens: seq<Token>,
                  more: seq<Token>)
    requires Ranked(rules) && Optionals(rules) && Optional(p) && Stops(ts) && i < |ts|
    requires Mended(ts, b, n, tokens, more) && (tokens != [] ==> Calm(tokens[0]))
    requires Run(rules, ts, p, i).error.None? && Run(rules, ts, p, i).at <= n
    ensures i < |b| && Run(rules, b, p, i) == Run(rules, ts, p, i)
  {
    MendedIsSame(ts, b, i, Run(rules, ts, p, i), n, tokens, more);
    SameRun(rules, ts, b, p, i);
  }

  // ── LIDL ───────────────────────────────────────────────────────────────────

  const LIST := Seq(All(Type), One(This("]")))

  const MAP := Seq(All(Type), Seq(One(This(":")), Seq(All(Type), One(This("}")))))

  const ENTRY := Seq(One(This(":")), All(Type))

  const OPENING := Seq(One(This("(")), All(Params))

  const COMMA := If(",", One(Any), Nothing)

  const ATTRIBUTE := Seq(One(Any), One(A(Str)))

  const NAMES := Seq(One(Any), Seq(One(This("[")), All(Names)))

  const RESULT := If("->", Seq(One(Any), All(Type)), Nothing)

  const RECORD := Seq(One(A(Ident)), Seq(One(This("{")), All(Fields)))

  const HEAD := Seq(One(This("module")), Seq(One(A(Ident)), One(This("{"))))

  const MODULE := Seq(HEAD, All(Body))

  function RuleOf(part: Part): Rule {
    match part
    case Type => If("?", Seq(One(Any), All(Type)), All(ListType))
    case ListType => If("[", Seq(One(Any), LIST), All(MapType))
    case MapType => If("{", Seq(One(Any), MAP), One(TypeName))
    case Named => Seq(One(A(Ident)), ENTRY)
    case Signature => Seq(One(A(Ident)), OPENING)
    case Params => If(")", One(Any), Seq(All(Named), Seq(COMMA, All(Params))))
    case Fields => If("}", One(Any), Seq(If("?", One(Any), Nothing), Seq(All(Named), All(Fields))))
    case Names => If("]", One(Any), Seq(One(A(Ident)), Seq(COMMA, All(Names))))
    case Body => If("}", One(Any), Seq(All(TextItem), All(Body)))
    case TextItem => If("version", ATTRIBUTE, If("description", ATTRIBUTE, If("category", ATTRIBUTE, All(NamesItem))))
    case NamesItem => If("depends", NAMES, If("optional_depends", NAMES, All(RecordItem)))
    case RecordItem => If("type", Seq(One(This("type")), RECORD), All(MethodItem))
    case MethodItem => If("method", Seq(One(This("method")), Seq(All(Signature), RESULT)), All(EventItem))
    case EventItem => If("event", Seq(One(This("event")), All(Signature)), One(Keyword))
  }

  function SampleOf(part: Part): seq<Token> {
    match part
    case Type | ListType | MapType => [Token(Ident, "x", 0)]
    case Named => [Token(Ident, "x", 0), Token(Punct, ":", 0), Token(Ident, "x", 0)]
    case Signature => [Token(Ident, "x", 0), Token(Punct, "(", 0), Token(Punct, ")", 0)]
    case Params => [Token(Punct, ")", 0)]
    case Names => [Token(Punct, "]", 0)]
    case Fields | Body => [Token(Punct, "}", 0)]
    case _ => [Token(Ident, "event", 0), Token(Ident, "x", 0), Token(Punct, "(", 0), Token(Punct, ")", 0)]
  }

  ghost predicate NeatPart(rules: Rules, samples: Samples, part: Part) {
    && Size(rules(part)) < Rank(part) && Consumes(rules(part)) && Optional(rules(part)) && Neat(samples, rules(part))
    && samples(part) == Least(samples, rules(part)) && samples(part) != [] && Calm(samples(part)[0])
    && NoEnd(samples(part))
  }

  lemma NeatPartsAreNeat(rules: Rules, samples: Samples)
    requires forall part :: NeatPart(rules, samples, part)
    ensures Ranked(rules) && Optionals(rules) && Sampled(rules, samples)
  {
    forall part
      ensures Size(rules(part)) < Rank(part) && Consumes(rules(part)) && Optional(rules(part))
      ensures Neat(samples, rules(part)) && samples(part) == Least(samples, rules(part))
      ensures samples(part) != [] && Calm(samples(part)[0]) && NoEnd(samples(part))
    {
      assert NeatPart(rules, samples, part);
    }
  }

  lemma ForEachPart(p: Part -> bool)
    requires p(Type) && p(ListType) && p(MapType) && p(Named) && p(Params) && p(Fields) && p(Names) && p(Signature) && p(Body)
    requires p(TextItem) && p(NamesItem) && p(RecordItem) && p(MethodItem) && p(EventItem)
    ensures forall part :: p(part)
  {
    forall part ensures p(part) {
      match part
      case Type => case ListType => case MapType => case Named => case Params => case Fields => case Names =>
      case Signature => case Body =>
      case TextItem => case NamesItem => case RecordItem => case MethodItem => case EventItem =>
    }
  }

  lemma TypeIsNeat()
    ensures NeatPart(RuleOf, SampleOf, Type)
  {
  }

  lemma ListTypeIsNeat()
    ensures NeatPart(RuleOf, SampleOf, ListType)
  {
  }

  lemma MapTypeIsNeat()
    ensures NeatPart(RuleOf, SampleOf, MapType)
  {
  }

  lemma NamedIsNeat()
    ensures NeatPart(RuleOf, SampleOf, Named)
  {
  }

  lemma SignatureIsNeat()
    ensures NeatPart(RuleOf, SampleOf, Signature)
  {
  }

  lemma ParamsIsNeat()
    ensures NeatPart(RuleOf, SampleOf, Params)
  {
  }

  lemma FieldsIsNeat()
    ensures NeatPart(RuleOf, SampleOf, Fields)
  {
  }

  lemma NamesIsNeat()
    ensures NeatPart(RuleOf, SampleOf, Names)
  {
  }

  lemma BodyIsNeat()
    ensures NeatPart(RuleOf, SampleOf, Body)
  {
  }

  lemma TextItemIsNeat()
    ensures NeatPart(RuleOf, SampleOf, TextItem)
  {
  }

  lemma NamesItemIsNeat()
    ensures NeatPart(RuleOf, SampleOf, NamesItem)
  {
  }

  lemma RecordItemIsNeat()
    ensures NeatPart(RuleOf, SampleOf, RecordItem)
  {
  }

  lemma MethodItemIsNeat()
    ensures NeatPart(RuleOf, SampleOf, MethodItem)
  {
  }

  lemma EventItemIsNeat()
    ensures NeatPart(RuleOf, SampleOf, EventItem)
  {
  }

  lemma TableIsNeat()
    ensures Ranked(RuleOf) && Optionals(RuleOf) && Sampled(RuleOf, SampleOf)
  {
    TypeIsNeat();
    ListTypeIsNeat();
    MapTypeIsNeat();
    NamedIsNeat();
    SignatureIsNeat();
    ParamsIsNeat();
    FieldsIsNeat();
    NamesIsNeat();
    BodyIsNeat();
    TextItemIsNeat();
    NamesItemIsNeat();
    RecordItemIsNeat();
    MethodItemIsNeat();
    EventItemIsNeat();
    var neat: Part -> bool := part => NeatPart(RuleOf, SampleOf, part);
    ForEachPart(neat);
    forall part ensures NeatPart(RuleOf, SampleOf, part) {
      assert neat(part);
    }
    NeatPartsAreNeat(RuleOf, SampleOf);
  }
}
