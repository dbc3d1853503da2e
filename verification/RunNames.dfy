/** The names of a run's log files, and the stamp a name carries. */
module RunNames {
  import opened Wrappers

  const STEM := "chat_module"
  const STAMP_LEN: nat := 15

  predicate IsDigit(c: char) {
    '0' <= c <= '9'
  }

  predicate AllDigits(s: string) {
    forall i :: 0 <= i < |s| ==> IsDigit(s[i])
  }

  /** `YYYYMMDD_HHMMSS`, as far as digits go. */
  predicate IsStamp(s: string) {
    |s| == STAMP_LEN && AllDigits(s[..8]) && s[8] == '_' && AllDigits(s[9..])
  }

  function StripPrefix(s: string, prefix: string): Option<string> {
    if prefix <= s then Some(s[|prefix|..]) else None
  }

  /** The parts before and after the first `sep`. */
  function SplitOnce(s: string, sep: char): Option<(string, string)> {
    if s == [] then None
    else if s[0] == sep then Some(([], s[1..]))
    else match SplitOnce(s[1..], sep)
      case None => None
      case Some((a, b)) => Some(([s[0]] + a, b))
  }

  /** What follows a stamp in a name: `.log`, or `.NNN.log` for a rotation. */
  predicate IsRunSuffix(suffix: string) {
    suffix == ".log" ||
    (|suffix| == 8 && suffix[0] == '.' && suffix[4..] == ".log" && AllDigits(suffix[1..4]))
  }

  /** Reads the stamp off a file name; `None` means the name is not of a run's shape. */
  function StampOf(fileName: string): Option<string> {
    match StripPrefix(fileName, STEM)
    case None => None
    case Some(afterStem) =>
      match StripPrefix(afterStem, "_")
      case None => None
      case Some(rest) =>
        if |rest| < STAMP_LEN then None else
        var stamp := rest[..STAMP_LEN];
        match SplitOnce(stamp, '_')
        case None => None
        case Some((date, time)) =>
          if |date| != 8 || |time| != 6 || !AllDigits(date) || !AllDigits(time) then None
          else if IsRunSuffix(rest[STAMP_LEN..]) then Some(stamp) else None
  }

  lemma {:induction false} SplitOnceFinds(s: string, sep: char)
    ensures match SplitOnce(s, sep)
            case None => sep !in s
            case Some((a, b)) => s == a + [sep] + b && sep !in a
  {
    if s != [] && s[0] != sep {
      SplitOnceFinds(s[1..], sep);
      match SplitOnce(s[1..], sep)
      case None =>
      case Some((a, b)) =>
        assert s == [s[0]] + s[1..] == ([s[0]] + a) + [sep] + b;
    }
  }

  lemma {:induction false} FirstSeparator(a: string, b: string, sep: char)
    requires sep !in a
    ensures SplitOnce(a + [sep] + b, sep) == Some((a, b))
  {
    var s := a + [sep] + b;
    if a == [] {
      assert s[1..] == b;
    } else {
      assert s[1..] == a[1..] + [sep] + b;
      FirstSeparator(a[1..], b, sep);
      assert [a[0]] + a[1..] == a;
    }
  }

  /** A stamp as `split_once` and the digit checks see it. */
  lemma StampSplits(stamp: string)
    requires |stamp| == STAMP_LEN
    ensures IsStamp(stamp) <==>
              match SplitOnce(stamp, '_')
              case None => false
              case Some((date, time)) => |date| == 8 && |time| == 6 && AllDigits(date) && AllDigits(time)
  {
    SplitOnceFinds(stamp, '_');
    if IsStamp(stamp) {
      assert forall i :: 0 <= i < 8 ==> IsDigit(stamp[..8][i]);
      FirstSeparator(stamp[..8], stamp[9..], '_');
      assert stamp == stamp[..8] + ['_'] + stamp[9..];
    } else {
      match SplitOnce(stamp, '_')
      case None =>
      case Some((date, time)) =>
        if |date| == 8 && |time| == 6 {
          assert stamp[..8] == date && stamp[9..] == time && stamp[8] == '_';
        }
    }
  }

  lemma StampOfSuffix(fileName: string, stamp: string)
    ensures StampOf(fileName) == Some(stamp) <==>
              IsStamp(stamp) && exists suffix :: IsRunSuffix(suffix) && fileName == STEM + "_" + stamp + suffix
  {
    if StampOf(fileName) == Some(stamp) {
      var rest := fileName[|STEM|..][1..];
      StampSplits(rest[..STAMP_LEN]);
      assert fileName == STEM + "_" + stamp + rest[STAMP_LEN..];
    }
    if IsStamp(stamp) && exists suffix :: IsRunSuffix(suffix) && fileName == STEM + "_" + stamp + suffix {
      var suffix :| IsRunSuffix(suffix) && fileName == STEM + "_" + stamp + suffix;
      StampOfName(stamp, suffix);
    }
  }

  /** Of a name with some other suffix it says nothing. */
  lemma StampOfName(stamp: string, suffix: string)
    requires IsStamp(stamp)
    ensures StampOf(STEM + "_" + stamp + suffix) == if IsRunSuffix(suffix) then Some(stamp) else None
  {
    var fileName := STEM + "_" + stamp + suffix;
    assert fileName == STEM + ("_" + stamp + suffix);
    assert STEM <= fileName;
    var afterStem := fileName[|STEM|..];
    assert afterStem == "_" + (stamp + suffix);
    assert "_" <= afterStem;
    var rest := afterStem[1..];
    assert rest == stamp + suffix;
    assert rest[..STAMP_LEN] == stamp && rest[STAMP_LEN..] == suffix;
    StampSplits(stamp);
  }

  /** Eight digits, an underscore and six digits. */
  predicate StampShape(stamp: string) {
    |stamp| == 15 && stamp[8] == '_' && forall i :: 0 <= i < 15 && i != 8 ==> '0' <= stamp[i] <= '9'
  }

  predicate ThreeDigits(d: string) {
    |d| == 3 && forall i :: 0 <= i < 3 ==> '0' <= d[i] <= '9'
  }

  /** The names of a run's files, written out. */
  ghost predicate IsRunFile(fileName: string, stamp: string) {
    && StampShape(stamp)
    && (|| fileName == "chat_module" + "_" + stamp + ".log"
        || exists d :: ThreeDigits(d) && fileName == "chat_module" + "_" + stamp + ("." + d + ".log"))
  }

  lemma ShapeOfStamps(stamp: string)
    ensures IsStamp(stamp) <==> StampShape(stamp)
  {
    if IsStamp(stamp) {
      forall i | 0 <= i < 15 && i != 8 ensures '0' <= stamp[i] <= '9' {
        assert IsDigit(if i < 8 then stamp[..8][i] else stamp[9..][i - 9]);
      }
    }
  }

  lemma ShapeOfSuffixes(suffix: string)
    ensures IsRunSuffix(suffix) <==> suffix == ".log" || exists d :: ThreeDigits(d) && suffix == "." + d + ".log"
  {
    if IsRunSuffix(suffix) && suffix != ".log" {
      var d := suffix[1..4];
      assert suffix == "." + d + ".log" && forall i :: 0 <= i < 3 ==> IsDigit(d[i]);
      assert ThreeDigits(d);
    }
    forall d | ThreeDigits(d) && suffix == "." + d + ".log" ensures IsRunSuffix(suffix) {
      assert suffix[1..4] == d && suffix[4..] == ".log";
    }
  }

  /** A stamp is read off exactly the names of run files, written out. */
  lemma StampOfIff(fileName: string, stamp: string)
    ensures StampOf(fileName) == Some(stamp) <==> IsRunFile(fileName, stamp)
  {
    StampOfSuffix(fileName, stamp);
    ShapeOfStamps(stamp);
    if StampOf(fileName) == Some(stamp) {
      var suffix :| IsRunSuffix(suffix) && fileName == STEM + "_" + stamp + suffix;
      ShapeOfSuffixes(suffix);
    }
    if IsRunFile(fileName, stamp) {
      if fileName == STEM + "_" + stamp + ".log" {
        ShapeOfSuffixes(".log");
      } else {
        var d :| ThreeDigits(d) && fileName == STEM + "_" + stamp + ("." + d + ".log");
        ShapeOfSuffixes("." + d + ".log");
      }
    }
  }

  // ── Rotation names ─────────────────────────────────────────────────────────

  function Digit(n: nat): char
    requires n < 10
  {
    '0' + n as char
  }

  function Decimal(n: nat): string {
    if n < 10 then [Digit(n)] else Decimal(n / 10) + [Digit(n % 10)]
  }

  /** At least three digits, as the rotation's format has it. */
  function Padded(n: nat): string {
    if n < 10 then "00" + Decimal(n) else if n < 100 then "0" + Decimal(n) else Decimal(n)
  }

  function LiveName(stamp: string): string {
    STEM + "_" + stamp + ".log"
  }

  function RotationSuffix(ordinal: nat): string {
    "." + Padded(ordinal) + ".log"
  }

  function RotationName(stamp: string, ordinal: nat): string {
    STEM + "_" + stamp + RotationSuffix(ordinal)
  }

  function ValueOf(s: string): nat
    requires AllDigits(s)
  {
    if s == [] then 0 else 10 * ValueOf(s[..|s| - 1]) + (s[|s| - 1] as nat - '0' as nat)
  }

  lemma {:induction false} DecimalReadsBack(n: nat)
    ensures AllDigits(Decimal(n)) && ValueOf(Decimal(n)) == n
    ensures |Decimal(n)| <= 3 <==> n <= 999
    ensures |Decimal(n)| <= 2 <==> n <= 99
    ensures |Decimal(n)| <= 1 <==> n <= 9
    ensures |Decimal(n)| > 0
  {
    if n >= 10 {
      DecimalReadsBack(n / 10);
      assert Decimal(n)[..|Decimal(n)| - 1] == Decimal(n / 10);
    } else {
      assert Decimal(n)[..0] == [];
    }
  }

  lemma ValueIgnoresLeadingZero(s: string)
    requires AllDigits(s)
    ensures AllDigits("0" + s) && ValueOf("0" + s) == ValueOf(s)
  {
    if s == [] {
      assert ("0" + s)[..0] == [];
    } else {
      ValueIgnoresLeadingZero(s[..|s| - 1]);
      assert ("0" + s)[..|s|] == "0" + s[..|s| - 1];
    }
  }

  lemma PaddedReadsBack(n: nat)
    ensures AllDigits(Padded(n)) && ValueOf(Padded(n)) == n
    ensures |Padded(n)| >= 3 && (|Padded(n)| == 3 <==> n <= 999)
  {
    DecimalReadsBack(n);
    ValueIgnoresLeadingZero(Decimal(n));
    ValueIgnoresLeadingZero("0" + Decimal(n));
    assert "00" + Decimal(n) == "0" + ("0" + Decimal(n));
  }

  /** A run's names, written out: the ordinal in decimal, with zeros before it only up
      to three digits. */
  lemma NamesAreSpelled(stamp: string, ordinal: nat)
    ensures LiveName(stamp) == "chat_module" + "_" + stamp + ".log"
    ensures var d := Padded(ordinal);
            && RotationName(stamp, ordinal) == "chat_module" + "_" + stamp + ("." + d + ".log")
            && AllDigits(d) && ValueOf(d) == ordinal && |d| >= 3 && (|d| == 3 <==> ordinal <= 999)
  {
    PaddedReadsBack(ordinal);
  }

  /** A rotation's file is attributed to its run exactly while its ordinal has
      three digits. */
  lemma RotationIsOursIff(stamp: string, ordinal: nat)
    requires IsStamp(stamp)
    ensures StampOf(RotationName(stamp, ordinal)) == if ordinal <= 999 then Some(stamp) else None
    ensures StampOf(LiveName(stamp)) == Some(stamp)
  {
    PaddedReadsBack(ordinal);
    var suffix := RotationSuffix(ordinal);
    StampOfName(stamp, suffix);
    StampOfName(stamp, ".log");
    var digits := Padded(ordinal);
    assert |suffix| == |digits| + 5 && suffix[0] == '.';
    assert suffix[1..1 + |digits|] == digits && suffix[1 + |digits|..] == ".log";
    if ordinal > 999 {
      assert |suffix| > 8;
    }
  }

  /** No two files of a run share a name. */
  lemma RotationNamesDiffer(stamp: string, a: nat, b: nat)
    requires a != b
    ensures RotationName(stamp, a) != RotationName(stamp, b)
    ensures RotationName(stamp, a) != LiveName(stamp)
  {
    PaddedReadsBack(a);
    PaddedReadsBack(b);
    var stem := STEM + "_" + stamp;
    assert RotationName(stamp, a)[|stem|..] == RotationSuffix(a);
    assert RotationName(stamp, b)[|stem|..] == RotationSuffix(b);
    assert RotationSuffix(a)[1..|RotationSuffix(a)| - 4] == Padded(a);
    assert RotationSuffix(b)[1..|RotationSuffix(b)| - 4] == Padded(b);
    assert |LiveName(stamp)| == |stem| + 4;
  }
}
