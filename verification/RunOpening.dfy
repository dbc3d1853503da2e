/** Opening a run's log: the file first, the pruning of old runs after it. */
module RunOpening {
  import opened Wrappers
  import opened RunNames
  import opened RunLog
  import opened Pruning

  /** The directory's names once the run's file was opened and the runs pruned;
      `refused` are the files the system will not delete. */
  function AfterOpening(names: set<string>, stamp: string, readable: bool, refused: set<string>): set<string> {
    var names' := names + {LiveName(stamp)};
    if readable then names' - (Doomed(StampOf, names') - refused) else names'
  }

  /** Fewer than ten runs of the directory sort above the one that opens, or its file
      cannot be deleted. */
  predicate KeepsItsFile(names: set<string>, stamp: string, readable: bool, refused: set<string>) {
    !readable || LiveName(stamp) in refused || |Above(Stamps(StampOf, names), stamp)| < KEEP_RUNS
  }

  lemma OpeningAddsNothingAbove(names: set<string>, stamp: string)
    requires IsStamp(stamp)
    ensures Above(Stamps(StampOf, names + {LiveName(stamp)}), stamp) == Above(Stamps(StampOf, names), stamp)
  {
    RotationIsOursIff(stamp, 0);
    LessIsIrreflexive(stamp);
    var names' := names + {LiveName(stamp)};
    assert Stamps(StampOf, names') == Stamps(StampOf, names) + {stamp} by {
      assert LiveName(stamp) in names';
    }
  }

  /** Pruning after the opening keeps the opened file exactly then. */
  lemma OpeningKeepsItsFileIff(names: set<string>, stamp: string, readable: bool, refused: set<string>)
    requires IsStamp(stamp)
    ensures LiveName(stamp) in AfterOpening(names, stamp, readable, refused) <==> KeepsItsFile(names, stamp, readable, refused)
  {
    RunsGoWhole(names + {LiveName(stamp)}, stamp);
    OpeningAddsNothingAbove(names, stamp);
  }

  /** `content` is what the run's file held before, of an earlier run that opened in
      the same second. */
  method Open(directory: LogDirectory, stamp: string, content: seq<byte>, readable: bool, refused: set<string>)
    returns (log: OpenLog)
    requires IsStamp(stamp)
    modifies directory
    ensures directory.names == AfterOpening(old(directory.names), stamp, readable, refused)
    ensures fresh(log) && fresh(log.directory)
    ensures log.View() == Opened(content, KeepsItsFile(old(directory.names), stamp, readable, refused))
  {
    OpeningKeepsItsFileIff(directory.names, stamp, readable, refused);
    directory.CreateFile(LiveName(stamp));
    directory.PruneRuns(readable, refused);
    var kept := LiveName(stamp) in directory.names;
    var own := new Directory(if kept then map[Live := content] else map[]);
    log := new OpenLog(own);
  }

  /** In every directory and over every run: the announced path names the file being
      written exactly when fewer than ten runs there sorted above this one as it
      opened, or its file was not deleted, and no append lost the path; and what
      was written is in the run's files exactly then, or not at all. */
  lemma AnnouncedFromTheOpening(names: set<string>, stamp: string, readable: bool, refused: set<string>,
                                content: seq<byte>, appends: seq<Append>)
    requires IsStamp(stamp)
    ensures var keeps := KeepsItsFile(names, stamp, readable, refused);
            var log := AfterAll(Opened(content, LiveName(stamp) in AfterOpening(names, stamp, readable, refused)), appends);
            && (log.file == Some(Live) <==> keeps && NeverLosesThePath(Opened(content, true), appends))
            && RunBytes(log) == if keeps then content + AllWritten(appends) else []
  {
    OpeningKeepsItsFileIff(names, stamp, readable, refused);
    var keeps := KeepsItsFile(names, stamp, readable, refused);
    AnnouncedPathIsWrittenIff(content, keeps, appends);
    NothingIsLost(content, keeps, appends);
  }

  // ── A run that prunes itself ───────────────────────────────────────────────

  /** What `stamps`, opened one after another, leave of a directory. */
  function OpenedAll(names: set<string>, stamps: seq<string>): set<string>
    decreases |stamps|
  {
    if stamps == [] then names
    else AfterOpening(OpenedAll(names, stamps[..|stamps| - 1]), stamps[|stamps| - 1], true, {})
  }

  lemma TenRunsAreKept(names: set<string>)
    requires |Stamps(StampOf, names)| <= KEEP_RUNS
    ensures Doomed(StampOf, names) == {}
  {
    var stamps := Stamps(StampOf, names);
    forall name | name in names && StampOf(name).Some? ensures |Above(stamps, StampOf(name).value)| < KEEP_RUNS {
      var stamp := StampOf(name).value;
      LessIsIrreflexive(stamp);
      assert stamp in stamps;
      SubsetIsSmaller(Above(stamps, stamp), stamps - {stamp});
    }
  }

  const MORNING := "20260102_00000"

  /** The stamps of ten runs within ten seconds. */
  function Later(k: nat): string
    requires k < 10
  {
    MORNING + [Digit(k)]
  }

  const EARLIER := "20260101_000000"

  lemma LaterIsAStamp(k: nat)
    requires k < 10
    ensures IsStamp(Later(k))
  {
  }

  lemma EarlierIsLess(k: nat)
    requires k < 10
    ensures Less(EARLIER, Later(k))
  {
    var day, a, b := "2026010", "1_000000", "2_00000" + [Digit(k)];
    LessByParts(day, a, day, b);
    assert EARLIER == day + a && Later(k) == day + b;
  }

  lemma LaterDiffers(j: nat, k: nat)
    requires j < 10 && k < 10 && Later(j) == Later(k)
    ensures j == k
  {
    assert Later(j)[|MORNING|] == Digit(j) && Later(k)[|MORNING|] == Digit(k);
  }

  function LaterStamps(n: nat): set<string>
    requires n <= 10
  {
    set k: nat | k < n :: Later(k)
  }

  function LaterNames(n: nat): set<string>
    requires n <= 10
  {
    set k: nat | k < n :: LiveName(Later(k))
  }

  lemma {:induction false} LaterStampsAreMany(n: nat)
    requires n <= 10
    ensures |LaterStamps(n)| == n
  {
    if n > 0 {
      LaterStampsAreMany(n - 1);
      if Later(n - 1) in LaterStamps(n - 1) {
        var k: nat :| k < n - 1 && Later(k) == Later(n - 1);
        LaterDiffers(k, n - 1);
      }
      assert LaterStamps(n) == LaterStamps(n - 1) + {Later(n - 1)};
    }
  }

  lemma LaterNamesStamps(n: nat)
    requires n <= 10
    ensures Stamps(StampOf, LaterNames(n)) == LaterStamps(n)
  {
    forall k: nat | k < n ensures StampOf(LiveName(Later(k))) == Some(Later(k)) {
      LaterIsAStamp(k);
      RotationIsOursIff(Later(k), 0);
    }
    forall k: nat | k < n ensures Later(k) in Stamps(StampOf, LaterNames(n)) {
      assert LiveName(Later(k)) in LaterNames(n);
    }
  }

  /** Ten runs opened in turn in an empty directory, each kept. */
  lemma {:induction false} TenOpens(n: nat)
    requires n <= 10
    ensures OpenedAll({}, seq(n, k requires 0 <= k < n => Later(k))) == LaterNames(n)
  {
    var stamps := seq(n, k requires 0 <= k < n => Later(k));
    if n > 0 {
      TenOpens(n - 1);
      assert stamps[..n - 1] == seq(n - 1, k requires 0 <= k < n - 1 => Later(k));
      assert LaterNames(n) == LaterNames(n - 1) + {LiveName(Later(n - 1))};
      LaterNamesStamps(n);
      LaterStampsAreMany(n);
      TenRunsAreKept(LaterNames(n));
    }
  }

  lemma AllLaterAreAbove(earlier: string)
    requires forall k: nat :: k < 10 ==> Less(earlier, Later(k))
    ensures !KeepsItsFile(LaterNames(10), earlier, true, {})
  {
    LaterNamesStamps(10);
    LaterStampsAreMany(10);
    assert Above(LaterStamps(10), earlier) == LaterStamps(10);
  }

  /** A directory that ten runs in turn left does not keep the file of a run whose
      clock stepped back before the first of them. */
  lemma AClockStepBackPrunes(names: set<string>, earlier: string)
    requires names == OpenedAll({}, seq(10, k requires 0 <= k < 10 => Later(k)))
    requires IsStamp(earlier) && forall k: nat :: k < 10 ==> Less(earlier, Later(k))
    ensures LiveName(earlier) !in AfterOpening(names, earlier, true, {})
  {
    TenOpens(10);
    AllLaterAreAbove(earlier);
    OpeningKeepsItsFileIff(names, earlier, true, {});
  }

  /** After ten runs the clock steps back: the next run deletes the file it has just
      opened, and nothing it ever writes is in the directory. */
  lemma AClockStepBackLosesTheLog(content: seq<byte>, appends: seq<Append>)
    ensures var names := OpenedAll({}, seq(10, k requires 0 <= k < 10 => Later(k)));
            var after := AfterOpening(names, EARLIER, true, {});
            && IsStamp(EARLIER) && LiveName(EARLIER) !in after
            && AfterAll(Opened(content, LiveName(EARLIER) in after), appends).files == map[]
  {
    forall k: nat | k < 10 ensures Less(EARLIER, Later(k)) {
      EarlierIsLess(k);
    }
    AClockStepBackPrunes(OpenedAll({}, seq(10, k requires 0 <= k < 10 => Later(k))), EARLIER);
    ValidAlong(content, false, appends);
  }
}
