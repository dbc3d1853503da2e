/** A run's log file, and its rotation through a directory. */
module RunLog {
  import opened Wrappers
  import opened RunNames
  import opened Sequences

  newtype byte = b: int | 0 <= b < 256

  const NEWLINE: byte := 10

  /** How many lines a file takes before it is rotated. */
  const ROTATE_AFTER_LINES: nat := 10_000

  /** A file of this run: under the announced name, or moved aside under an ordinal. */
  datatype RunFile = Live | Aside(ordinal: nat)

  function NameOf(stamp: string, file: RunFile): string {
    match file
    case Live => LiveName(stamp)
    case Aside(ordinal) => RotationName(stamp, ordinal)
  }

  /** The run's files in the directory, the one open for writing by the name it bears
      now, if it still has one, and the two counters. */
  datatype Log = Log(files: map<RunFile, seq<byte>>, file: Option<RunFile>, lines: nat, rotations: nat)

  /** One append: its bytes, how many of them the file takes, and whether a rename
      and a create succeed if it comes to that. */
  datatype Append = Append(buf: seq<byte>, accepted: nat, renames: bool, creates: bool)
  {
    function Written(): seq<byte> {
      if accepted <= |buf| then buf[..accepted] else buf
    }
  }

  function Newlines(buf: seq<byte>): nat {
    Count(buf, NEWLINE)
  }

  function Content(files: map<RunFile, seq<byte>>, file: RunFile): seq<byte> {
    if file in files then files[file] else []
  }

  /** The moved-aside files in ordinal order. */
  function AsideBytes(files: map<RunFile, seq<byte>>, upTo: nat): seq<byte> {
    if upTo == 0 then [] else AsideBytes(files, upTo - 1) + Content(files, Aside(upTo))
  }

  /** The run as a reader puts it together: rotations in order, then the live file. */
  function RunBytes(log: Log): seq<byte> {
    AsideBytes(log.files, log.rotations) + Content(log.files, Live)
  }

  /** What a file open for writing takes reaches the directory while it has a name there. */
  function AfterWrite(log: Log, data: seq<byte>): Log {
    match log.file
    case None => log
    case Some(file) => log.(files := log.files[file := Content(log.files, file) + data])
  }

  /** The budget is spent before trying. A rename moves the open file with its
      name; a create that fails after it leaves no file under the announced name. */
  function AfterRotate(log: Log, renames: bool, creates: bool): Log {
    var spent := log.(lines := 0, rotations := log.rotations + 1);
    if !renames || Live !in log.files then spent else
    var aside := Aside(spent.rotations);
    var moved := (log.files - {Live})[aside := log.files[Live]];
    if creates then spent.(files := moved[Live := []], file := Some(Live))
    else spent.(files := moved, file := if log.file == Some(Live) then Some(aside) else log.file)
  }

  function AfterAppend(log: Log, a: Append): Log {
    var written := AfterWrite(log, a.Written());
    if a.accepted < |a.buf| then written else
    var counted := written.(lines := written.lines + Newlines(a.buf));
    if counted.lines >= ROTATE_AFTER_LINES then AfterRotate(counted, a.renames, a.creates) else counted
  }

  /** An append fails when its write, its rename or its create does. */
  predicate Succeeds(log: Log, a: Append) {
    && a.accepted >= |a.buf|
    && (log.lines + Newlines(a.buf) >= ROTATE_AFTER_LINES ==>
          a.renames && Live in AfterWrite(log, a.Written()).files && a.creates)
  }

  class Directory {
    var files: map<RunFile, seq<byte>>

    constructor (existing: map<RunFile, seq<byte>>)
      ensures files == existing
    {
      files := existing;
    }

    method Write(file: Option<RunFile>, data: seq<byte>)
      modifies this
      ensures files == match file
                       case None => old(files)
                       case Some(f) => old(files)[f := Content(old(files), f) + data]
    {
      if file.Some? {
        files := files[file.value := Content(files, file.value) + data];
      }
    }

    method Rename(from: RunFile, to: RunFile, ok: bool) returns (renamed: bool)
      requires from != to
      modifies this
      ensures renamed == (ok && from in old(files))
      ensures files == if renamed then (old(files) - {from})[to := old(files)[from]] else old(files)
    {
      if !ok || from !in files {
        return false;
      }
      var content := files[from];
      files := files - {from};
      files := files[to := content];
      return true;
    }

    method Create(file: RunFile, ok: bool) returns (created: bool)
      modifies this
      ensures created == ok
      ensures files == if ok then old(files)[file := []] else old(files)
    {
      if ok {
        files := files[file := []];
      }
      return ok;
    }
  }

  class OpenLog {
    const directory: Directory
    var file: Option<RunFile>
    var lines: nat
    var rotations: nat

    function View(): Log
      reads this, directory
    {
      Log(directory.files, file, lines, rotations)
    }

    /** `d` is the directory once the file was opened and the old runs pruned. */
    constructor (d: Directory)
      ensures directory == d && View() == Log(d.files, if Live in d.files then Some(Live) else None, 0, 0)
    {
      directory, lines, rotations := d, 0, 0;
      file := if Live in d.files then Some(Live) else None;
    }

    method CountNewlines(buf: seq<byte>) returns (count: nat)
      ensures count == Newlines(buf)
    {
      count := 0;
      var i := 0;
      while i < |buf|
        invariant i <= |buf| && count == Newlines(buf[..i])
      {
        assert buf[..i + 1][..i] == buf[..i];
        if buf[i] == NEWLINE {
          count := count + 1;
        }
        i := i + 1;
      }
      assert buf[..i] == buf;
    }

    method Append(a: Append) returns (ok: bool)
      modifies this, directory
      ensures View() == AfterAppend(old(View()), a)
      ensures ok == Succeeds(old(View()), a)
      ensures a.accepted < |a.buf| ==> !ok && lines == old(lines) && rotations == old(rotations)
      ensures a.accepted < |a.buf| || old(lines) + Count(a.buf, 10) < 10_000 ==>
                var taken := if a.accepted < |a.buf| then a.buf[..a.accepted] else a.buf;
                && file == old(file)
                && directory.files == match old(file)
                                      case None => old(directory.files)
                                      case Some(f) => old(directory.files)[f := Content(old(directory.files), f) + taken]
      ensures a.accepted >= |a.buf| ==>
                var counted := old(lines) + Count(a.buf, 10);
                if counted < 10_000 then ok && lines == counted && rotations == old(rotations)
                else
                  && lines == 0 && rotations == old(rotations) + 1
                  && (ok <==> a.renames && a.creates && (Live in old(directory.files) || old(file) == Some(Live)))
    {
      assert a.accepted == |a.buf| ==> a.buf[..a.accepted] == a.buf;
      directory.Write(file, a.Written());
      if a.accepted < |a.buf| {
        return false;
      }
      var count := CountNewlines(a.buf);
      lines := lines + count;
      ok := true;
      if lines >= ROTATE_AFTER_LINES {
        ok := Rotate(a.renames, a.creates);
      }
    }

    method Rotate(renames: bool, creates: bool) returns (ok: bool)
      modifies this, directory
      ensures View() == AfterRotate(old(View()), renames, creates)
      ensures ok == (renames && Live in old(directory.files) && creates)
      ensures lines == 0 && rotations == old(rotations) + 1
      ensures renames && Live in old(directory.files) ==>
                var aside := Aside(old(rotations) + 1);
                && aside in directory.files && directory.files[aside] == old(directory.files[Live])
                && (if creates then Live in directory.files && directory.files[Live] == [] && file == Some(Live)
                    else Live !in directory.files && file == if old(file) == Some(Live) then Some(aside) else old(file))
      ensures !(renames && Live in old(directory.files)) ==> directory.files == old(directory.files) && file == old(file)
    {
      lines := 0;
      rotations := rotations + 1;
      var aside := Aside(rotations);
      ok := directory.Rename(Live, aside, renames);
      if !ok {
        return;
      }
      if file == Some(Live) {
        file := Some(aside);
      }
      ok := directory.Create(Live, creates);
      if ok {
        file := Some(Live);
      }
    }
  }

  // ── Runs of appends ────────────────────────────────────────────────────────

  /** The log `open` leaves: the announced file, perhaps with an earlier run's lines of
      the same second, unless the pruning that follows the opening did not keep it;
      and no file under one of the run's rotation names. */
  function Opened(content: seq<byte>, kept: bool): Log {
    if kept then Log(map[Live := content], Some(Live), 0, 0) else Log(map[], None, 0, 0)
  }

  function AfterAll(log: Log, appends: seq<Append>): Log
    decreases |appends|
  {
    if appends == [] then log
    else AfterAppend(AfterAll(log, appends[..|appends| - 1]), appends[|appends| - 1])
  }

  function AllWritten(appends: seq<Append>): seq<byte>
    decreases |appends|
  {
    if appends == [] then []
    else AllWritten(appends[..|appends| - 1]) + appends[|appends| - 1].Written()
  }

  /** The announced name is the open file's while it exists; otherwise the open file
      is the last one moved aside, or the run has no file at all. No ordinal is used
      ahead of time. */
  ghost predicate Valid(log: Log) {
    && (Live in log.files <==> log.file == Some(Live))
    && (forall k: nat :: Aside(k) in log.files ==> 0 < k <= log.rotations)
    && (match log.file
        case None => log.files == map[]
        case Some(file) =>
          && file in log.files
          && (forall k: nat :: file.Aside? && Aside(k) in log.files ==> k <= file.ordinal))
  }

  lemma {:induction false} AsideBytesFrame(files: map<RunFile, seq<byte>>, files': map<RunFile, seq<byte>>, upTo: nat)
    requires forall k :: 0 < k <= upTo ==> Content(files, Aside(k)) == Content(files', Aside(k))
    ensures AsideBytes(files, upTo) == AsideBytes(files', upTo)
  {
    if upTo > 0 {
      AsideBytesFrame(files, files', upTo - 1);
    }
  }

  lemma {:induction false} WritingTheLastAside(files: map<RunFile, seq<byte>>, files': map<RunFile, seq<byte>>,
                                               last: nat, upTo: nat, data: seq<byte>)
    requires 0 < last <= upTo
    requires forall k: nat :: last < k ==> Content(files, Aside(k)) == []
    requires Content(files', Aside(last)) == Content(files, Aside(last)) + data
    requires forall k: nat :: k != last ==> Content(files', Aside(k)) == Content(files, Aside(k))
    ensures AsideBytes(files', upTo) == AsideBytes(files, upTo) + data
  {
    if upTo == last {
      AsideBytesFrame(files, files', last - 1);
      Regroup(AsideBytes(files, last - 1), Content(files, Aside(last)), data);
    } else {
      WritingTheLastAside(files, files', last, upTo - 1, data);
    }
  }

  /** What reaches the directory of what is written. */
  function Kept(log: Log, data: seq<byte>): seq<byte> {
    if log.file.Some? then data else []
  }

  lemma {:induction false} NoFilesNoBytes(upTo: nat)
    ensures AsideBytes(map[], upTo) == []
  {
    if upTo > 0 {
      NoFilesNoBytes(upTo - 1);
    }
  }

  lemma WriteAppends(log: Log, data: seq<byte>)
    requires Valid(log)
    ensures Valid(AfterWrite(log, data)) && RunBytes(AfterWrite(log, data)) == RunBytes(log) + Kept(log, data)
  {
    var log' := AfterWrite(log, data);
    if log.file.None? {
      NoFilesNoBytes(log.rotations);
    } else if log.file == Some(Live) {
      AsideBytesFrame(log.files, log'.files, log.rotations);
      assert RunBytes(log') == AsideBytes(log.files, log.rotations) + (Content(log.files, Live) + data);
    } else {
      WritingTheLastAside(log.files, log'.files, log.file.value.ordinal, log.rotations, data);
      assert Content(log.files, Live) == Content(log'.files, Live) == [];
    }
  }

  lemma RotateConserves(log: Log, renames: bool, creates: bool)
    requires Valid(log)
    ensures var log' := AfterRotate(log, renames, creates);
            && Valid(log')
            && RunBytes(log') == RunBytes(log)
            && (log'.file.Some? <==> log.file.Some?)
  {
    var log' := AfterRotate(log, renames, creates);
    AsideBytesFrame(log.files, log'.files, log.rotations);
    assert Content(log.files, Aside(log.rotations + 1)) == [];
    assert AsideBytes(log.files, log.rotations) + [] == AsideBytes(log.files, log.rotations);
    assert RunBytes(log') == AsideBytes(log.files, log.rotations)
                             + Content(log'.files, Aside(log.rotations + 1)) + Content(log'.files, Live);
  }

  lemma AppendConserves(log: Log, a: Append)
    requires Valid(log)
    ensures Valid(AfterAppend(log, a))
    ensures RunBytes(AfterAppend(log, a)) == RunBytes(log) + Kept(log, a.Written())
    ensures AfterAppend(log, a).file.Some? <==> log.file.Some?
  {
    WriteAppends(log, a.Written());
    var written := AfterWrite(log, a.Written());
    var counted := written.(lines := written.lines + Newlines(a.buf));
    assert Valid(counted) && RunBytes(counted) == RunBytes(written);
    RotateConserves(counted, a.renames, a.creates);
  }

  lemma {:induction false} ValidAlong(content: seq<byte>, kept: bool, appends: seq<Append>)
    ensures Valid(AfterAll(Opened(content, kept), appends))
    ensures AfterAll(Opened(content, kept), appends).file.Some? <==> kept
    ensures RunBytes(AfterAll(Opened(content, kept), appends)) == if kept then content + AllWritten(appends) else []
    decreases |appends|
  {
    if appends == [] {
      NoFilesNoBytes(0);
      assert AsideBytes(Opened(content, kept).files, 0) == [];
    } else {
      var before, a := appends[..|appends| - 1], appends[|appends| - 1];
      ValidAlong(content, kept, before);
      AppendConserves(AfterAll(Opened(content, kept), before), a);
      Regroup(content, AllWritten(before), a.Written());
    }
  }

  /** Whatever writes, renames and creates fail: the run's files in ordinal order,
      then the live file, are the bytes written, each once and in order, or nothing
      at all if the opened file was not kept. */
  lemma NothingIsLost(content: seq<byte>, kept: bool, appends: seq<Append>)
    ensures RunBytes(AfterAll(Opened(content, kept), appends)) == if kept then content + AllWritten(appends) else []
    ensures forall k: nat :: Aside(k) in AfterAll(Opened(content, kept), appends).files ==>
              0 < k <= AfterAll(Opened(content, kept), appends).rotations
  {
    ValidAlong(content, kept, appends);
  }

  // ── The announced path ─────────────────────────────────────────────────────

  /** The append takes the file over the limit and moves it aside, and nothing can
      be opened in its place. */
  predicate LosesThePath(log: Log, a: Append) {
    a.accepted >= |a.buf| && log.lines + Newlines(a.buf) >= ROTATE_AFTER_LINES && a.renames && !a.creates
  }

  ghost predicate NeverLosesThePath(log: Log, appends: seq<Append>) {
    forall k :: 0 <= k < |appends| ==> !LosesThePath(AfterAll(log, appends[..k]), appends[k])
  }

  /** Once the announced path names no file, every later rename finds nothing to move. */
  lemma OneAppendMore(log: Log, a: Append)
    requires Valid(log)
    ensures log.file == Some(Live) ==> (AfterAppend(log, a).file == Some(Live) <==> !LosesThePath(log, a))
    ensures log.file != Some(Live) ==> AfterAppend(log, a).file == log.file
    ensures Live in AfterAppend(log, a).files <==> AfterAppend(log, a).file == Some(Live)
  {
    AppendConserves(log, a);
  }

  lemma NeverLosesMore(log: Log, before: seq<Append>, a: Append)
    ensures NeverLosesThePath(log, before + [a]) <==> NeverLosesThePath(log, before) && !LosesThePath(AfterAll(log, before), a)
  {
    var all := before + [a];
    assert all[..|before|] == before && all[|before|] == a;
    assert forall k :: 0 <= k < |before| ==> all[..k] == before[..k] && all[k] == before[k];
  }

  lemma {:induction false} PathAlong(log: Log, appends: seq<Append>)
    requires Valid(log)
    ensures Valid(AfterAll(log, appends))
    ensures AfterAll(log, appends).file == Some(Live) <==> log.file == Some(Live) && NeverLosesThePath(log, appends)
    decreases |appends|
  {
    if appends != [] {
      var before, a := appends[..|appends| - 1], appends[|appends| - 1];
      assert appends == before + [a];
      PathAlong(log, before);
      AppendConserves(AfterAll(log, before), a);
      OneAppendMore(AfterAll(log, before), a);
      NeverLosesMore(log, before, a);
    }
  }

  /** The announced path names the file being written exactly when pruning kept the
      opened file and no append of the run moved the file aside and then failed to
      open another. */
  lemma AnnouncedPathIsWrittenIff(content: seq<byte>, kept: bool, appends: seq<Append>)
    ensures AfterAll(Opened(content, kept), appends).file == Some(Live)
            <==> kept && NeverLosesThePath(Opened(content, kept), appends)
    ensures Live in AfterAll(Opened(content, kept), appends).files
            <==> AfterAll(Opened(content, kept), appends).file == Some(Live)
  {
    ValidAlong(content, kept, []);
    PathAlong(Opened(content, kept), appends);
  }

  /** When the announced path names no file, it names none whatever is appended for
      the rest of the run: the file moved aside last takes it all, and if there is
      none nothing reaches the directory again. */
  lemma {:induction false} AMissingPathStaysMissing(log: Log, later: seq<Append>)
    requires Valid(log) && log.file != Some(Live)
    ensures Valid(AfterAll(log, later))
    ensures AfterAll(log, later).file == log.file && Live !in AfterAll(log, later).files
    ensures match log.file
            case None => AfterAll(log, later).files == map[]
            case Some(file) => AfterAll(log, later).files[file] == log.files[file] + AllWritten(later)
    decreases |later|
  {
    if later == [] {
      assert log.file.Some? ==> log.files[log.file.value] + [] == log.files[log.file.value];
    } else {
      var before, a := later[..|later| - 1], later[|later| - 1];
      AMissingPathStaysMissing(log, before);
      AppendConserves(AfterAll(log, before), a);
      OneAppendMore(AfterAll(log, before), a);
      if log.file.Some? {
        Regroup(log.files[log.file.value], AllWritten(before), a.Written());
      }
    }
  }

  /** Ten thousand lines at once. */
  const FULL: seq<byte> := seq(ROTATE_AFTER_LINES, _ => NEWLINE)

  lemma FullReachesTheLimit()
    ensures |FULL| == Newlines(FULL) == ROTATE_AFTER_LINES
  {
    CountAll(FULL, NEWLINE);
  }

  lemma FullIsMovedAside(a: Append)
    requires a == Append(FULL, |FULL|, true, false)
    ensures AfterAppend(Opened([], true), a) == Log(map[Aside(1) := FULL], Some(Aside(1)), 0, 1)
  {
    FullReachesTheLimit();
    assert a.Written() == FULL && [] + FULL == FULL;
    var written := AfterWrite(Opened([], true), a.Written());
    assert written.files == map[Live := FULL];
    assert written.files - {Live} == map[];
    var counted := written.(lines := Newlines(FULL));
    assert AfterRotate(counted, true, false).files == map[Aside(1) := FULL];
  }

  /** A run that loses its announced path: one append, one rename, no reopen. */
  lemma AFailedReopenLosesThePath()
    ensures var log := AfterAll(Opened([], true), [Append(FULL, |FULL|, true, false)]);
            log.file == Some(Aside(1)) && log.files == map[Aside(1) := FULL]
  {
    var a := Append(FULL, |FULL|, true, false);
    assert [a][..0] == [];
    assert AfterAll(Opened([], true), [a]) == AfterAppend(Opened([], true), a);
    FullIsMovedAside(a);
  }

  /** A rotation onto a name already in use conserves the bytes exactly when the
      file under that name was empty. */
  lemma ClobberingIff(log: Log)
    requires log.file == Some(Live) && Live in log.files
    requires forall k: nat :: Aside(k) in log.files ==> 0 < k <= log.rotations + 1
    ensures var n := log.rotations + 1;
            RunBytes(AfterRotate(log, true, true)) == AsideBytes(log.files, n) + Content(log.files, Live)
            <==> Content(log.files, Aside(n)) == []
  {
    var n := log.rotations + 1;
    var log' := AfterRotate(log, true, true);
    AsideBytesFrame(log.files, log'.files, log.rotations);
    var early, old', live := AsideBytes(log.files, log.rotations), Content(log.files, Aside(n)), Content(log.files, Live);
    assert RunBytes(log') == early + live;
    assert AsideBytes(log.files, n) + live == early + old' + live;
    if old' != [] {
      assert |early + old' + live| != |early + live|;
    } else {
      assert early + old' + live == early + live;
    }
  }

  // ── The budget ─────────────────────────────────────────────────────────────

  /** Every rotation attempt has spent its ten thousand newlines. */
  lemma {:induction false} BudgetBoundsRotations(content: seq<byte>, kept: bool, appends: seq<Append>)
    ensures var log := AfterAll(Opened(content, kept), appends);
            log.rotations * 10_000 + log.lines <= Count(AllWritten(appends), 10)
    decreases |appends|
  {
    if appends != [] {
      var before, a := appends[..|appends| - 1], appends[|appends| - 1];
      BudgetBoundsRotations(content, kept, before);
      CountAdds(AllWritten(before), a.Written(), NEWLINE);
      if a.accepted >= |a.buf| {
        assert a.Written() == a.buf;
      }
    }
  }

  lemma OrdinalsFitTheName(content: seq<byte>, kept: bool, appends: seq<Append>)
    requires Newlines(AllWritten(appends)) < 10_000_000
    ensures forall k: nat :: Aside(k) in AfterAll(Opened(content, kept), appends).files ==> 0 < k <= 999
  {
    ValidAlong(content, kept, appends);
    BudgetBoundsRotations(content, kept, appends);
  }

  /** A run of fewer than ten million newlines: every one of its files carries the
      run's stamp. */
  lemma EveryFileCarriesTheStamp(stamp: string, content: seq<byte>, kept: bool, appends: seq<Append>, file: RunFile)
    requires IsStamp(stamp) && Newlines(AllWritten(appends)) < 10_000_000
    requires file in AfterAll(Opened(content, kept), appends).files
    ensures StampOf(NameOf(stamp, file)) == Some(stamp)
  {
    OrdinalsFitTheName(content, kept, appends);
    RotationIsOursIff(stamp, if file.Aside? then file.ordinal else 0);
  }

  function FullAppends(n: nat): seq<Append> {
    seq(n, _ => Append(FULL, |FULL|, true, true))
  }

  /** `n` appends of ten thousand lines are `n` rotations. */
  lemma {:induction false} EveryFullAppendRotates(n: nat)
    ensures var log := AfterAll(Opened([], true), FullAppends(n));
            && log.file == Some(Live) && Live in log.files && log.lines == 0 && log.rotations == n
            && forall k :: 0 < k <= n ==> Aside(k) in log.files
  {
    if n > 0 {
      EveryFullAppendRotates(n - 1);
      FullReachesTheLimit();
      assert FullAppends(n)[..n - 1] == FullAppends(n - 1);
    }
  }

  /** A run with a file that is attributed to no run: its thousandth rotation. */
  lemma AThousandRotationsLeaveTheRun(stamp: string)
    requires IsStamp(stamp)
    ensures Aside(1000) in AfterAll(Opened([], true), FullAppends(1000)).files
    ensures StampOf(NameOf(stamp, Aside(1000))) == None
  {
    EveryFullAppendRotates(1000);
    RotationIsOursIff(stamp, 1000);
  }

  /** Two files of one run never bear the same name. */
  lemma NamesTellFilesApart(stamp: string, f: RunFile, g: RunFile)
    requires f != g
    ensures NameOf(stamp, f) != NameOf(stamp, g)
  {
    if f.Aside? {
      RotationNamesDiffer(stamp, f.ordinal, if g.Aside? then g.ordinal else f.ordinal + 1);
    } else {
      RotationNamesDiffer(stamp, g.ordinal, g.ordinal + 1);
    }
  }
}
