/** Deleting every run but the newest ten, a run's rotations with it. */
module Pruning {
  import opened Wrappers
  import opened RunNames

  const KEEP_RUNS: nat := 10

  /** The order a `BTreeMap` keeps its keys in. */
  predicate Less(a: string, b: string) {
    b != [] && (a == [] || a[0] < b[0] || (a[0] == b[0] && Less(a[1..], b[1..])))
  }

  lemma {:induction false} LessIsIrreflexive(a: string)
    ensures !Less(a, a)
  {
    if a != [] {
      LessIsIrreflexive(a[1..]);
    }
  }

  lemma {:induction false} LessIsTotal(a: string, b: string)
    ensures a == b || Less(a, b) || Less(b, a)
    ensures !(Less(a, b) && Less(b, a)) && !Less(a, a)
    decreases |a| + |b|
  {
    LessIsIrreflexive(a);
    if a != [] && b != [] {
      LessIsTotal(a[1..], b[1..]);
      if a[0] == b[0] && a[1..] == b[1..] {
        assert a == [a[0]] + a[1..] == b;
      }
    }
  }

  lemma {:induction false} LessIsTransitive(a: string, b: string, c: string)
    requires Less(a, b) && Less(b, c)
    ensures Less(a, c)
    decreases |a|
  {
    if a != [] && a[0] == b[0] == c[0] {
      LessIsTransitive(a[1..], b[1..], c[1..]);
    }
  }

  /** A nonempty set of keys has a first one. */
  lemma FirstExists(keys: set<string>) returns (first: string)
    requires keys != {}
    ensures first in keys && forall k :: k in keys && k != first ==> Less(first, k)
    decreases |keys|
  {
    var some :| some in keys;
    var rest := keys - {some};
    if rest == {} {
      first := some;
      assert keys == {some};
    } else {
      var r := FirstExists(rest);
      LessIsTotal(some, r);
      if Less(some, r) {
        first := some;
        forall k | k in keys && k != some ensures Less(some, k) {
          if k != r {
            LessIsTransitive(some, r, k);
          }
        }
      } else {
        first := r;
      }
    }
  }

  // ── Which files go ─────────────────────────────────────────────────────────

  /** What a name's run is read off with: `StampOf`, for this module's logs. */
  type Key = string -> Option<string>

  function Stamps(key: Key, names: set<string>): set<string> {
    set name | name in names && key(name).Some? :: key(name).value
  }

  function Above(stamps: set<string>, stamp: string): set<string> {
    set s | s in stamps && Less(stamp, s)
  }

  /** The files of runs with at least ten newer ones. */
  function Doomed(key: Key, names: set<string>): set<string> {
    set name | name in names && key(name).Some? && |Above(Stamps(key, names), key(name).value)| >= KEEP_RUNS
  }

  /** A stamp is in front exactly when as many as are left sort above it. */
  lemma FrontIff(stamps: set<string>, taken: set<string>, rest: set<string>, stamp: string)
    requires InFront(stamps, taken, rest) && stamp in stamps
    ensures stamp in taken <==> |Above(stamps, stamp)| >= |rest|
  {
    LessIsTotal(stamp, stamp);
    if stamp in taken {
      assert rest <= Above(stamps, stamp);
      SubsetIsSmaller(rest, Above(stamps, stamp));
    } else {
      forall s | s in Above(stamps, stamp) ensures s in rest - {stamp} {
        LessIsTotal(s, stamp);
      }
      SubsetIsSmaller(Above(stamps, stamp), rest - {stamp});
    }
  }

  lemma SubsetIsSmaller(a: set<string>, b: set<string>)
    requires a <= b
    ensures |a| <= |b|
  {
    assert b == a + (b - a);
    assert |b| == |a| + |b - a|;
  }

  class LogDirectory {
    var names: set<string>

    constructor (existing: set<string>)
      ensures names == existing
    {
      names := existing;
    }

    /** `refused` are the files the system will not delete. */
    method RemoveFile(name: string, refused: set<string>)
      modifies this
      ensures names == if name in refused then old(names) else old(names) - {name}
    {
      if name !in refused {
        names := names - {name};
      }
    }

    method CreateFile(name: string)
      modifies this
      ensures names == old(names) + {name}
    {
      names := names + {name};
    }

    method RemoveAll(files: set<string>, refused: set<string>)
      modifies this
      ensures names == old(names) - (files - refused)
    {
      var pending := files;
      while pending != {}
        invariant pending <= files
        invariant names == old(names) - ((files - pending) - refused)
        decreases |pending|
      {
        var name :| name in pending;
        RemoveFile(name, refused);
        pending := pending - {name};
      }
    }

    /** The directory's runs, each under what `key` reads off its files. */
    method GroupRuns(key: Key) returns (runs: map<string, set<string>>)
      ensures Grouped(key, names, runs)
    {
      runs := map[];
      var pending := names;
      ghost var seen: set<string> := {};
      while pending != {}
        invariant names == seen + pending && seen !! pending
        invariant Grouped(key, seen, runs)
        decreases |pending|
      {
        var name :| name in pending;
        GroupedWith(key, seen, runs, name);
        var stamp := key(name);
        if stamp.Some? {
          runs := WithFile(runs, stamp.value, name);
        }
        pending := pending - {name};
        seen := seen + {name};
      }
      assert seen == names;
    }

    method PruneBy(key: Key, refused: set<string>)
      modifies this
      ensures names == old(names) - (Doomed(key, old(names)) - refused)
    {
      var runs := GroupRuns(key);
      ghost var before := names;
      var excess := if |runs| > KEEP_RUNS then |runs| - KEEP_RUNS else 0;
      var left := runs.Keys;
      ghost var taken: set<string> := {};
      var i := 0;
      while i < excess
        invariant i <= excess && |left| == |runs| - i
        invariant InFront(runs.Keys, taken, left)
        invariant names == before - (FilesOf(key, before, taken) - refused)
      {
        ghost var first := FirstExists(left);
        var stamp :| stamp in left && forall k :: k in left && k != stamp ==> Less(stamp, k);
        RemoveAll(runs[stamp], refused);
        OneMoreRun(key, before, taken, stamp, refused);
        OneMoreInFront(runs.Keys, taken, left, stamp);
        left := left - {stamp};
        taken := taken + {stamp};
        i := i + 1;
      }
      DoomedAreTheFront(key, before, taken, left);
    }

    /** Deletes the files of every run with at least ten newer runs, and no other. */
    method PruneRuns(readable: bool, refused: set<string>)
      modifies this
      ensures names == if readable then old(names) - (Doomed(StampOf, old(names)) - refused) else old(names)
      ensures forall name :: name in old(names) && (forall stamp :: !IsRunFile(name, stamp)) ==> name in names
    {
      if readable {
        StrangersStay(names);
        PruneBy(StampOf, refused);
      }
    }
  }

  /** A file of any other shape than a run's is nobody's to delete. */
  lemma StrangersStay(names: set<string>)
    ensures forall name :: name in Doomed(StampOf, names) ==> exists stamp :: IsRunFile(name, stamp)
  {
    forall name | name in Doomed(StampOf, names) ensures exists stamp :: IsRunFile(name, stamp) {
      StampOfIff(name, StampOf(name).value);
    }
  }

  function RunOf(key: Key, names: set<string>, stamp: string): set<string> {
    set name | name in names && key(name) == Some(stamp)
  }

  ghost predicate Grouped(key: Key, names: set<string>, runs: map<string, set<string>>) {
    && runs.Keys == Stamps(key, names)
    && forall s :: s in runs ==> runs[s] == RunOf(key, names, s)
  }

  function WithFile(runs: map<string, set<string>>, stamp: string, name: string): map<string, set<string>> {
    runs[stamp := (if stamp in runs then runs[stamp] else {}) + {name}]
  }

  lemma GroupedWith(key: Key, names: set<string>, runs: map<string, set<string>>, name: string)
    requires Grouped(key, names, runs) && name !in names
    ensures Grouped(key, names + {name}, if key(name).Some? then WithFile(runs, key(name).value, name) else runs)
  {
    var names', stamp := names + {name}, key(name);
    var runs' := if stamp.Some? then WithFile(runs, stamp.value, name) else runs;
    assert Stamps(key, names') == Stamps(key, names) + (if stamp.Some? then {stamp.value} else {});
    forall s | s in runs' ensures runs'[s] == RunOf(key, names', s) {
      if stamp == Some(s) {
        assert RunOf(key, names', s) == RunOf(key, names, s) + {name};
        if s !in runs {
          assert RunOf(key, names, s) == {};
        }
      } else {
        assert RunOf(key, names', s) == RunOf(key, names, s);
      }
    }
  }

  /** `taken` is the front of `stamps`, `left` what is left. */
  ghost predicate InFront(stamps: set<string>, taken: set<string>, left: set<string>) {
    && stamps == taken + left && taken !! left
    && forall a, b :: a in taken && b in left ==> Less(a, b)
  }

  lemma OneMoreInFront(stamps: set<string>, taken: set<string>, left: set<string>, first: string)
    requires InFront(stamps, taken, left)
    requires first in left && forall k :: k in left && k != first ==> Less(first, k)
    ensures InFront(stamps, taken + {first}, left - {first})
  {
  }

  /** Removing one more run, but for what is refused. */
  lemma OneMoreRun(key: Key, names: set<string>, stamps: set<string>, stamp: string, refused: set<string>)
    ensures names - (FilesOf(key, names, stamps) - refused) - (RunOf(key, names, stamp) - refused)
            == names - (FilesOf(key, names, stamps + {stamp}) - refused)
  {
    assert FilesOf(key, names, stamps + {stamp}) == FilesOf(key, names, stamps) + RunOf(key, names, stamp);
  }

  function FilesOf(key: Key, names: set<string>, stamps: set<string>): set<string> {
    set name | name in names && key(name).Some? && key(name).value in stamps
  }

  lemma DoomedAreTheFront(key: Key, names: set<string>, taken: set<string>, left: set<string>)
    requires InFront(Stamps(key, names), taken, left)
    requires |left| == KEEP_RUNS || (taken == {} && |left| <= KEEP_RUNS)
    ensures Doomed(key, names) == FilesOf(key, names, taken)
  {
    forall name | name in names && key(name).Some?
      ensures name in Doomed(key, names) <==> key(name).value in taken
    {
      var stamp := key(name).value;
      assert stamp in Stamps(key, names);
      FrontIff(Stamps(key, names), taken, left, stamp);
      if |left| < KEEP_RUNS {
        LessIsTotal(stamp, stamp);
        assert Above(Stamps(key, names), stamp) <= left - {stamp};
        SubsetIsSmaller(Above(Stamps(key, names), stamp), left - {stamp});
      }
    }
  }

  /** No run is split, other writers' files stay, and the run just opened is kept
      unless ten or more stamps sort above its own. */
  lemma RunsGoWhole(names: set<string>, stamp: string)
    ensures forall a, b :: a in names && b in names && StampOf(a) == StampOf(b) ==>
              (a in Doomed(StampOf, names) <==> b in Doomed(StampOf, names))
    ensures forall a :: a in Doomed(StampOf, names) ==> StampOf(a).Some?
    ensures IsStamp(stamp) && LiveName(stamp) in names ==>
              (LiveName(stamp) in Doomed(StampOf, names) <==> |Above(Stamps(StampOf, names), stamp)| >= KEEP_RUNS)
  {
    if IsStamp(stamp) {
      RotationIsOursIff(stamp, 0);
    }
  }

  /** At most ten runs are left, and all of them if there were no more. */
  lemma TenAreLeft(key: Key, names: set<string>)
    ensures |Stamps(key, names - Doomed(key, names))| == if |Stamps(key, names)| > KEEP_RUNS then KEEP_RUNS else |Stamps(key, names)|
  {
    var stamps := Stamps(key, names);
    var taken, left := Front(stamps, if |stamps| > KEEP_RUNS then |stamps| - KEEP_RUNS else 0);
    DoomedAreTheFront(key, names, taken, left);
    forall s ensures s in Stamps(key, names - Doomed(key, names)) <==> s in left {
      if s in left {
        var name :| name in names && key(name) == Some(s);
        assert name in names - Doomed(key, names);
      }
    }
    assert Stamps(key, names - Doomed(key, names)) == left;
  }

  lemma {:induction false} Front(stamps: set<string>, n: nat) returns (taken: set<string>, left: set<string>)
    requires n <= |stamps|
    ensures InFront(stamps, taken, left) && |taken| == n && |left| == |stamps| - n
  {
    if n == 0 {
      taken, left := {}, stamps;
    } else {
      taken, left := Front(stamps, n - 1);
      var first := FirstExists(left);
      taken, left := taken + {first}, left - {first};
    }
  }

  // ── Lexicographic is chronological ─────────────────────────────────────────

  function Pow10(n: nat): nat {
    if n == 0 then 1 else 10 * Pow10(n - 1)
  }

  /** The number a string of digits reads as, the first digit the heaviest. */
  function Number(s: string): nat
    requires AllDigits(s)
  {
    if s == [] then 0 else
    var d, p := s[0] as nat - '0' as nat, Pow10(|s| - 1);
    NoNegativeProduct(d, p);
    d * p + Number(s[1..])
  }

  /** A heavier first digit outweighs whatever follows. */
  lemma FirstDigitDecides(d: nat, e: nat, p: nat, x: nat, y: nat)
    requires d < e && x < p
    ensures d * p + x < e * p + y
  {
    var k := e - d - 1;
    NoNegativeProduct(k, p);
    Distribute(d, k, p);
  }

  lemma NoNegativeProduct(k: nat, p: nat)
    ensures k * p >= 0
  {
  }

  lemma Distribute(d: nat, k: nat, p: nat)
    ensures (d + 1 + k) * p == d * p + p + k * p
  {
  }

  lemma {:induction false} NumberIsBounded(s: string)
    requires AllDigits(s)
    ensures Number(s) < Pow10(|s|)
  {
    if s != [] {
      NumberIsBounded(s[1..]);
      FirstDigitDecides(s[0] as nat - '0' as nat, 10, Pow10(|s| - 1), Number(s[1..]), 0);
    }
  }

  lemma {:induction false} LessIsNumeric(a: string, b: string)
    requires |a| == |b| && AllDigits(a) && AllDigits(b)
    ensures Less(a, b) <==> Number(a) < Number(b)
  {
    if a != [] {
      var x, y, p := Number(a[1..]), Number(b[1..]), Pow10(|a| - 1);
      var d, e := a[0] as nat - '0' as nat, b[0] as nat - '0' as nat;
      assert Number(a) == d * p + x && Number(b) == e * p + y;
      if d < e {
        NumberIsBounded(a[1..]);
        FirstDigitDecides(d, e, p, x, y);
      } else if e < d {
        NumberIsBounded(b[1..]);
        FirstDigitDecides(e, d, p, y, x);
      } else {
        LessIsNumeric(a[1..], b[1..]);
      }
    }
  }

  lemma {:induction false} LessByParts(a1: string, a2: string, b1: string, b2: string)
    requires |a1| == |b1|
    ensures Less(a1 + a2, b1 + b2) <==> Less(a1, b1) || (a1 == b1 && Less(a2, b2))
  {
    if a1 == [] {
      assert a1 + a2 == a2 && b1 + b2 == b2;
    } else {
      assert (a1 + a2)[1..] == a1[1..] + a2 && (b1 + b2)[1..] == b1[1..] + b2;
      LessByParts(a1[1..], a2, b1[1..], b2);
      if a1[0] == b1[0] && a1[1..] == b1[1..] {
        assert a1 == [a1[0]] + a1[1..] == b1;
        LessIsTotal(a1, b1);
        LessIsTotal(a1[1..], b1[1..]);
      }
    }
  }

  /** A stamp's digits, read as one number. */
  function Moment(stamp: string): nat
    requires IsStamp(stamp)
  {
    Number(stamp[..8] + stamp[9..])
  }

  /** Stamps sort as strings the way their moments sort as numbers. */
  lemma StampsSortByMoment(a: string, b: string)
    requires IsStamp(a) && IsStamp(b)
    ensures Less(a, b) <==> Moment(a) < Moment(b)
  {
    LessByParts(a[..8], a[8..], b[..8], b[8..]);
    assert a == a[..8] + a[8..] && b == b[..8] + b[8..];
    assert a[8..][1..] == a[9..] && b[8..][1..] == b[9..];
    LessByParts(a[..8], a[9..], b[..8], b[9..]);
    LessIsNumeric(a[..8] + a[9..], b[..8] + b[9..]);
  }
}
