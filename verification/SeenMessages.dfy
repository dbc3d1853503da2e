/** The duplicate filter: recently forwarded hashes, the oldest forgotten at capacity. */
module SeenMessages {
  import opened Sequences

  const SEEN_CAPACITY: nat := 10_000

  /** Every stretch of `n` is free of repeats. */
  ghost predicate DistinctWithin(s: seq<string>, n: nat) {
    forall i, j :: 0 <= i < j < |s| && j - i < n ==> s[i] != s[j]
  }

  /** What has been forwarded once `hash` has come by. */
  function Passed(before: seq<string>, hash: string): seq<string> {
    if hash in Last(before, SEEN_CAPACITY) then before else before + [hash]
  }

  class Seen {
    var hashes: set<string>
    var order: seq<string>
    /** Everything forwarded so far. */
    ghost var forwarded: seq<string>

    ghost predicate Valid()
      reads this
    {
      && order == Last(forwarded, SEEN_CAPACITY)
      && (forall h :: h in hashes <==> h in order)
      && DistinctWithin(forwarded, SEEN_CAPACITY + 1)
    }

    constructor ()
      ensures Valid() && forwarded == []
    {
      hashes, order, forwarded := {}, [], [];
    }

    /** Whether to forward `hash`: it is dropped exactly when it is among the last
        ten thousand forwarded. */
    method FirstSighting(hash: string) returns (first: bool)
      requires Valid()
      modifies this
      ensures Valid()
      ensures first <==> hash !in Last(old(forwarded), 10_000)
      ensures forwarded == Passed(old(forwarded), hash) == if first then old(forwarded) + [hash] else old(forwarded)
      ensures order == Last(forwarded, SEEN_CAPACITY)
    {
      if hash in hashes {
        return false;
      }
      if |order| == SEEN_CAPACITY {
        var oldest := order[0];
        order := order[1..];
        OldestWasOnce(forwarded);
        hashes := hashes - {oldest};
      }
      hashes := hashes + {hash};
      order := order + [hash];
      forwarded := forwarded + [hash];
      return true;
    }
  }

  lemma OldestWasOnce(s: seq<string>)
    requires |s| >= SEEN_CAPACITY && DistinctWithin(s, SEEN_CAPACITY + 1)
    ensures Last(s, SEEN_CAPACITY)[0] !in Last(s, SEEN_CAPACITY)[1..]
  {
    var w := Last(s, SEEN_CAPACITY);
    forall k | 1 <= k < |w| ensures w[k] != w[0] {
      assert w[k] == s[|s| - SEEN_CAPACITY + k] && w[0] == s[|s| - SEEN_CAPACITY];
    }
  }

  // ── Over whole inputs ──────────────────────────────────────────────────────

  /** What has been forwarded after `inputs`, by the window over the full history. */
  function ForwardedFrom(before: seq<string>, inputs: seq<string>): seq<string>
    decreases |inputs|
  {
    if inputs == [] then before else ForwardedFrom(Passed(before, inputs[0]), inputs[1..])
  }

  /** The bridge's loop over a whole input, one filter throughout. */
  method ForwardAll(inputs: seq<string>) returns (out: seq<string>)
    ensures out == ForwardedFrom([], inputs)
  {
    var seen := new Seen();
    out := [];
    ghost var rest := inputs;
    var i := 0;
    while i < |inputs|
      invariant i <= |inputs| && rest == inputs[i..] && fresh(seen)
      invariant seen.Valid() && seen.forwarded == out
      invariant ForwardedFrom(out, rest) == ForwardedFrom([], inputs)
    {
      out := ForwardOne(seen, inputs[i], out);
      rest := rest[1..];
      i := i + 1;
    }
  }

  method ForwardOne(seen: Seen, hash: string, out: seq<string>) returns (out': seq<string>)
    requires seen.Valid() && out == seen.forwarded
    modifies seen
    ensures seen.Valid() && out' == seen.forwarded == Passed(out, hash)
  {
    var first := seen.FirstSighting(hash);
    out' := if first then out + [hash] else out;
  }

  lemma PassedIsDistinct(before: seq<string>, hash: string)
    requires DistinctWithin(before, SEEN_CAPACITY + 1)
    ensures DistinctWithin(Passed(before, hash), SEEN_CAPACITY + 1)
  {
    var w := Last(before, SEEN_CAPACITY);
    if hash !in w {
      forall i | |before| - SEEN_CAPACITY <= i < |before| && 0 <= i ensures before[i] != hash {
        assert before[i] == w[i - (|before| - |w|)];
      }
    }
  }

  /** Any 10,001 consecutive forwarded hashes are pairwise distinct. */
  lemma {:induction false} ForwardedIsDistinct(before: seq<string>, inputs: seq<string>)
    requires DistinctWithin(before, 10_001)
    ensures DistinctWithin(ForwardedFrom(before, inputs), 10_001)
    decreases |inputs|
  {
    if inputs != [] {
      PassedIsDistinct(before, inputs[0]);
      ForwardedIsDistinct(Passed(before, inputs[0]), inputs[1..]);
    }
  }

  lemma PassedHolds(before: seq<string>, first: string, hash: string)
    ensures hash in Passed(before, first) <==> hash in before || hash == first
  {
    if first in Last(before, SEEN_CAPACITY) {
      assert first in before;
    }
  }

  /** Nothing new is lost: every input is forwarded somewhere. */
  lemma {:induction false} EveryInputIsForwarded(before: seq<string>, inputs: seq<string>, hash: string)
    ensures hash in ForwardedFrom(before, inputs) <==> hash in before || hash in inputs
    decreases |inputs|
  {
    if inputs != [] {
      PassedHolds(before, inputs[0], hash);
      EveryInputIsForwarded(Passed(before, inputs[0]), inputs[1..], hash);
      assert inputs == [inputs[0]] + inputs[1..];
    }
  }
}
