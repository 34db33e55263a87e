/** The commit-latency ring buffer and the percentile computed from it. */
module Latency {

  const LATENCY_BUF_CAP: nat := 1024

  /** The most recent entries, at most LATENCY_BUF_CAP of them. */
  function Window(recorded: seq<nat>): seq<nat> {
    if |recorded| <= LATENCY_BUF_CAP then recorded else recorded[|recorded| - LATENCY_BUF_CAP..]
  }

  class LatencyBuffer {
    var entries: seq<nat>
    /** Everything ever pushed, oldest first. */
    ghost var recorded: seq<nat>

    ghost predicate Valid()
      reads this
    {
      entries == Window(recorded)
    }

    constructor ()
      ensures Valid() && recorded == []
    {
      entries, recorded := [], [];
    }

    method Push(micros: nat)
      requires Valid()
      modifies this
      ensures Valid() && recorded == old(recorded) + [micros]
    {
      if |entries| >= LATENCY_BUF_CAP {
        entries := entries[1..];
      }
      entries := entries + [micros];
      recorded := recorded + [micros];
    }

    /** The buffer holds the last 1024 values pushed, or all of them if there are fewer. */
    lemma HoldsTheLast()
      requires Valid()
      ensures |entries| <= |recorded| && entries == recorded[|recorded| - |entries|..]
      ensures |entries| == if |recorded| < 1024 then |recorded| else 1024
    {
    }

    /** The 95th percentile by nearest rank: at least 95% of the entries are at or below it and no
        smaller entry has that property. 0 for an empty buffer. */
    method Percentile95() returns (p95: nat)
      requires Valid()
      ensures entries == [] ==> p95 == 0
      ensures entries != [] ==> p95 in entries && 20 * AtMost(entries, p95) >= 19 * |entries|
      ensures forall v :: v in entries && v < p95 ==> 20 * AtMost(entries, v) < 19 * |entries|
    {
      if entries == [] {
        return 0;
      }
      var sorted := Sort(entries);
      var index := RankIndex(|sorted|);
      p95 := sorted[index];
      SortKeepsCounts(entries);
      RankBelow(sorted, index);
      forall v | v in entries && v < p95 ensures 20 * AtMost(entries, v) < 19 * |entries| {
        RankAbove(sorted, index, v);
      }
    }
  }

  /** The zero-based index of the smallest rank that covers 19/20 of `n` entries. */
  function RankIndex(n: nat): (i: nat)
    requires n > 0
    ensures i < n && 20 * i < 19 * n <= 20 * (i + 1)
  {
    (19 * n + 19) / 20 - 1
  }

  function AtMost(s: seq<nat>, v: nat): nat {
    if s == [] then 0 else (if s[0] <= v then 1 else 0) + AtMost(s[1..], v)
  }

  predicate Sorted(s: seq<nat>) {
    forall i, j :: 0 <= i < j < |s| ==> s[i] <= s[j]
  }

  function Insert(x: nat, s: seq<nat>): (t: seq<nat>)
    requires Sorted(s)
    ensures Sorted(t) && |t| == |s| + 1
    ensures forall k :: 0 <= k < |t| ==> t[k] == x || t[k] in s
  {
    if s == [] || x <= s[0] then [x] + s
    else
      var t := Insert(x, s[1..]);
      assert forall k :: 0 <= k < |t| ==> s[0] <= t[k];
      [s[0]] + t
  }

  /** The library sort of the snapshot. That it is a permutation is SortCounts: it has as many entries
      at or below any value as the original. */
  function Sort(s: seq<nat>): (t: seq<nat>)
    ensures Sorted(t) && |t| == |s|
    ensures forall k :: 0 <= k < |t| ==> t[k] in s
  {
    if s == [] then [] else Insert(s[0], Sort(s[1..]))
  }

  lemma {:induction false} InsertCounts(x: nat, s: seq<nat>, v: nat)
    requires Sorted(s)
    ensures AtMost(Insert(x, s), v) == AtMost(s, v) + if x <= v then 1 else 0
    decreases s
  {
    if s == [] || x <= s[0] {
      assert ([x] + s)[1..] == s;
    } else {
      InsertCounts(x, s[1..], v);
      assert ([s[0]] + Insert(x, s[1..]))[1..] == Insert(x, s[1..]);
    }
  }

  lemma {:induction false} SortCounts(s: seq<nat>, v: nat)
    ensures AtMost(Sort(s), v) == AtMost(s, v)
    decreases s
  {
    if s != [] {
      SortCounts(s[1..], v);
      InsertCounts(s[0], Sort(s[1..]), v);
    }
  }

  lemma SortKeepsCounts(s: seq<nat>)
    ensures forall v :: AtMost(Sort(s), v) == AtMost(s, v)
  {
    forall v ensures AtMost(Sort(s), v) == AtMost(s, v) {
      SortCounts(s, v);
    }
  }

  /** In a sorted sequence the first i + 1 entries are at most the i-th. */
  lemma {:induction false} RankBelow(s: seq<nat>, i: nat)
    requires Sorted(s) && i < |s|
    ensures AtMost(s, s[i]) >= i + 1
    decreases i
  {
    if i > 0 {
      RankBelow(s[1..], i - 1);
    }
  }

  /** Only entries before the i-th are at most a value below it. */
  lemma {:induction false} RankAbove(s: seq<nat>, i: nat, v: nat)
    requires Sorted(s) && i < |s| && v < s[i]
    ensures AtMost(s, v) <= i
    decreases |s|
  {
    if i > 0 {
      RankAbove(s[1..], i - 1, v);
    } else if |s| > 1 {
      RankAbove(s[1..], 0, v);
    }
  }
}
