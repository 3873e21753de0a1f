/** The grid of building cells as a sequence of hit points (0 = safe,
    above 0 = burning): how many burn, which are safe, and what lighting
    one safe cell does to the count. */
module Cells {
  import opened Balance

  /** Number of burning cells (hit points above 0). */
  function Burning(s: seq<int>): (n: nat)
    ensures n <= |s|
    decreases |s|
  {
    if s == [] then 0
    else Burning(s[..|s| - 1]) + (if s[|s| - 1] > 0 then 1 else 0)
  }

  /** Indices of the safe cells (hit points exactly 0), in grid order. */
  function SafeIndices(s: seq<int>): (r: seq<nat>)
    ensures forall j :: 0 <= j < |r| ==> r[j] < |s| && s[r[j]] == 0
    ensures forall j, k :: 0 <= j < k < |r| ==> r[j] < r[k]
    decreases |s|
  {
    if s == [] then []
    else SafeIndices(s[..|s| - 1]) + (if s[|s| - 1] == 0 then [|s| - 1] else [])
  }

  /** No hit points below 0 and none above a fresh fire's. */
  ghost predicate InRange(s: seq<int>) {
    forall i :: 0 <= i < |s| ==> 0 <= s[i] <= FullFire
  }

  /** Every safe cell is listed by SafeIndices. */
  lemma {:induction false} SafeIndicesComplete(s: seq<int>, i: nat)
    requires i < |s| && s[i] == 0
    ensures i in SafeIndices(s)
    decreases |s|
  {
    if i < |s| - 1 {
      SafeIndicesComplete(s[..|s| - 1], i);
    }
  }

  /** With no negative hit points every cell is either burning or safe. */
  lemma {:induction false} BurningAndSafePartition(s: seq<int>)
    requires forall i :: 0 <= i < |s| ==> s[i] >= 0
    ensures Burning(s) + |SafeIndices(s)| == |s|
    decreases |s|
  {
    if s != [] {
      BurningAndSafePartition(s[..|s| - 1]);
    }
  }

  /** Lighting a safe cell adds exactly one burning cell. */
  lemma {:induction false} IgniteAddsOne(s: seq<int>, i: nat)
    requires i < |s| && s[i] == 0
    ensures Burning(s[i := FullFire]) == Burning(s) + 1
    decreases |s|
  {
    var t := s[i := FullFire];
    if i == |s| - 1 {
      assert t[..|t| - 1] == s[..|s| - 1];
    } else {
      assert t[..|t| - 1] == s[..|s| - 1][i := FullFire];
      IgniteAddsOne(s[..|s| - 1], i);
    }
  }

  /** A grid with every cell at 0 has nothing burning. */
  lemma {:induction false} AllSafeNoneBurning(s: seq<int>)
    requires forall i :: 0 <= i < |s| ==> s[i] == 0
    ensures Burning(s) == 0
    decreases |s|
  {
    if s != [] {
      AllSafeNoneBurning(s[..|s| - 1]);
    }
  }
}
