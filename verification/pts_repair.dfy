/** The timestamps of a recorded stream (recorder.c): a packet that does not come after the
    previous one is moved to just after it. */
module PtsRepair {
  import opened Optional

  /** The timestamps written for the given ones. */
  function Repaired(pts: seq<int>): (r: seq<int>)
    ensures |r| == |pts|
  {
    if pts == [] then [] else
      var n := |pts| - 1;
      var before := Repaired(pts[..n]);
      before + [if n > 0 && pts[n] <= before[n - 1] then before[n - 1] + 1 else pts[n]]
  }

  class RecorderStream {
    /** None is AV_NOPTS_VALUE. */
    var lastPts: Option<int>

    constructor ()
      ensures IsAfter([])
    {
      lastPts := None;
    }

    /** The stream has written these timestamps. */
    ghost predicate IsAfter(pts: seq<int>)
      reads this
    {
      lastPts == if pts == [] then None else Some(Repaired(pts)[|pts| - 1])
    }

    /** The timestamp under which a packet is written. */
    method Write(pts: int, ghost before: seq<int>) returns (written: int)
      requires IsAfter(before)
      modifies this
      ensures IsAfter(before + [pts]) && Repaired(before + [pts]) == Repaired(before) + [written]
    {
      assert (before + [pts])[..|before|] == before;
      if lastPts.Some? && pts <= lastPts.value {
        lastPts := Some(lastPts.value + 1);
        written := lastPts.value;
      } else {
        lastPts := Some(pts);
        written := pts;
      }
    }
  }

  predicate Increasing(s: seq<int>)
  {
    forall i, j :: 0 <= i < j < |s| ==> s[i] < s[j]
  }

  lemma {:induction false} RepairedPrefix(pts: seq<int>, n: nat)
    requires n <= |pts|
    ensures Repaired(pts[..n]) == Repaired(pts)[..n]
    decreases |pts|
  {
    var m := |pts| - 1;
    if n <= m {
      RepairedPrefix(pts[..m], n);
      assert pts[..m][..n] == pts[..n];
      assert Repaired(pts)[..m] == Repaired(pts[..m]);
    } else {
      assert pts[..n] == pts;
    }
  }

  /** One step: what is written at `i`, from the input and what was written before. */
  lemma RepairedStep(pts: seq<int>, i: nat)
    requires i < |pts|
    ensures Repaired(pts)[i] == if i > 0 && pts[i] <= Repaired(pts)[i - 1] then Repaired(pts)[i - 1] + 1 else pts[i]
  {
    RepairedPrefix(pts, i + 1);
    RepairedPrefix(pts, i);
    assert pts[..i + 1][..i] == pts[..i];
    assert Repaired(pts)[i] == Repaired(pts[..i + 1])[i];
  }

  /** Each written timestamp is the largest of pts[j] + (i - j) over the packets j up to i. */
  lemma {:induction false} RepairedIsMaximum(pts: seq<int>, i: nat)
    requires i < |pts|
    ensures forall j :: 0 <= j <= i ==> Repaired(pts)[i] >= pts[j] + (i - j)
    ensures exists j :: 0 <= j <= i && Repaired(pts)[i] == pts[j] + (i - j)
  {
    RepairedStep(pts, i);
    if i > 0 {
      RepairedIsMaximum(pts, i - 1);
      var j :| 0 <= j <= i - 1 && Repaired(pts)[i - 1] == pts[j] + (i - 1 - j);
      assert Repaired(pts)[i] == pts[j] + (i - j) || Repaired(pts)[i] == pts[i] + (i - i);
    } else {
      assert Repaired(pts)[i] == pts[i] + (i - i);
    }
  }

  /** The written timestamps are the least strictly increasing ones at or above the input. */
  lemma {:induction false} RepairedIncreasing(pts: seq<int>)
    ensures Increasing(Repaired(pts))
    ensures forall i :: 0 <= i < |pts| ==> Repaired(pts)[i] >= pts[i]
  {
    if pts != [] {
      RepairedIncreasing(pts[..|pts| - 1]);
    }
  }

  lemma {:induction false} RepairedIsLeast(pts: seq<int>, other: seq<int>, i: nat)
    requires i < |pts| == |other| && Increasing(other)
    requires forall k :: 0 <= k < |pts| ==> other[k] >= pts[k]
    ensures Repaired(pts)[i] <= other[i]
  {
    RepairedStep(pts, i);
    if i > 0 {
      RepairedIsLeast(pts, other, i - 1);
    }
  }

  /** Nothing changes exactly when the input was strictly increasing. */
  lemma {:induction false} RepairedUnchanged(pts: seq<int>)
    ensures Repaired(pts) == pts <==> Increasing(pts)
  {
    RepairedIncreasing(pts);
    if Increasing(pts) {
      forall i | 0 <= i < |pts|
        ensures Repaired(pts)[i] == pts[i]
      {
        RepairedIsLeast(pts, pts, i);
      }
    }
  }
}
