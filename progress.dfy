// The per-sector progress map the formatter keeps while it writes
// (main.go `progressTracker`).

module Progress {
  import opened Bytes

  /** `s` with every index in [lo, hi) set; indices outside `s` are ignored. */
  function Marked(s: seq<bool>, lo: int, hi: int): (r: seq<bool>)
    ensures |r| == |s|
  {
    seq(|s|, i requires 0 <= i < |s| => s[i] || (lo <= i < hi))
  }

  /** The number of entries that are set. */
  function CountTrue(s: seq<bool>): (n: nat)
    ensures n <= |s|
  {
    if |s| == 0 then 0 else CountTrue(s[..|s| - 1]) + (if s[|s| - 1] then 1 else 0)
  }

  /** Every entry set in `s` is set in `t`. */
  predicate Below(s: seq<bool>, t: seq<bool>) {
    |s| == |t| && forall i :: 0 <= i < |s| ==> s[i] ==> t[i]
  }

  /** Setting entries never lowers the count. */
  lemma {:induction false} CountMonotone(s: seq<bool>, t: seq<bool>)
    requires Below(s, t)
    ensures CountTrue(s) <= CountTrue(t)
    decreases |s|
  {
    if |s| > 0 {
      CountMonotone(s[..|s| - 1], t[..|t| - 1]);
    }
  }

  /** A map that is set exactly on [lo, hi) counts hi - lo entries. */
  lemma {:induction false} CountInterval(n: nat, lo: nat, hi: nat)
    requires lo <= hi <= n
    ensures CountTrue(Marked(seq(n, _ => false), lo, hi)) == hi - lo
    decreases n
  {
    var s := Marked(seq(n, _ => false), lo, hi);
    if n > 0 {
      var m := n - 1;
      assert s[..m] == Marked(seq(m, _ => false), lo, Min(hi, m));
      CountInterval(m, Min(lo, m), Min(hi, m));
      assert Marked(seq(m, _ => false), Min(lo, m), Min(hi, m)) == Marked(seq(m, _ => false), lo, Min(hi, m));
    }
  }

  /** Marking a range only ever sets entries, so the written count never decreases. */
  lemma MarkedGrows(s: seq<bool>, lo: int, hi: int)
    ensures Below(s, Marked(s, lo, hi))
    ensures CountTrue(s) <= CountTrue(Marked(s, lo, hi)) <= |s|
  {
    CountMonotone(s, Marked(s, lo, hi));
  }

  /** Clamping the end of a range to the map changes nothing. */
  lemma MarkedClamp(s: seq<bool>, lo: int, hi: int)
    ensures Marked(s, lo, Min(hi, |s|)) == Marked(s, lo, hi)
  {
  }

  /** Marking two adjacent ranges marks their union. */
  lemma MarkedJoin(s: seq<bool>, lo: int, mid: int, hi: int)
    requires lo <= mid <= hi
    ensures Marked(Marked(s, lo, mid), mid, hi) == Marked(s, lo, hi)
  {
  }

  /** Marking a range again changes nothing. */
  lemma MarkedTwice(s: seq<bool>, lo: int, hi: int)
    ensures Marked(Marked(s, lo, hi), lo, hi) == Marked(s, lo, hi)
  {
  }

  /** Marking the sector after a marked run extends the run by one. */
  lemma MarkNext(orig: seq<bool>, cur: seq<bool>, next: seq<bool>, lo: int, j: nat)
    requires cur == Marked(orig, lo, lo + j)
    requires next == Marked(cur, lo + j, Min(lo + j + 1, |cur|))
    ensures next == Marked(orig, lo, lo + j + 1)
  {
    MarkedClamp(cur, lo + j, lo + j + 1);
    MarkedJoin(orig, lo, lo + j, lo + j + 1);
  }

  /**
   * main.go `progressTracker`: one flag per sector of the volume and the
   * position of the last sector marked.
   */
  class ProgressTracker {
    const progressMap: array<bool>
    const totalSectors: I64
    var currentPos: I64

    ghost predicate Valid()
      reads this
    {
      progressMap.Length == totalSectors
    }

    /** main.go `newProgressTracker`: an all-clear map of `total` flags. */
    constructor(total: I64)
      requires total >= 0
      ensures Valid() && fresh(progressMap)
      ensures totalSectors == total && currentPos == 0
      ensures progressMap[..] == seq(total, _ => false)
    {
      progressMap := new bool[total](_ => false);
      totalSectors := total;
      currentPos := 0;
    }

    /**
     * main.go `markRange`: sets the flags of [start, start + count), with
     * the end clamped to the volume and indices outside the map skipped,
     * and moves the position to the last sector of the range.
     */
    method MarkRange(start: int, count: int)
      requires Valid()
      modifies this, progressMap
      ensures Valid()
      ensures progressMap[..] == Marked(old(progressMap[..]), start, Min(start + count, totalSectors))
      ensures currentPos == if Min(start + count, totalSectors) - 1 >= 0
                            then Min(start + count, totalSectors) - 1 else old(currentPos)
    {
      var end := start + count;
      if end > totalSectors {
        end := totalSectors;
      }
      var i := start;
      while i < end
        invariant start <= i && (i <= end || i == start)
        invariant currentPos == old(currentPos)
        invariant progressMap[..] == Marked(old(progressMap[..]), start, i)
      {
        if i >= 0 && i < progressMap.Length {
          progressMap[i] := true;
        }
        i := i + 1;
      }
      assert progressMap[..] == Marked(old(progressMap[..]), start, end);
      if end - 1 >= 0 {
        currentPos := end - 1;
      }
    }

    /** main.go `writtenCount`: how many sectors are marked. */
    method WrittenCount() returns (count: int)
      requires Valid()
      ensures count == CountTrue(progressMap[..])
      ensures 0 <= count <= totalSectors
    {
      count := 0;
      var i := 0;
      while i < progressMap.Length
        invariant 0 <= i <= progressMap.Length
        invariant count == CountTrue(progressMap[..i])
      {
        assert progressMap[..i + 1][..i] == progressMap[..i];
        if progressMap[i] {
          count := count + 1;
        }
        i := i + 1;
      }
      assert progressMap[..i] == progressMap[..];
    }
  }
}
