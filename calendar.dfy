/** Calendar days as consecutive integers (day numbers), and the inclusive day
    range both Fitbit collectors build with
    `[start + timedelta(days=i) for i in range(delta.days + 1)]`. */
module Calendar {

  /** The days `start, start + 1, ..., end`; empty when `end < start`, because
      `range` of a non-positive count is empty. */
  function Days(start: int, end: int): (r: seq<int>)
    ensures |r| == if start <= end then end - start + 1 else 0
    ensures forall i :: 0 <= i < |r| ==> r[i] == start + i
  {
    var count := end - start + 1;
    seq(if count > 0 then count else 0, i => start + i)
  }

  /** Strictly increasing: each day comes once, in date order. */
  predicate Increasing(days: seq<int>) {
    forall i, j :: 0 <= i < j < |days| ==> days[i] < days[j]
  }

  /** The range holds exactly the days between its two ends, ascending. */
  lemma DaysContents(start: int, end: int)
    ensures Increasing(Days(start, end))
    ensures forall d :: d in Days(start, end) <==> start <= d <= end
    ensures start <= end ==> Days(start, end)[0] == start && Days(start, end)[end - start] == end
  {
    var r := Days(start, end);
    forall d | start <= d <= end ensures d in r {
      assert r[d - start] == d;
    }
  }
}
