/** Concatenation of a sequence of batches, in order: the shape of every
    accumulator in the collectors (pages of check-ins, days of step entries,
    days of sleep records). */
module Seqs {

  /** The batches joined end to end, earliest batch first. */
  function Flatten<T>(ss: seq<seq<T>>): seq<T>
    decreases |ss|
  {
    if ss == [] then [] else Flatten(ss[..|ss| - 1]) + ss[|ss| - 1]
  }

  /** The sum of the batch sizes. */
  function TotalLength<T>(ss: seq<seq<T>>): nat
    decreases |ss|
  {
    if ss == [] then 0 else TotalLength(ss[..|ss| - 1]) + |ss[|ss| - 1]|
  }

  /** Appending one more batch appends its elements, unchanged and in order. */
  lemma FlattenSnoc<T>(ss: seq<seq<T>>, s: seq<T>)
    ensures Flatten(ss + [s]) == Flatten(ss) + s
  {
    assert (ss + [s])[..|ss|] == ss;
  }

  /** The accumulator holds exactly as many elements as all batches together. */
  lemma {:induction false} FlattenLength<T>(ss: seq<seq<T>>)
    ensures |Flatten(ss)| == TotalLength(ss)
    decreases |ss|
  {
    if ss != [] {
      FlattenLength(ss[..|ss| - 1]);
    }
  }

  /** Element `i` of batch `k` sits right after the elements of the earlier
      batches: nothing is reordered, dropped or duplicated. */
  lemma {:induction false} FlattenAt<T>(ss: seq<seq<T>>, k: nat, i: nat)
    requires k < |ss| && i < |ss[k]|
    ensures TotalLength(ss[..k]) + i < |Flatten(ss)|
    ensures Flatten(ss)[TotalLength(ss[..k]) + i] == ss[k][i]
    decreases |ss|
  {
    var n := |ss| - 1;
    var init := ss[..n];
    assert Flatten(ss) == Flatten(init) + ss[n];
    FlattenLength(init);
    if k == n {
      assert ss[..k] == init;
    } else {
      assert init[..k] == ss[..k];
      assert init[k] == ss[k];
      FlattenAt(init, k, i);
    }
  }
}
