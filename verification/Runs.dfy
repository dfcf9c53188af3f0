/** What all the transition systems of the model share: a property along a run. */
module Runs {

  /** A property that holds at `lo`, is kept by every step that does not break it, and is gone after every step
    * that does: it holds all along exactly if no step breaks it. */
  lemma {:induction false} Throughout(holds: seq<bool>, breaks: seq<bool>, lo: nat, hi: nat)
    requires |holds| == |breaks| + 1 && lo <= hi < |holds| && holds[lo]
    requires forall k | lo <= k < hi && holds[k] :: holds[k + 1] <==> !breaks[k]
    ensures (forall k | lo <= k <= hi :: holds[k]) <==> (forall k | lo <= k < hi :: !breaks[k])
  {
    if lo < hi {
      Throughout(holds, breaks, lo, hi - 1);
      assert holds[hi - 1] ==> (holds[hi - 1 + 1] <==> !breaks[hi - 1]);
    }
  }

  /** A property that holds at `lo` and is kept by every step up to `hi` holds all along. */
  lemma {:induction false} AllAlong(holds: seq<bool>, lo: nat, hi: nat)
    requires lo <= hi < |holds| && holds[lo]
    requires forall k | lo <= k < hi && holds[k] :: holds[k + 1]
    ensures forall k | lo <= k <= hi :: holds[k]
  {
    if lo < hi {
      AllAlong(holds, lo, hi - 1);
      assert holds[hi - 1] ==> holds[hi - 1 + 1];
    }
  }

  /** What is in a later set and not in the first came in with some step. */
  lemma {:induction false} Entry<T>(sets: seq<set<T>>, i: nat, x: T) returns (k: nat)
    requires i < |sets| && x in sets[i] && x !in sets[0]
    ensures k < i && x !in sets[k] && x in sets[k + 1]
  {
    if x in sets[i - 1] {
      k := Entry(sets, i - 1, x);
    } else {
      k := i - 1;
    }
  }
}
