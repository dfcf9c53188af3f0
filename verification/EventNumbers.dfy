/** The sequence numbers of one task's events. INCR and XADD are separate commands, so appenders that work at
  * the same time take turns between them. */
module EventNumbers {
  import opened Runs

  /** `drawn` holds the numbers of appenders that are between INCR and XADD. */
  datatype Numbers = Numbers(counter: nat, drawn: map<nat, nat>, stream: seq<nat>)

  datatype Step =
    | Increment(appender: nat)
    | Add(appender: nat)
    | Stop(appender: nat)  // the appender dies or its XADD raises

  predicate Can(s: Numbers, a: Step) {
    if a.Increment? then a.appender !in s.drawn else a.appender in s.drawn
  }

  function Do(s: Numbers, a: Step): Numbers
    requires Can(s, a)
  {
    match a
    case Increment(p) => Numbers(s.counter + 1, s.drawn[p := s.counter + 1], s.stream)
    case Add(p) => Numbers(s.counter, s.drawn - {p}, s.stream + [s.drawn[p]])
    case Stop(p) => s.(drawn := s.drawn - {p})
  }

  ghost predicate Unique(stream: seq<nat>) {
    forall i, j | 0 <= i < j < |stream| :: stream[i] != stream[j]
  }

  ghost predicate Inv(s: Numbers) {
    && Unique(s.stream)
    && (forall n | n in s.stream :: 1 <= n <= s.counter)
    && (forall p | p in s.drawn :: 1 <= s.drawn[p] <= s.counter && s.drawn[p] !in s.stream)
    && (forall p, q | p in s.drawn && q in s.drawn && p != q :: s.drawn[p] != s.drawn[q])
  }

  lemma StepInv(s: Numbers, a: Step)
    requires Inv(s) && Can(s, a)
    ensures Inv(Do(s, a))
  {
  }

  ghost predicate Run(ss: seq<Numbers>, steps: seq<Step>) {
    && |ss| == |steps| + 1 && ss[0] == Numbers(0, map[], [])
    && forall i | 0 <= i < |steps| :: Can(ss[i], steps[i]) && ss[i + 1] == Do(ss[i], steps[i])
  }

  lemma {:induction false} RunInv(ss: seq<Numbers>, steps: seq<Step>, i: nat)
    requires Run(ss, steps) && i < |ss|
    ensures Inv(ss[i])
  {
    if i > 0 {
      RunInv(ss, steps, i - 1);
      StepInv(ss[i - 1], steps[i - 1]);
    }
  }

  /** No two events of a task ever have the same number, whatever the interleaving and whoever stops. */
  lemma NumbersUnique(ss: seq<Numbers>, steps: seq<Step>, i: nat)
    requires Run(ss, steps) && i < |ss|
    ensures Unique(ss[i].stream)
  {
    RunInv(ss, steps, i);
  }

  ghost predicate InOrder(stream: seq<nat>) {
    forall i, j | 0 <= i < j < |stream| :: stream[i] < stream[j]
  }

  /** An appender adds its event after one with a higher number. */
  predicate IsLate(s: Numbers, a: Step) {
    a.Add? && a.appender in s.drawn && exists n | n in s.stream :: n > s.drawn[a.appender]
  }

  lemma StepInOrder(s: Numbers, a: Step)
    requires Inv(s) && Can(s, a) && InOrder(s.stream)
    ensures InOrder(Do(s, a).stream) <==> !IsLate(s, a)
  {
    if a.Add? {
      var n, stream := s.drawn[a.appender], s.stream + [s.drawn[a.appender]];
      if IsLate(s, a) {
        var i :| 0 <= i < |s.stream| && s.stream[i] > n;
        assert stream[i] > stream[|s.stream|];
      } else {
        forall i | 0 <= i < |s.stream| ensures stream[i] < n {
          assert stream[i] in s.stream;
        }
      }
    }
  }

  /** The stream is in the order of its numbers exactly as long as no appender comes late. */
  lemma InOrderIff(ss: seq<Numbers>, steps: seq<Step>, i: nat)
    requires Run(ss, steps) && i < |ss|
    ensures (forall k | 0 <= k <= i :: InOrder(ss[k].stream)) <==> (forall k | 0 <= k < i :: !IsLate(ss[k], steps[k]))
  {
    var holds := seq(|ss|, k requires 0 <= k < |ss| => InOrder(ss[k].stream));
    var breaks := seq(|steps|, k requires 0 <= k < |steps| => IsLate(ss[k], steps[k]));
    forall k | 0 <= k < |breaks| && holds[k] ensures holds[k + 1] <==> !breaks[k] {
      RunInv(ss, steps, k);
      StepInOrder(ss[k], steps[k]);
    }
    Throughout(holds, breaks, 0, i);
    forall k | 0 <= k <= i ensures InOrder(ss[k].stream) == holds[k] {
    }
    forall k | 0 <= k < i ensures IsLate(ss[k], steps[k]) == breaks[k] {
    }
  }

  /** Two appenders can swap: the one that drew its number first adds its event last. */
  lemma OutOfOrder() returns (ss: seq<Numbers>, steps: seq<Step>)
    ensures Run(ss, steps) && ss[|ss| - 1].stream == [2, 1]
  {
    var s0 := Numbers(0, map[], []);
    steps := [Increment(0), Increment(1), Add(1), Add(0)];
    var s1 := Do(s0, steps[0]);
    var s2 := Do(s1, steps[1]);
    var s3 := Do(s2, steps[2]);
    ss := [s0, s1, s2, s3, Do(s3, steps[3])];
  }
}
