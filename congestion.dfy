/** Weighted vehicle count over the detections of the QUEUE band. */
module Congestion {
  import opened Detections

  /** Weight of each known class; a pedestrian counts half a motorcycle. */
  const Weights: map<string, real> :=
    map["motorcycle" := 1.0, "car" := 2.0, "bus" := 3.0, "truck" := 3.0, "person" := 0.5]

  /** Weight of a class that is not in the table. */
  const DefaultWeight: real := 1.0

  /** True when `x` is a whole number of halves. */
  predicate IsHalfInteger(x: real) {
    (2.0 * x).Floor as real == 2.0 * x
  }

  /** Whole numbers of halves are closed under addition. */
  lemma HalfIntegerAdd(x: real, y: real)
    requires IsHalfInteger(x) && IsHalfInteger(y)
    ensures IsHalfInteger(x + y)
  {
    var n, m := (2.0 * x).Floor, (2.0 * y).Floor;
    assert 2.0 * (x + y) == (n + m) as real;
  }

  /** The table lookup with its default. */
  function WeightOf(cls: string): (w: real)
    ensures cls in Weights ==> w == Weights[cls]
    ensures cls !in Weights ==> w == DefaultWeight
    ensures 0.5 <= w <= 3.0 && IsHalfInteger(w)
  {
    if cls in Weights then Weights[cls] else DefaultWeight
  }

  /** The congestion score of a list of detections: the sum of their class
      weights. Between half and three times the number of detections, and
      always a whole number of halves. */
  function Score(detections: seq<Detection>): (r: real)
    ensures (|detections| as real) * 0.5 <= r <= (|detections| as real) * 3.0
    ensures IsHalfInteger(r)
  {
    if detections == [] then 0.0
    else
      var w, rest := WeightOf(detections[0].cls), Score(detections[1..]);
      HalfIntegerAdd(w, rest);
      w + rest
  }

  /** The score of a concatenation is the sum of the scores. */
  lemma {:induction false} ScoreAppend(a: seq<Detection>, b: seq<Detection>)
    ensures Score(a + b) == Score(a) + Score(b)
  {
    if a == [] {
      assert a + b == b;
    } else {
      assert (a + b)[1..] == a[1..] + b;
      ScoreAppend(a[1..], b);
    }
  }

  /** Every further detection, wherever it is inserted, raises the score by
      its own weight, hence strictly. */
  lemma ScoreInsert(a: seq<Detection>, d: Detection, b: seq<Detection>)
    ensures Score(a + [d] + b) == Score(a + b) + WeightOf(d.cls)
    ensures Score(a + [d] + b) > Score(a + b)
  {
    ScoreAppend(a + [d], b);
    ScoreAppend(a, [d]);
    ScoreAppend(a, b);
    assert Score([d]) == WeightOf(d.cls) by {
      assert [d][1..] == [];
    }
  }

  /** The score does not depend on the order of the detections. */
  lemma {:induction false} ScorePermutation(a: seq<Detection>, b: seq<Detection>)
    requires multiset(a) == multiset(b)
    ensures Score(a) == Score(b)
  {
    if a == [] {
      assert |b| == |multiset(b)| == 0;
    } else {
      var d := a[0];
      assert d in multiset(b);
      var k :| 0 <= k < |b| && b[k] == d;
      assert b == b[..k] + [d] + b[k + 1..];
      var rest := b[..k] + b[k + 1..];
      assert a == [d] + a[1..];
      calc {
        multiset(a[1..]);
        multiset(a) - multiset{d};
        multiset(b[..k] + [d] + b[k + 1..]) - multiset{d};
        multiset(rest);
      }
      ScorePermutation(a[1..], rest);
      ScoreInsert(b[..k], d, b[k + 1..]);
    }
  }

  /** Only the class names of the detections enter the score. */
  lemma {:induction false} ScoreOnlyClass(a: seq<Detection>, b: seq<Detection>)
    requires |a| == |b|
    requires forall i :: 0 <= i < |a| ==> a[i].cls == b[i].cls
    ensures Score(a) == Score(b)
  {
    if a != [] {
      ScoreOnlyClass(a[1..], b[1..]);
    }
  }

  /** The scoring loop: an accumulator that starts at zero and adds the
      weight of each detection in turn. */
  method CalculateCongestion(detections: seq<Detection>) returns (score: real)
    ensures score == Score(detections)
  {
    score := 0.0;
    for i := 0 to |detections|
      invariant score == Score(detections[..i])
    {
      assert detections[..i + 1] == detections[..i] + [detections[i]];
      ScoreAppend(detections[..i], [detections[i]]);
      assert [detections[i]][1..] == [];
      score := score + WeightOf(detections[i].cls);
    }
    assert detections[..|detections|] == detections;
  }
}
