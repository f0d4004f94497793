/** The per-frame driver: keep the QUEUE-band detections of a frame, score
    them, check the whole frame for an ambulance, record both in the store
    and decide the signal. */
module Pipeline {
  import opened Detections
  import opened ZoneMapper
  import opened Congestion
  import opened Emergency
  import opened Optimizer
  import opened DataStore

  /** The band of a detection, from the y coordinate of its centre. */
  function ZoneOf(d: Detection): Zone {
    ClassifyZone(d.center.1, d.frameHeight)
  }

  /** The QUEUE-band detections of a frame, in frame order. */
  function QueueOf(frame: Frame): (q: Frame)
    ensures |q| <= |frame|
    ensures forall i :: 0 <= i < |q| ==> ZoneOf(q[i]) == Queue
  {
    if frame == [] then []
    else (if ZoneOf(frame[0]) == Queue then [frame[0]] else []) + QueueOf(frame[1..])
  }

  /** Filtering a concatenation filters each part. */
  lemma {:induction false} QueueOfAppend(a: Frame, b: Frame)
    ensures QueueOf(a + b) == QueueOf(a) + QueueOf(b)
  {
    if a == [] {
      assert a + b == b;
    } else {
      assert (a + b)[1..] == a[1..] + b;
      QueueOfAppend(a[1..], b);
    }
  }

  /** No QUEUE-band detection is lost or duplicated and nothing else is
      kept: each detection occurs in the filtered list as often as in the
      frame if it is in the QUEUE band, and not at all otherwise. */
  lemma {:induction false} QueueOfCounts(frame: Frame, d: Detection)
    ensures multiset(QueueOf(frame))[d] == if ZoneOf(d) == Queue then multiset(frame)[d] else 0
  {
    if frame != [] {
      QueueOfCounts(frame[1..], d);
      assert frame == [frame[0]] + frame[1..];
    }
  }

  /** `a` is `b` with some elements left out, in the same order: the
      entries of `a` sit at strictly increasing positions `idx` of `b`. */
  ghost predicate IsSubsequenceAt(a: Frame, b: Frame, idx: seq<nat>) {
    && |idx| == |a|
    && (forall k :: 0 <= k < |idx| ==> idx[k] < |b| && a[k] == b[idx[k]])
    && (forall k, l :: 0 <= k < l < |idx| ==> idx[k] < idx[l])
  }

  ghost predicate IsSubsequence(a: Frame, b: Frame) {
    exists idx :: IsSubsequenceAt(a, b, idx)
  }

  /** Positions one further along, for a list with one more element in front. */
  function Shift(idx: seq<nat>): (r: seq<nat>)
    ensures |r| == |idx| && forall k :: 0 <= k < |idx| ==> r[k] == idx[k] + 1
  {
    seq(|idx|, k requires 0 <= k < |idx| => idx[k] + 1)
  }

  /** A subsequence of `b` is one of `[x] + b`, whether or not it takes `x`. */
  lemma SubsequenceCons(a: Frame, b: Frame, idx: seq<nat>, x: Detection)
    requires IsSubsequenceAt(a, b, idx)
    ensures IsSubsequenceAt(a, [x] + b, Shift(idx))
    ensures IsSubsequenceAt([x] + a, [x] + b, [0] + Shift(idx))
  {
    var s, xb := Shift(idx), [x] + b;
    forall k | 0 <= k < |s|
      ensures s[k] < |xb| && a[k] == xb[s[k]]
    {
      assert xb[idx[k] + 1] == b[idx[k]];
    }
    var t, xa := [0] + s, [x] + a;
    forall k | 0 <= k < |t|
      ensures t[k] < |xb| && xa[k] == xb[t[k]]
    {
      if k > 0 {
        assert t[k] == s[k - 1] && xa[k] == a[k - 1];
      }
    }
    forall k, l | 0 <= k < l < |t|
      ensures t[k] < t[l]
    {
      if k > 0 {
        assert t[k] == s[k - 1] && t[l] == s[l - 1];
      }
    }
  }

  /** The queue list keeps the frame's order. */
  lemma {:induction false} QueueOfIsSubsequence(frame: Frame)
    ensures IsSubsequence(QueueOf(frame), frame)
  {
    if frame == [] {
      assert IsSubsequenceAt([], [], []);
    } else {
      var x, tail := frame[0], frame[1..];
      var q := QueueOf(tail);
      assert frame == [x] + tail;
      QueueOfIsSubsequence(tail);
      var idx :| IsSubsequenceAt(q, tail, idx);
      SubsequenceCons(q, tail, idx, x);
      if ZoneOf(x) == Queue {
        assert QueueOf(frame) == [x] + q;
        assert IsSubsequenceAt([x] + q, [x] + tail, [0] + Shift(idx));
      } else {
        assert QueueOf(frame) == q;
        assert IsSubsequenceAt(q, [x] + tail, Shift(idx));
      }
    }
  }

  /** The inner loop of the driver: collect the QUEUE-band detections. */
  method QueueZoneVehicles(frame: Frame) returns (queue: Frame)
    ensures queue == QueueOf(frame)
  {
    queue := [];
    for i := 0 to |frame|
      invariant queue == QueueOf(frame[..i])
    {
      assert frame[..i + 1] == frame[..i] + [frame[i]];
      QueueOfAppend(frame[..i], [frame[i]]);
      assert [frame[i]][1..] == [];
      var zone := ClassifyZone(frame[i].center.1, frame[i].frameHeight);
      if zone.Name() == "QUEUE" {
        queue := queue + [frame[i]];
      }
    }
    assert frame[..|frame|] == frame;
  }

  /** The congestion score the driver records for a frame. */
  function FrameCongestion(frame: Frame): real {
    Score(QueueOf(frame))
  }

  /** The decision the driver hands to the simulator for a frame. */
  function FrameDecision(frame: Frame): Decision {
    DecideSignal(FrameCongestion(frame), HasAmbulance(frame))
  }

  /** Detections outside the QUEUE band do not change a frame's score;
      one inside it raises the score by its weight. */
  lemma FrameCongestionAppend(frame: Frame, d: Detection)
    ensures ZoneOf(d) != Queue ==> FrameCongestion(frame + [d]) == FrameCongestion(frame)
    ensures ZoneOf(d) == Queue ==>
              FrameCongestion(frame + [d]) == FrameCongestion(frame) + WeightOf(d.cls)
  {
    QueueOfAppend(frame, [d]);
    assert [d][1..] == [];
    ScoreAppend(QueueOf(frame), QueueOf([d]));
    assert Score([d]) == WeightOf(d.cls) by {
      assert [d][1..] == [];
    }
  }

  /** The emergency check looks at the whole frame: an ambulance in any
      band, even one that contributes nothing to congestion, triggers the
      override. */
  lemma AmbulanceAnywhereOverrides(frame: Frame, d: Detection)
    requires d.cls == Ambulance
    ensures ZoneOf(d) != Queue ==> FrameCongestion(frame + [d]) == FrameCongestion(frame)
    ensures FrameDecision(frame + [d]).greenTime == MaxGreenTime
    ensures FrameDecision(frame + [d]).reason == EmergencyReason
  {
    FrameCongestionAppend(frame, d);
    assert (frame + [d])[|frame|] == d;
  }

  /** Every decision's green time is a whole number of seconds in [10, 60]. */
  lemma FrameGreenTime(frame: Frame)
    ensures MinGreenTime <= FrameDecision(frame).greenTime <= MaxGreenTime
    ensures FrameDecision(frame).greenTime.Floor as real == FrameDecision(frame).greenTime
  {
  }

  /** Number of frames that hold an ambulance. */
  function EmergencyFrames(frames: seq<Frame>): (n: nat)
    ensures n <= |frames|
  {
    if frames == [] then 0
    else (if HasAmbulance(frames[0]) then 1 else 0) + EmergencyFrames(frames[1..])
  }

  lemma {:induction false} EmergencyFramesAppend(frames: seq<Frame>, frame: Frame)
    ensures EmergencyFrames(frames + [frame]) ==
            EmergencyFrames(frames) + (if HasAmbulance(frame) then 1 else 0)
  {
    if frames == [] {
      assert [frame][1..] == [];
    } else {
      assert (frames + [frame])[1..] == frames[1..] + [frame];
      EmergencyFramesAppend(frames[1..], frame);
    }
  }

  /** One iteration of the frame loop: one congestion entry, one emergency
      count only for a frame with an ambulance, one decision. */
  method ProcessFrame(frame: Frame, store: Store) returns (decision: Decision)
    modifies store
    ensures store.congestion == old(store.congestion) + [FrameCongestion(frame)]
    ensures store.emergencyCount == old(store.emergencyCount) + (if HasAmbulance(frame) then 1 else 0)
    ensures decision == FrameDecision(frame)
  {
    var queueZoneVehicles := QueueZoneVehicles(frame);
    var congestion := CalculateCongestion(queueZoneVehicles);
    var emergency := DetectEmergency(frame);
    store.AddCongestion(congestion);
    if emergency {
      store.AddEmergency();
    }
    decision := DecideSignal(congestion, emergency);
  }

  /** The scores the frame loop records, one per frame, in frame order;
      see `CongestionsAt`. */
  function Congestions(frames: seq<Frame>): (r: seq<real>)
    ensures |r| == |frames|
  {
    if frames == [] then []
    else Congestions(frames[..|frames| - 1]) + [FrameCongestion(frames[|frames| - 1])]
  }

  /** The decisions the frame loop hands on, one per frame, in frame order;
      see `DecisionsAt`. */
  function Decisions(frames: seq<Frame>): (r: seq<Decision>)
    ensures |r| == |frames|
  {
    if frames == [] then []
    else Decisions(frames[..|frames| - 1]) + [FrameDecision(frames[|frames| - 1])]
  }

  /** Entry `i` of the recorded scores is the score of frame `i`. */
  lemma {:induction false} CongestionsAt(frames: seq<Frame>, i: nat)
    requires i < |frames|
    ensures Congestions(frames)[i] == FrameCongestion(frames[i])
  {
    var init := frames[..|frames| - 1];
    if i < |init| {
      CongestionsAt(init, i);
    }
  }

  /** Decision `i` is the decision for frame `i`, and its green time lies in
      [10, 60]. */
  lemma {:induction false} DecisionsAt(frames: seq<Frame>, i: nat)
    requires i < |frames|
    ensures Decisions(frames)[i] == FrameDecision(frames[i])
    ensures MinGreenTime <= Decisions(frames)[i].greenTime <= MaxGreenTime
  {
    var init := frames[..|frames| - 1];
    if i < |init| {
      DecisionsAt(init, i);
    }
  }

  /** What one more frame adds to each of the loop's results. */
  lemma RunStep(frames: seq<Frame>, i: nat)
    requires i < |frames|
    ensures Decisions(frames[..i + 1]) == Decisions(frames[..i]) + [FrameDecision(frames[i])]
    ensures Congestions(frames[..i + 1]) == Congestions(frames[..i]) + [FrameCongestion(frames[i])]
    ensures EmergencyFrames(frames[..i + 1]) ==
            EmergencyFrames(frames[..i]) + (if HasAmbulance(frames[i]) then 1 else 0)
  {
    assert frames[..i + 1] == frames[..i] + [frames[i]];
    assert frames[..i + 1][..i] == frames[..i];
    EmergencyFramesAppend(frames[..i], frames[i]);
  }

  /** The frame loop over a whole video: the decisions handed to the
      simulator, and what is added to the store. */
  method Run(frames: seq<Frame>, store: Store) returns (decisions: seq<Decision>)
    modifies store
    ensures decisions == Decisions(frames)
    ensures store.congestion == old(store.congestion) + Congestions(frames)
    ensures store.emergencyCount == old(store.emergencyCount) + EmergencyFrames(frames)
  {
    decisions := [];
    ghost var history0 := store.congestion;
    ghost var count0 := store.emergencyCount;
    for i := 0 to |frames|
      invariant decisions == Decisions(frames[..i])
      invariant store.congestion == history0 + Congestions(frames[..i])
      invariant store.emergencyCount == count0 + EmergencyFrames(frames[..i])
    {
      var decision := ProcessFrame(frames[i], store);
      RunStep(frames, i);
      decisions := decisions + [decision];
    }
    assert frames[..|frames|] == frames;
  }
}
