/** Emergency detection: a frame is an emergency as soon as one of its
    detections is an ambulance. */
module Emergency {
  import opened Detections

  /** The class name that triggers the emergency override. */
  const Ambulance: string := "ambulance"

  /** Some detection in the list has the ambulance class. */
  predicate HasAmbulance(detections: seq<Detection>) {
    exists i :: 0 <= i < |detections| && detections[i].cls == Ambulance
  }

  /** The scan with early exit: true at the first ambulance, false once the
      whole list has been seen without one. */
  method DetectEmergency(detections: seq<Detection>) returns (emergency: bool)
    ensures emergency <==> HasAmbulance(detections)
    ensures detections == [] ==> !emergency
  {
    for i := 0 to |detections|
      invariant forall j :: 0 <= j < i ==> detections[j].cls != Ambulance
    {
      if detections[i].cls == Ambulance {
        return true;
      }
    }
    return false;
  }

  /** A concatenation has an ambulance exactly when one of its parts has;
      so appending detections never turns an emergency off. */
  lemma HasAmbulanceAppend(a: seq<Detection>, b: seq<Detection>)
    ensures HasAmbulance(a + b) <==> HasAmbulance(a) || HasAmbulance(b)
  {
    if HasAmbulance(a + b) {
      var i :| 0 <= i < |a + b| && (a + b)[i].cls == Ambulance;
      if i >= |a| {
        assert b[i - |a|].cls == Ambulance;
      }
    }
    if HasAmbulance(a) {
      var i :| 0 <= i < |a| && a[i].cls == Ambulance;
      assert (a + b)[i] == a[i];
    }
    if HasAmbulance(b) {
      var j :| 0 <= j < |b| && b[j].cls == Ambulance;
      assert (a + b)[|a| + j] == b[j];
    }
  }

  /** The verdict does not depend on the order of the detections. */
  lemma HasAmbulancePermutation(a: seq<Detection>, b: seq<Detection>)
    requires multiset(a) == multiset(b)
    ensures HasAmbulance(a) <==> HasAmbulance(b)
  {
    if HasAmbulance(a) {
      var i :| 0 <= i < |a| && a[i].cls == Ambulance;
      assert a[i] in multiset(b);
    }
    if HasAmbulance(b) {
      var j :| 0 <= j < |b| && b[j].cls == Ambulance;
      assert b[j] in multiset(a);
    }
  }

  /** Only the class names are inspected: box, centre and frame height
      never change the verdict. */
  lemma HasAmbulanceOnlyClass(a: seq<Detection>, b: seq<Detection>)
    requires |a| == |b|
    requires forall i :: 0 <= i < |a| ==> a[i].cls == b[i].cls
    ensures HasAmbulance(a) <==> HasAmbulance(b)
  {
  }
}
