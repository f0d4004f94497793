/** The shared store the frame loop writes and the dashboard reads: an
    append-only congestion history and a count of emergency frames. */
module DataStore {

  class Store {
    var congestion: seq<real>
    var emergencyCount: nat

    constructor ()
      ensures congestion == [] && emergencyCount == 0
    {
      congestion := [];
      emergencyCount := 0;
    }

    /** Records one frame's congestion score at the end of the history. */
    method AddCongestion(value: real)
      modifies this
      ensures congestion == old(congestion) + [value]
      ensures emergencyCount == old(emergencyCount)
    {
      congestion := congestion + [value];
    }

    /** Counts one more emergency frame. */
    method AddEmergency()
      modifies this
      ensures emergencyCount == old(emergencyCount) + 1
      ensures congestion == old(congestion)
    {
      emergencyCount := emergencyCount + 1;
    }

    /** The history and the counter, as the dashboard reads them. */
    method GetData() returns (history: seq<real>, count: nat)
      ensures history == congestion && count == emergencyCount
    {
      history, count := congestion, emergencyCount;
    }
  }
}
