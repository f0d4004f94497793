/** The summary behind the dashboard's traffic-data endpoint: the average of
    the congestion history and a three-step congestion level. */
module Dashboard {
  import opened DataStore

  datatype Level = Low | Medium | High {

    /** The string the endpoint reports. */
    function Name(): string {
      match this
      case Low => "LOW"
      case Medium => "MEDIUM"
      case High => "HIGH"
    }

    function Rank(): nat {
      match this
      case Low => 0
      case Medium => 1
      case High => 2
    }
  }

  /** The endpoint's payload, before rounding and JSON encoding. */
  datatype TrafficReport = TrafficReport(
    congestionHistory: seq<real>,
    averageCongestion: real,
    congestionLevel: Level,
    emergencyCount: nat)

  /** Sum of a list of scores. */
  function Sum(xs: seq<real>): real {
    if xs == [] then 0.0 else xs[0] + Sum(xs[1..])
  }

  /** The level of an average: below 10 LOW, below 20 MEDIUM, else HIGH. */
  function LevelOf(average: real): (l: Level)
    ensures l == Low <==> average < 10.0
    ensures l == Medium <==> 10.0 <= average < 20.0
    ensures l == High <==> 20.0 <= average
  {
    if average < 10.0 then Low
    else if average < 20.0 then Medium
    else High
  }

  /** A larger average never gives a lower level. */
  lemma LevelMonotone(a1: real, a2: real)
    requires a1 <= a2
    ensures LevelOf(a1).Rank() <= LevelOf(a2).Rank()
  {
  }

  /** `avg < k` exactly when `sum < k * len`, for the average of a
      non-empty list. */
  lemma AverageBelow(sum: real, len: nat, k: real)
    requires 0 < len
    ensures sum / (len as real) < k <==> sum < k * (len as real)
  {
  }

  /** The data the endpoint reports for a history and an emergency count:
      history and count unchanged, average 0 and level LOW for an empty
      history, otherwise the mean and the level it falls into. */
  function TrafficData(congestion: seq<real>, emergencyCount: nat): (r: TrafficReport)
    ensures r.congestionHistory == congestion && r.emergencyCount == emergencyCount
    ensures congestion == [] ==> r.averageCongestion == 0.0 && r.congestionLevel == Low
    ensures congestion != [] ==> r.averageCongestion * (|congestion| as real) == Sum(congestion)
    ensures congestion != [] ==>
              (r.congestionLevel == Low <==> Sum(congestion) < 10.0 * (|congestion| as real))
    ensures congestion != [] ==>
              (r.congestionLevel == High <==> 20.0 * (|congestion| as real) <= Sum(congestion))
  {
    if |congestion| == 0 then
      TrafficReport(congestion, 0.0, Low, emergencyCount)
    else
      var avg := Sum(congestion) / (|congestion| as real);
      AverageBelow(Sum(congestion), |congestion|, 10.0);
      AverageBelow(Sum(congestion), |congestion|, 20.0);
      TrafficReport(congestion, avg, LevelOf(avg), emergencyCount)
  }

  /** The traffic-data endpoint: read the store, then summarise it. */
  method ServeTrafficData(store: Store) returns (r: TrafficReport)
    ensures r == TrafficData(store.congestion, store.emergencyCount)
  {
    var congestion, emergencyCount := store.GetData();
    r := TrafficData(congestion, emergencyCount);
  }
}
