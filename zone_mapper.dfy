/** Vertical zoning of a frame: instead of lanes, the road is cut into three
    horizontal bands, from the top of the picture down. */
module ZoneMapper {

  datatype Zone = Entry | Queue | Exit {

    /** The string the classifier returns for this zone. */
    function Name(): string {
      match this
      case Entry => "ENTRY"
      case Queue => "QUEUE"
      case Exit => "EXIT"
    }

    /** Position of the band from the top of the frame */
    function Rank(): nat {
      match this
      case Entry => 0
      case Queue => 1
      case Exit => 2
    }
  }

  /** The band that a vertical coordinate `y` falls into: above 40% of the
      frame height it is ENTRY, above 75% QUEUE, otherwise EXIT. The
      thresholds are compared exactly, as rationals. */
  function ClassifyZone(y: int, frameHeight: int): (z: Zone)
    ensures z == Entry <==> 5 * y < 2 * frameHeight
    ensures z == Queue <==> 2 * frameHeight <= 5 * y && 4 * y < 3 * frameHeight
    ensures z == Exit <==> 2 * frameHeight <= 5 * y && 3 * frameHeight <= 4 * y
    ensures 0 <= frameHeight ==> (z == Exit <==> 3 * frameHeight <= 4 * y)
  {
    if (y as real) < (frameHeight as real) * 0.4 then Entry
    else if (y as real) < (frameHeight as real) * 0.75 then Queue
    else Exit
  }

  /** Moving down the frame never returns to an earlier band. */
  lemma ZoneMonotone(y1: int, y2: int, frameHeight: int)
    requires y1 <= y2
    ensures ClassifyZone(y1, frameHeight).Rank() <= ClassifyZone(y2, frameHeight).Rank()
  {
  }

  /** The 40% edge belongs to the lower band: a point exactly on it is
      already QUEUE, the pixel above it still ENTRY. */
  lemma QueueEdge(frameHeight: int)
    requires 0 < frameHeight && frameHeight % 5 == 0
    ensures ClassifyZone(frameHeight * 2 / 5, frameHeight) == Queue
    ensures ClassifyZone(frameHeight * 2 / 5 - 1, frameHeight) == Entry
  {
  }

  /** The 75% edge belongs to the lower band: a point exactly on it is
      already EXIT, the pixel above it still QUEUE. */
  lemma ExitEdge(frameHeight: int)
    requires 0 < frameHeight && frameHeight % 4 == 0
    ensures ClassifyZone(frameHeight * 3 / 4, frameHeight) == Exit
    ensures ClassifyZone(frameHeight * 3 / 4 - 1, frameHeight) == Queue
  {
  }
}
