/** The signal decision: an emergency override, otherwise a green time that
    grows with congestion and is clamped to [10, 60] seconds. */
module Optimizer {

  const Green: string := "GREEN"
  const EmergencyReason: string := "Emergency Vehicle Priority"
  const AdaptiveReason: string := "Adaptive Congestion Control"

  /** Shortest and longest green phase, in seconds. */
  const MinGreenTime: real := 10.0
  const MaxGreenTime: real := 60.0

  /** The record handed to the signal simulator. */
  datatype Decision = Decision(signal: string, greenTime: real, reason: string)

  function Min(x: real, y: real): real { if x <= y then x else y }
  function Max(x: real, y: real): real { if x >= y then x else y }

  /** The decision for one frame, from its congestion score and whether it
      holds an emergency vehicle. */
  function DecideSignal(congestionScore: real, emergency: bool): (d: Decision)
    ensures d.signal == Green
    ensures emergency ==> d.greenTime == MaxGreenTime && d.reason == EmergencyReason
    ensures !emergency ==> d.reason == AdaptiveReason
    ensures MinGreenTime <= d.greenTime <= MaxGreenTime
    ensures !emergency && 5.0 <= congestionScore <= 30.0 ==> d.greenTime == 2.0 * congestionScore
    ensures !emergency && congestionScore <= 5.0 ==> d.greenTime == MinGreenTime
    ensures !emergency && 30.0 <= congestionScore ==> d.greenTime == MaxGreenTime
  {
    if emergency then
      Decision(Green, MaxGreenTime, EmergencyReason)
    else
      Decision(Green, Min(MaxGreenTime, Max(MinGreenTime, congestionScore * 2.0)), AdaptiveReason)
  }

  /** More congestion never shortens the adaptive green phase. */
  lemma GreenTimeMonotone(score1: real, score2: real)
    requires score1 <= score2
    ensures DecideSignal(score1, false).greenTime <= DecideSignal(score2, false).greenTime
  {
  }

  /** The override ignores the score entirely. */
  lemma EmergencyIgnoresScore(score1: real, score2: real)
    ensures DecideSignal(score1, true) == DecideSignal(score2, true)
  {
  }
}
