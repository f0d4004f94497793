# Hemi traffic decision pipeline, in Dafny

This project models the per-frame decision pipeline of the Hemi smart-traffic
demo and proves its properties. A detector yields, for each video frame, a list of
detections `{class, bbox, center, frame_height}`. The driver then does four things.
It keeps the detections whose centre lies in the QUEUE band of the frame. It scores
them with a class-weight table, and it checks the whole frame for an ambulance.
Finally it records the score (and any emergency) in a shared store and decides the
green time of the signal. The dashboard summarises the stored history as an average
and a LOW / MEDIUM / HIGH level.

One module per source file:

- `detections.dfy` (`Detections`): the detection record the detector emits.
- `zone_mapper.dfy` (`ZoneMapper`): the three vertical bands.
- `congestion.dfy` (`Congestion`): the weight table, the score as a spec function, and the scoring loop proved against it.
- `emergency.dfy` (`Emergency`): the ambulance existence check, and the early-exit loop proved against it.
- `optimizer.dfy` (`Optimizer`): the emergency override and the clamped adaptive green time.
- `data_store.dfy` (`DataStore`): the store that the driver writes and the dashboard reads. It is a class with an append-only history and a counter.
- `dashboard.dfy` (`Dashboard`): the average and the level computed by the traffic-data endpoint.
- `pipeline.dfy` (`Pipeline`): the frame loop of `main.py`. This covers the queue filter, one frame's processing, and the run over all frames.

Numbers are Dafny `real`s, which are exact rationals. So the weight 0.5, the
thresholds `0.4·h` and `0.75·h`, and `sum/len` are modelled exactly, with no
floating-point rounding. The contracts restate each threshold in an independent
integer form: `5·y < 2·h`, `4·y < 3·h`, `sum < 10·len`.

For a non-negative frame height, the EXIT band is exactly `4·y ≥ 3·h`. For a
negative height, the QUEUE band is empty and everything at `y ≥ 0.4·h` is EXIT.
`ClassifyZone` states both cases.

## Model

| member | source | states |
|---|---|---|
| `ZoneMapper.ClassifyZone` | Hemi/vision/zone_mapper.py:1-10 | The result is one of three `Zone` values, whose `Name` is the source's string. ENTRY iff `y < 0.4·h`. QUEUE iff `0.4·h ≤ y < 0.75·h`, so `y = 0.4·h` is QUEUE. EXIT iff y is at or past both thresholds, which for `h ≥ 0` is `y ≥ 0.75·h`. |
| `ZoneMapper.ZoneMonotone` | Hemi/vision/zone_mapper.py:5-10 | For a fixed height, a larger y never gives an earlier band (ENTRY, then QUEUE, then EXIT). |
| `ZoneMapper.QueueEdge` | Hemi/vision/zone_mapper.py:5-8 | For every positive height that is a multiple of 5, the pixel exactly at 40% is QUEUE and the one above it is ENTRY. |
| `ZoneMapper.ExitEdge` | Hemi/vision/zone_mapper.py:7-10 | For every positive height that is a multiple of 4, the pixel exactly at 75% is EXIT and the one above it is QUEUE. |
| `Congestion.WeightOf` | Hemi/analytics/congestion.py:1-16 | A class in the table gets its table weight, and any other class gets 1. Every weight lies in [0.5, 3] and is a whole number of halves. |
| `Congestion.Score` | Hemi/analytics/congestion.py:14-17 | For n detections the score lies in [0.5·n, 3·n], so an empty list scores 0. Twice the score is always a whole number. |
| `Congestion.ScoreAppend` | Hemi/analytics/congestion.py:15-16 | The score is additive over list concatenation. |
| `Congestion.ScoreInsert` | Hemi/analytics/congestion.py:16 | Inserting a detection anywhere adds exactly its class weight, so the score strictly increases. |
| `Congestion.ScorePermutation` | Hemi/analytics/congestion.py:15-16 | Lists with the same elements (same multiset) have the same score, so order does not matter. |
| `Congestion.ScoreOnlyClass` | Hemi/analytics/congestion.py:16 | Only the class names enter the score. |
| `Congestion.CalculateCongestion` | Hemi/analytics/congestion.py:9-17 | The accumulator loop returns the sum of the class weights of its input, i.e. `Score`. |
| `Emergency.DetectEmergency` | Hemi/analytics/emergency.py:1-10 | The early-exit loop returns true iff some detection has class "ambulance". An empty list gives false. |
| `Emergency.HasAmbulanceAppend` | Hemi/analytics/emergency.py:7-10 | A concatenation has an ambulance iff one of its parts does. So appending detections never turns true into false. |
| `Emergency.HasAmbulancePermutation` | Hemi/analytics/emergency.py:7-10 | The verdict does not depend on the order of the detections. |
| `Emergency.HasAmbulanceOnlyClass` | Hemi/analytics/emergency.py:8 | Lists that agree on their class names get the same verdict, whatever their other fields. |
| `Optimizer.DecideSignal` | Hemi/signal_control/optimizer.py:1-19 | The signal is always GREEN. With an emergency, the green time is 60 and the reason is "Emergency Vehicle Priority". Without one, the reason is "Adaptive Congestion Control" and the green time is 10 for `score ≤ 5`, `2·score` for `5 ≤ score ≤ 30`, and 60 for `score ≥ 30`. It is always within [10, 60]. |
| `Optimizer.GreenTimeMonotone` | Hemi/signal_control/optimizer.py:13 | The adaptive green time is non-decreasing in the score. |
| `Optimizer.EmergencyIgnoresScore` | Hemi/signal_control/optimizer.py:5-10 | With an emergency, the decision is the same whatever the score. |
| `DataStore.Store.AddCongestion` | Hemi/main.py:25 | Appends the frame's score to the history and leaves the counter unchanged. |
| `DataStore.Store.AddEmergency` | Hemi/main.py:26-27 | Adds one to the emergency counter and leaves the history unchanged. |
| `DataStore.Store.GetData` | Hemi/dashboard/app.py:12 | Returns the current history and counter. |
| `Dashboard.LevelOf` | Hemi/dashboard/app.py:19-24 | LOW iff the average is below 10, MEDIUM iff it is in [10, 20), HIGH iff it is 20 or more. |
| `Dashboard.LevelMonotone` | Hemi/dashboard/app.py:19-24 | A larger average never gives a lower level, in the order LOW < MEDIUM < HIGH. |
| `Dashboard.AverageBelow` | Hemi/dashboard/app.py:18-19 | For a non-empty history, `sum/len < k` holds iff `sum < k·len`. |
| `Dashboard.ServeTrafficData` | Hemi/dashboard/app.py:11-31 | The endpoint reads the store and reports exactly `TrafficData` of the store's current history and emergency count. |
| `Dashboard.TrafficData` | Hemi/dashboard/app.py:11-31 | The history and the emergency count are returned unchanged. An empty history gives average 0 and LOW. Otherwise `average·len = sum`, the level is LOW iff `sum < 10·len`, and it is HIGH iff `sum ≥ 20·len`. |
| `Pipeline.QueueOf` | Hemi/main.py:15-20 | Every kept detection lies in the QUEUE band, and the list is no longer than the frame. |
| `Pipeline.QueueOfAppend` | Hemi/main.py:17-20 | Filtering a concatenation filters each part. |
| `Pipeline.QueueOfCounts` | Hemi/main.py:15-20 | Every QUEUE-band detection is kept as often as it occurs in the frame, and no other detection is kept. |
| `Pipeline.QueueOfIsSubsequence` | Hemi/main.py:15-20 | The queue list is an order-preserving subsequence of the frame. |
| `Pipeline.QueueZoneVehicles` | Hemi/main.py:15-20 | The inner append loop, which compares the zone's name with "QUEUE", builds exactly `QueueOf(frame)`. |
| `Pipeline.FrameCongestionAppend` | Hemi/main.py:17-22 | A detection outside the QUEUE band (judged from `center[1]` and `frame_height`) does not change the frame's score. A QUEUE-band one adds its weight. |
| `Pipeline.AmbulanceAnywhereOverrides` | Hemi/main.py:22-29 | The emergency check covers the whole frame. An ambulance in any band forces green time 60 with the emergency reason, even when it adds nothing to congestion. |
| `Pipeline.FrameGreenTime` | Hemi/main.py:22-29 | Every frame's green time is a whole number of seconds within [10, 60]. |
| `Pipeline.EmergencyFrames` | Hemi/main.py:26-27 | The number of emergency frames never exceeds the number of frames. |
| `Pipeline.EmergencyFramesAppend` | Hemi/main.py:14-27 | One more frame increases the emergency count by one iff that frame has an ambulance. |
| `Pipeline.ProcessFrame` | Hemi/main.py:15-29 | One frame adds exactly one history entry, its score. It adds one to the emergency count only when it has an ambulance. It returns that frame's decision. |
| `Pipeline.CongestionsAt` | Hemi/main.py:14-25 | Entry i of the scores the loop records is the score of frame i's QUEUE-band detections. |
| `Pipeline.DecisionsAt` | Hemi/main.py:14-29 | Decision i is the decision for frame i, and its green time lies in [10, 60]. |
| `Pipeline.RunStep` | Hemi/main.py:14-29 | One more frame appends exactly one decision and one score, in frame order. It adds one emergency only if that frame has an ambulance. |
| `Pipeline.Run` | Hemi/main.py:14-30 | The decisions handed on are `Decisions(frames)`, one per frame. The history becomes the old history followed by `Congestions(frames)`. The emergency count grows by the number of frames with an ambulance. |

## Left out

- Video capture, YOLO inference, resizing and the preview window (`Hemi/vision/detector.py`) are external. The model takes the detector's output records as input. The detector's class filter (`VALID_CLASSES`, Hemi/vision/detector.py:12) has no "ambulance" entry, so with the real detector the emergency branch never fires. The model's emergency properties hold over arbitrary detection lists.
- The console countdown of `simulate_signal` (`Hemi/simulation/simulator.py`) is printing and sleeping. `Run` returns the sequence of decisions it would be handed. A pedestrian weight makes the score a Python float. At Hemi/signal_control/optimizer.py:13, `max(10, x)` keeps the int `10` unless `x > 10`, and `min(60, y)` keeps the int `60` unless `y < 60`. So `green_time` is a float exactly when the frame has no emergency, the score is a float and `10 < 2·score < 60`. In that case alone `range(green_time, 0, -1)` fails at Hemi/simulation/simulator.py:14. That failure ends the frame loop of Hemi/main.py:14, after that frame's `add_congestion`; `Pipeline.Run` instead goes on over every frame. `FrameGreenTime` proves the value is always a whole number.
- Flask routing, `render_template`, `jsonify`, `app.run` and the `round(avg, 2)` of the reported average are web framework and float formatting. `TrafficReport.averageCongestion` is the exact, unrounded mean.
- The reported strings ("ENTRY", "QUEUE", "EXIT" and "LOW", "MEDIUM", "HIGH") are the `Name` of the `Zone` and `Level` values. The JSON encoding that would carry `Level.Name` is not modelled.
- `dashboard/data_store.py` is not part of this model. `DataStore.Store` is an abstract stand-in: an append-only history with a counter, read by `GetData`.
- IEEE floating-point behaviour of `0.4`, `0.75`, `0.5` and the division is not modelled, because all arithmetic is exact rational arithmetic. Near a band edge or a level threshold, the float result can differ from the exact one.
- Python's distinction between an int and a float score (for example `10` versus `10.0`) is not modelled. Both are one `real`.
- `Optimizer.DecideSignal`: the default `emergency=False` of Hemi/signal_control/optimizer.py:1 has no counterpart, because the only caller (Hemi/main.py:29) always passes the flag. The score is any real. Python would also accept other numeric types, such as booleans, which the model does not consider.
- The animated four-approach intersection and the car-following scripts under `All Basic code/`, the dataset and training scripts, and the YOLO inference scripts are not part of this model. They are separate programs that do not take part in the Hemi pipeline.
