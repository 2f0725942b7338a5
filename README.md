# VAR football pipeline: per-frame decision logic in Dafny

This project models the per-frame decisions of the football VAR pipeline.
Each frame goes through these steps:

- **Trackers** turn object detections (ball "0", goalkeeper "1", player "2",
  referee "3") into tracks.
- A **team assigner** labels every track with a team and a display colour.
- A **possession assigner** names the player nearest the ball.
- A **kick detector** flags kicks.
- An **offside detector** and an **event detector** turn kick and
  possession changes into an "Offside" event.
- The **`LiveProcessor`** orchestrator drives all of these, frame by frame.

Two more parts are modelled:

- the out-of-play deciders (throw-in, corner/goal kick);
- the pitch-boundary selection that works on the lines found in a frame.

Every vision or learning component is an oracle. Its reply is a parameter of
the model. These oracles are:

- the object detector;
- ByteTrack and DeepSort;
- KMeans;
- the mean colour of an image region;
- optical flow;
- Canny/Hough line finding and line angles;
- the Euclidean norm used by the ball score.

The repository has two variants of several components:

- the variants the live stream wires in (`core/*.py`);
- the newer, unwired variants (`core/assigners/*`, `core/trackers/*`).

Each variant is modelled separately where the two behave differently. The
two ball trackers behave the same on well-formed input, so `BallTracker`
models both.

How the model is written:

- Stateful components are classes whose fields are the source's fields.
- Each class method is proved equal to a pure step function of the old
  state (`Snapshot()`).
- Lemmas state what the source promises about that step function.
- Loops stay loops, with invariants that tie them to folds over prefixes of
  the input.
- Distances are compared as squares. Outside the ball score, the source
  only compares distances with a threshold or with each other, so squares
  give the same answers. The ball score adds a distance linearly, so there
  the distance is an oracle `norm` instead.
- Python's `int()` on floats is `Common.Trunc`, which truncates toward zero.
- `str()`/`int()` on integers are `Numerals.IntToString`/`ParseInt`.

Properties proved about the source's surprising behaviour:

- **Offside can never fire.** The rule graph lists "Attacker is ..."
  conditions, but the offside evaluator only recognises "Player is ..."
  conditions. So the candidate list is always empty, and the event detector
  never raises "Offside" (`OffsideDetector.NoCandidatesFromGraph`,
  `EventDetector.NeverOffside`).
- **The ball tracker returns a stale ball** when optical flow fails
  (`BallTracker.StaleBall`).
- **The half-time toggle** restores the state only when both directions are
  "left" or "right" (`Stream.ToggleTwice`).
- **The wired team assigner loses the shirt of a box that overhangs the
  frame's left edge.** Python slicing wraps a negative start around, so the
  shirt region is empty (`TeamAssign.OverhangLosesShirt`).

## Model

| member | source | states |
|---|---|---|
| Common.Trunc | utils/bbox_utils.py:84 | `int()` truncates toward zero: for r ≥ 0 the result is the floor, for r < 0 the ceiling |
| Numerals.IntToString | core/player_tracker.py:53 | `str(n)` is non-empty and starts with '-' exactly for negative n |
| Numerals.RoundTrip | core/player_tracker.py:53 | `int(str(n)) == n`: a track's class text reads back as the class ByteTrack reported |
| Numerals.TextInjective | core/trackers/player_tracker.py:95 | distinct classes give distinct class texts |
| BBoxUtils.Width | utils/bbox_utils.py:41 | `get_bbox_width` is `x2 - x1`; it is non-negative exactly when x1 ≤ x2 |
| BBoxUtils.Height | utils/bbox_utils.py:14 | the height factor of the area is `y2 - y1` |
| BBoxUtils.Area | utils/bbox_utils.py:3-14 | `get_bbox_area` is width times height; it is ≥ 0 for an ordered box and 0 for a flat box |
| BBoxUtils.Centre | utils/bbox_utils.py:17-28 | `get_centre` is equidistant from both corners and lies between them |
| BBoxUtils.SquareNonNegative | utils/bbox_utils.py:55 | each squared term of the distance is non-negative |
| BBoxUtils.SquareZero | utils/bbox_utils.py:55 | a squared term is zero exactly when its difference is zero |
| BBoxUtils.DistanceNonNegative | utils/bbox_utils.py:44-55 | `measure_distance` is ≥ 0 and is zero exactly when the points coincide (stated on the squared distance) |
| BBoxUtils.DistanceSymmetric | utils/bbox_utils.py:55 | `measure_distance(p, q) == measure_distance(q, p)` |
| BBoxUtils.XyDistance | utils/bbox_utils.py:58-69 | `measure_xy_distance(p, q)` is the offset that moves q onto p |
| BBoxUtils.XyDistanceAntisymmetric | utils/bbox_utils.py:69 | swapping the arguments negates both components |
| BBoxUtils.FootPosition | utils/bbox_utils.py:72-84 | `get_foot_position` is (int of the centre x, int of y2), and for a non-negative ordered box it lies between the floors of x1 and x2 |
| History.KeepLast | core/ball_tracker.py:9 | a bounded deque, or a `[-5:]` slice, keeps exactly the newest min(len, n) entries, in order |
| History.EstimateVelocity | core/ball_tracker.py:94-99 | velocity is zero with fewer than two centres, otherwise the step from the second-last centre to the last |
| History.RecordBounded | core/player_tracker.py:42-46 | after a centre is recorded, the history holds between 1 and 5 centres and ends with the new one |
| History.VelocityAfterRecord | core/trackers/ball_tracker.py:146-150 | after recording, the velocity is the step from the previously recorded centre, or zero on first sight |
| ArgMin.FirstMin | core/assigners/player_ball_assign.py:55-57 | the strict running minimum returns a position that holds a present value |
| ArgMin.FirstMinNone | core/assigners/player_ball_assign.py:30-31 | the running minimum finds nothing exactly when every candidate is absent |
| ArgMin.FirstMinSound | core/assigners/player_ball_assign.py:55-57 | the found position holds a smallest value, and every earlier candidate is strictly larger (first wins ties) |
| ArgMin.FirstMinUnique | core/assigners/player_ball_assign.py:55-57 | at most one position is the first smallest |
| ArgMin.FirstMinIff | core/assigners/player_ball_assign.py:55-57 | the running minimum returns k exactly when k is the first smallest |
| ArgMin.FirstMinAppendAbsent | core/player_ball_assign.py:29 | appending skipped candidates never changes the result |
| Possession.CornerDistanceSq | core/assigners/player_ball_assign.py:45-52 | the distance is the smaller of the bottom-left and bottom-right corner distances to the ball centre |
| Possession.Owner | core/assigners/player_ball_assign.py:34-57 | a chosen position is a position of the list and holds a measured player |
| Possession.OwnerIff | core/assigners/player_ball_assign.py:36-57 | player k is chosen exactly when it is measured, within 70, no farther than any measured player, and strictly nearer than every measured player before it |
| Possession.NoOwnerIff | core/assigners/player_ball_assign.py:30-59 | nobody is chosen exactly when no measured player is within 70 |
| Possession.AppendFarPlayers | core/player_ball_assign.py:17-31 | appending players that are not measured or out of reach never changes the result |
| AssignersPlayerBallAssign.AssignBallToPlayer | core/assigners/player_ball_assign.py:16-59 | the loop returns the id of the player chosen among class "2" tracks with four-value boxes, or -1 when there is none |
| AssignersPlayerBallAssign.NoPlayersNoOwner | core/assigners/player_ball_assign.py:30-43 | without a class "2" track with a four-value box the result is -1 |
| AssignersPlayerBallAssign.SkipsMalformedBoxes | core/assigners/player_ball_assign.py:40-43 | tracks whose box does not have four values never change who is chosen |
| PlayerBallAssign.AssignBallToPlayer | core/player_ball_assign.py:11-33 | the loop returns the id of the player chosen among all class "2" tracks, or -1 |
| PlayerBallAssign.AgreesWithGuardedVariant | core/player_ball_assign.py:17-31 | when every class "2" box has four values, both variants choose the same player |
| AssignersBallKickDetector.Gap | core/assigners/Ball_Kick_Detector.py:30-31 | the edge gap is ≥ 0, is one of its arguments, and is 0 exactly when the intervals overlap |
| AssignersBallKickDetector.Run | core/assigners/Ball_Kick_Detector.py:14-47 | one verdict per call |
| AssignersBallKickDetector.OverlapTouches | core/assigners/Ball_Kick_Detector.py:30-37 | overlapping boxes are at distance 0, so they touch at any non-negative threshold |
| AssignersBallKickDetector.StepIff | core/assigners/Ball_Kick_Detector.py:20-47 | a rejected input returns False and keeps the flag; a call returns True exactly when armed and the ball is away; a valid call arms exactly on a touch |
| AssignersBallKickDetector.FinalIff | core/assigners/Ball_Kick_Detector.py:36-44 | the flag is set exactly when the last valid call saw a touch |
| AssignersBallKickDetector.RunAt | core/assigners/Ball_Kick_Detector.py:36-47 | call i returns the step's verdict from the flag left by the calls before it |
| AssignersBallKickDetector.KickIff | core/assigners/Ball_Kick_Detector.py:36-47 | from a fresh detector, call i reports a kick exactly when the ball is away and the last valid call before it saw a touch |
| AssignersBallKickDetector.NoConsecutiveKicks | core/assigners/Ball_Kick_Detector.py:36-47 | two consecutive calls never both return True |
| AssignersBallKickDetector.ExampleObservations | core/assigners/Ball_Kick_Detector.py:8-38 | with the default threshold 5, a gap of 3 touches and a gap of 10 does not |
| AssignersBallKickDetector.ExampleTrace | core/assigners/Ball_Kick_Detector.py:36-47 | distances 3, 3, 3, 10, 10 give False, False, False, True, False |
| AssignersBallKickDetector.BallKickDetector.constructor | core/assigners/Ball_Kick_Detector.py:8-12 | the threshold is stored and the detector starts disarmed |
| AssignersBallKickDetector.BallKickDetector.Update | core/assigners/Ball_Kick_Detector.py:14-47 | the new flag and the verdict are those of one step on the observed distance |
| InstanceBallKickDetector.Step | core/instance_detecor/Ball_Kick_Detector.py:11-37 | after every call the last position is the given one and the state stays consistent |
| InstanceBallKickDetector.Final | core/instance_detecor/Ball_Kick_Detector.py:11-37 | the state after a run stays consistent |
| InstanceBallKickDetector.Run | core/instance_detecor/Ball_Kick_Detector.py:11-37 | one verdict per call |
| InstanceBallKickDetector.StepSpec | core/instance_detecor/Ball_Kick_Detector.py:12-35 | the first call stores the position and zero velocity and returns False; later calls store the position and its difference, even in cooldown, and return True exactly when out of cooldown with speed > 8 and acceleration > 5, which records the frame |
| InstanceBallKickDetector.RunAt | core/instance_detecor/Ball_Kick_Detector.py:11-37 | call i returns the step's verdict from the state left by the calls before it |
| InstanceBallKickDetector.CooldownSilences | core/instance_detecor/Ball_Kick_Detector.py:29-30 | a call less than 5 frames after the last kick returns False |
| InstanceBallKickDetector.FirstCallSilent | core/instance_detecor/Ball_Kick_Detector.py:12-15 | the first call of a fresh detector returns False |
| InstanceBallKickDetector.KickFrameBound | core/instance_detecor/Ball_Kick_Detector.py:29-34 | with non-decreasing frames, the recorded kick frame is at least the frame of every kick so far |
| InstanceBallKickDetector.KicksSpaced | core/instance_detecor/Ball_Kick_Detector.py:9-34 | with non-decreasing frames, any two kicks are at least 5 frames apart |
| InstanceBallKickDetector.StationaryNeverKicks | core/instance_detecor/Ball_Kick_Detector.py:17-35 | a ball that never moves is never reported kicked |
| InstanceBallKickDetector.BallKickDetector.constructor | core/instance_detecor/Ball_Kick_Detector.py:4-9 | thresholds are stored, there is no position or velocity yet, and the kick frame is -30 |
| InstanceBallKickDetector.BallKickDetector.Update | core/instance_detecor/Ball_Kick_Detector.py:11-37 | the new fields and the verdict are those of one step |
| BallTracker.Balls | core/trackers/ball_tracker.py:100 | exactly the class "0" detections are kept, each with a four-value box |
| BallTracker.Scores | core/trackers/ball_tracker.py:113-128 | one score per ball: distance + (1 - conf)·100, less 50 for a confident jump over 100 with a last ball |
| BallTracker.SelectBestChosen | core/trackers/ball_tracker.py:99-139 | a chosen detection is an input ball scoring ≤ 150, no more than any ball, and strictly less than every earlier ball |
| BallTracker.SelectBestNone | core/trackers/ball_tracker.py:100-139 | nothing is chosen exactly when every ball scores above 150 (exactly 150 is kept) |
| BallTracker.NoBallNone | core/trackers/ball_tracker.py:100-102 | without a class "0" detection nothing is chosen |
| BallTracker.NoLastBallMostConfident | core/trackers/ball_tracker.py:117-139 | without a last ball a most confident ball is chosen, and one is chosen exactly when some ball has confidence ≥ -0.5 |
| BallTracker.FlowBox | core/trackers/ball_tracker.py:68-72 | the flow box keeps the previous width and height and is centred on the tracked point |
| BallTracker.AdoptSpec | core/trackers/ball_tracker.py:42-58 | placing the ball keeps at most 5 centres, ends the history with the new centre and sets the velocity to the last step |
| BallTracker.UpdateStep | core/trackers/ball_tracker.py:25-91 | every call keeps the stored boxes four-valued and the history bounded |
| BallTracker.OutputShape | core/trackers/ball_tracker.py:19-91 | at most one track, with id 1 and class "0"; no image gives [] and no change; with a last ball, every call with an image returns one track |
| BallTracker.DetectionUpdates | core/trackers/ball_tracker.py:40-58 | a chosen detection's box becomes the output box and the flow reference, its centre ends the history, and the velocity is the last step |
| BallTracker.FlowUpdates | core/trackers/ball_tracker.py:60-88 | a successful flow step moves the ball: same size, centred on the flow point, which ends the history |
| BallTracker.StaleBall | core/trackers/ball_tracker.py:60-91 | with no choice and no flow reference, or a failed flow step, the state is unchanged and the old ball is returned again |
| BallTracker.BallTracker.constructor | core/trackers/ball_tracker.py:11-23 | no ball, empty history, no flow reference |
| BallTracker.BallTracker.SelectBestBall | core/trackers/ball_tracker.py:93-139 | the scoring loop returns the selection specified by the first-lowest-score rule |
| BallTracker.BallTracker.Update | core/ball_tracker.py:15-53 | the new state and the output are those of one update step |
| PlayerTracking.TrackerInput | core/player_tracker.py:16-21 | no more detections are handed on than were given |
| PlayerTracking.TrackerInputIff | core/trackers/player_tracker.py:28-34 | ByteTrack receives exactly the converted detections not of class "0" |
| PlayerTracking.TrackerInputEmpty | core/trackers/player_tracker.py:28-38 | nothing is handed on exactly when every detection is of class "0" |
| PlayerTracking.CollectDetections | core/player_tracker.py:16-21 | the input loop builds exactly the tracker input |
| PlayerTracking.IdsIff | core/trackers/player_tracker.py:58-66 | an id is among the reported ids exactly when some row carries it |
| PlayerTracking.RememberKeeps | core/trackers/player_tracker.py:81-86 | recording a centre keeps every history between 1 and 5 entries and touches no other id |
| PlayerTracking.RememberLatest | core/trackers/player_tracker.py:81-89 | the id's history ends with the new centre, and the velocity is the step from the previous centre, or zero on first sight |
| PlayerTracker.RowTrack | core/player_tracker.py:50-55 | the track carries the row's id and box, a class text that reads back as the row's class, and no team or possessor |
| PlayerTracker.RowStep | core/player_tracker.py:36-55 | one row appends exactly one track |
| PlayerTracker.Process | core/player_tracker.py:35-57 | one track per row, repeated ids included |
| PlayerTracker.ProcessTracks | core/player_tracker.py:36-55 | track i has row i's id and box and a class text that reads back as row i's class |
| PlayerTracker.ProcessHistories | core/player_tracker.py:42-46 | histories stay bounded by 5 and gain exactly the reported ids |
| PlayerTracker.RowStepVelocity | core/player_tracker.py:48 | a track's velocity is the step from its id's previous centre, or zero on first sight |
| PlayerTracker.PlayerTracker.constructor | core/player_tracker.py:6-8 | no histories |
| PlayerTracker.PlayerTracker.Update | core/player_tracker.py:10-57 | ByteTrack is always called with the non-ball detections (even none), and the histories and tracks are those of the result loop |
| TrackersPlayerTracker.RowTrack | core/trackers/player_tracker.py:92-97 | the track carries the row's id |
| TrackersPlayerTracker.Process | core/trackers/player_tracker.py:55-99 | no more tracks than rows |
| TrackersPlayerTracker.RowStepClasses | core/trackers/player_tracker.py:69-76 | a recorded class never changes; a new id records its class; the id leaves `prev_assignments` exactly on a class mismatch; every other entry is untouched |
| TrackersPlayerTracker.RowStepTrack | core/trackers/player_tracker.py:78-97 | an unseen row appends one track with the kept class and the velocity from its bounded history, which ends with the row's centre |
| TrackersPlayerTracker.KeepsRecords | core/trackers/player_tracker.py:69-76 | one row keeps recorded classes, and `prev_assignments` only loses entries |
| TrackersPlayerTracker.KeepsSeen | core/trackers/player_tracker.py:63-66 | one row keeps `seen_ids` equal to the ids output |
| TrackersPlayerTracker.KeepsDistinct | core/trackers/player_tracker.py:63-66 | one row keeps the output ids distinct |
| TrackersPlayerTracker.KeepsCurrent | core/trackers/player_tracker.py:69-97 | one row keeps every output track consistent with its id's recorded class and history |
| TrackersPlayerTracker.RowStepKeeps | core/trackers/player_tracker.py:58-97 | one row keeps the loop invariant |
| TrackersPlayerTracker.ProcessSeen | core/trackers/player_tracker.py:56-66 | after the loop, `seen_ids` is exactly the set of reported ids |
| TrackersPlayerTracker.ProcessInvariant | core/trackers/player_tracker.py:58-97 | the loop invariant holds after the loop |
| TrackersPlayerTracker.ClassStable | core/trackers/player_tracker.py:68-76 | once an id has a recorded class, its output class is that class and the record never changes |
| TrackersPlayerTracker.UniqueIds | core/trackers/player_tracker.py:56-66 | output ids are distinct, and every reported id is output (later duplicates are dropped) |
| TrackersPlayerTracker.PlayerTracker.constructor | core/trackers/player_tracker.py:10-18 | all three dicts start empty |
| TrackersPlayerTracker.PlayerTracker.Update | core/trackers/player_tracker.py:20-99 | no non-ball detection gives [] without calling ByteTrack and with no state change; otherwise ByteTrack gets the non-ball detections and the state and tracks are those of the result loop |
| Tracker.Sanitize | core/tracker.py:21-29 | a detection is kept exactly when its box unpacks into four values and cls/conf are absent or numeric; the kept box is [x1, y1, x2-x1, y2-y1], with class 2 and score 1.0 for missing values |
| Tracker.Inputs | core/tracker.py:19-29 | no more inputs than detections |
| Tracker.InputsAppend | core/tracker.py:21-29 | cleaning a concatenation cleans each part, in order |
| Tracker.SkipMalformed | core/tracker.py:28-29 | a detection that raises adds nothing, wherever it sits |
| Tracker.InputsAllValid | core/tracker.py:21-27 | when every detection converts, input i comes from detection i |
| Tracker.Outputs | core/tracker.py:31-47 | no more outputs than tracks |
| Tracker.OutputsIff | core/tracker.py:34-47 | an output exists exactly for each confirmed track, with its id, box and class text |
| Tracker.OutputsCount | core/tracker.py:34-36 | the number of outputs is the number of confirmed tracks |
| Tracker.CollectInputs | core/tracker.py:19-29 | the input loop builds exactly the cleaned inputs |
| Tracker.CollectOutputs | core/tracker.py:31-47 | the output loop builds exactly the output dicts |
| Tracker.Tracker.constructor | core/tracker.py:6-12 | DeepSort is always configured with max_age 5, n_init 1 and cosine 0.3, whatever the arguments |
| Tracker.Tracker.Update | core/tracker.py:14-49 | DeepSort receives the cleaned inputs, and the result is its confirmed tracks |
| TeamColours.ColourDistSq | core/assigners/team_assign.py:138-141 | a colour distance is never negative |
| TeamColours.NearestSpec | core/assigners/team_assign.py:138-144 | the nearer centre's team is chosen (1 or 2), and a tie goes to team 1 |
| TeamColours.ToRgb | core/assigners/team_assign.py:150 | each channel is truncated by `int()` |
| TeamColours.SamplesSpec | core/assigners/team_assign.py:66-71 | one shirt sample per goalkeeper or player track, and each sample is such a track's shirt |
| TeamColours.Candidates | core/assigners/team_assign.py:102 | candidates are exactly the class "1"/"2" tracks |
| TeamColours.CandidatesSamples | core/team_assign.py:44-47 | sampling the candidates gives the same samples as sampling every track |
| TeamColours.AllGrey | core/assigners/team_assign.py:107-112 | every track gets no team and grey, and nothing else changes |
| TeamColours.MarkAllGrey | core/team_assign.py:48-52 | the failure loop produces exactly the all-grey labelling |
| AssignersTeamAssign.Clamp | core/assigners/team_assign.py:42-43 | a coordinate is clamped into [0, lim], and an in-range value is truncated |
| AssignersTeamAssign.ShirtRegion | core/assigners/team_assign.py:40-50 | a region lies inside the frame and is at least 3×3; every box inside the frame at least 3 wide and 6 tall has one |
| AssignersTeamAssign.AssignAll | core/assigners/team_assign.py:115-155 | one labelled track per track |
| AssignersTeamAssign.StepLabels | core/assigners/team_assign.py:115-155 | one pass labels the track as its class demands, and remembered teams stay 1 or 2 |
| AssignersTeamAssign.StepFresh | core/assigners/team_assign.py:132-144 | one pass gives a goalkeeper or player whose id is not remembered the nearest centre's team, and remembers it |
| AssignersTeamAssign.AssignAllFresh | core/assigners/team_assign.py:132-150 | on any call, a goalkeeper or player whose id is neither remembered nor carried by an earlier track gets the nearest centre's team |
| AssignersTeamAssign.AssignAllLabels | core/assigners/team_assign.py:115-155 | the ball gets no team and green, a referee no team and yellow, a player team 1 or 2 and its colour, any other class no team and grey; a first-seen goalkeeper or player gets the nearest centre's team |
| AssignersTeamAssign.StepRefresh | core/assigners/team_assign.py:133-144 | on a tenth call a player gets its nearest team |
| AssignersTeamAssign.AssignAllRefresh | core/assigners/team_assign.py:133-148 | on every tenth call every goalkeeper and player gets the nearest team, whatever was remembered |
| AssignersTeamAssign.StepSticky | core/assigners/team_assign.py:133-148 | outside a tenth call, one pass keeps a remembered team unless a referee carries the id |
| AssignersTeamAssign.AssignAllSticky | core/assigners/team_assign.py:132-150 | outside a tenth call, a remembered id that no referee carries keeps its team and is labelled with it |
| AssignersTeamAssign.StepEvicts | core/assigners/team_assign.py:124-129 | one pass over a referee forgets its id |
| AssignersTeamAssign.AssignAllEvicts | core/assigners/team_assign.py:124-129 | when the last track carrying an id is a referee, the id has no remembered team after the call |
| AssignersTeamAssign.AssignKeeps | core/assigners/team_assign.py:92-157 | every call adds one to the counter (failures included), keeps the state well formed, changes only team and colour, never changes set colours, and labels by class |
| AssignersTeamAssign.NeedsTwoShirts | core/assigners/team_assign.py:74-76 | with fewer than two goalkeepers and players, the assigner stays uninitialised and labels everything grey |
| AssignersTeamAssign.TeamAssigner.constructor | core/assigners/team_assign.py:10-21 | no colours, no teams, not initialised, counter 0 |
| AssignersTeamAssign.TeamAssigner.Reset | core/assigners/team_assign.py:23-32 | `reset` clears colours, cache, flag and counter |
| AssignersTeamAssign.TeamAssigner.InitialiseTeams | core/assigners/team_assign.py:60-90 | succeeds exactly when the shirts give KMeans centres, and then stores them; nothing changes on failure |
| AssignersTeamAssign.TeamAssigner.LabelAll | core/assigners/team_assign.py:115-157 | the labelling loop yields exactly the specified cache and tracks |
| AssignersTeamAssign.TeamAssigner.Assign | core/assigners/team_assign.py:92-157 | the new state and the tracks are those of the specified assign outcome |
| TeamAssign.SliceIndex | core/team_assign.py:17 | a slice bound lies in [0, len]; an in-range index is kept and a negative one counts from the end |
| TeamAssign.ShirtRegion | core/team_assign.py:14-19 | a region is non-empty and inside the frame; every box inside the frame at least 1 wide and 2 tall has one, starting at its truncated top-left corner |
| TeamAssign.OverhangLosesShirt | core/team_assign.py:15-19 | the box [-2, 10, 30, 50] on a 100×100 frame gets no shirt region |
| TeamAssign.TrackStep | core/team_assign.py:54-81 | one pass keeps remembered teams 1 or 2 |
| TeamAssign.AssignAll | core/team_assign.py:54-83 | one labelled track per track, and remembered teams stay 1 or 2 |
| TeamAssign.StepLabels | core/team_assign.py:54-81 | one pass labels the track as its class demands |
| TeamAssign.StepFresh | core/team_assign.py:68-78 | one pass gives a goalkeeper or player whose id is not remembered the nearest centre's team, and remembers it |
| TeamAssign.AssignAllFresh | core/team_assign.py:68-78 | a goalkeeper or player whose id is neither remembered nor carried by an earlier track gets the nearest centre's team |
| TeamAssign.AssignAllLabels | core/team_assign.py:54-83 | every track is labelled by class: ball green, referee yellow, player team 1 or 2 and its colour, others grey; a first-seen goalkeeper or player gets the nearest centre's team |
| TeamAssign.StepSticky | core/team_assign.py:69-70 | one pass keeps a remembered team unless a referee carries the id |
| TeamAssign.AssignAllSticky | core/team_assign.py:68-78 | a remembered id that no referee carries keeps its team, and the team is used for the label |
| TeamAssign.StepEvicts | core/team_assign.py:62-67 | one pass over a referee forgets its id |
| TeamAssign.AssignAllEvicts | core/team_assign.py:62-67 | when the last track carrying an id is a referee, the id has no remembered team after the call |
| TeamAssign.AssignKeeps | core/team_assign.py:43-83 | the state stays well formed, set colours never change, only team and colour change, and tracks are labelled by class |
| TeamAssign.InitialisesIff | core/team_assign.py:23-52 | an uninitialised assigner initialises exactly with at least two goalkeepers and players; otherwise nothing changes and everything is grey |
| TeamAssign.TeamAssigner.constructor | core/team_assign.py:6-12 | no colours, no teams, not initialised |
| TeamAssign.TeamAssigner.InitialiseTeams | core/team_assign.py:23-41 | succeeds exactly with at least two shirt samples, storing KMeans's centres |
| TeamAssign.TeamAssigner.LabelAll | core/team_assign.py:54-83 | the labelling loop yields exactly the specified cache and tracks |
| TeamAssign.TeamAssigner.Assign | core/team_assign.py:43-83 | the new state and the tracks are those of the specified assign outcome |
| RuleGraph.GetRule | core/event_detector/Rule_Knowledge_Graph.py:33-34 | a rule is returned exactly for a graph key, and it is that key's entry |
| RuleGraph.GetConditions | core/event_detector/Rule_Knowledge_Graph.py:36-38 | [] for an unknown rule, otherwise that rule's conditions |
| RuleGraph.Keys | core/event_detector/Rule_Knowledge_Graph.py:3-31 | the graph has exactly the four rules Offside, Throw-In, Goal Kick and Corner |
| RuleGraph.OffsideConditionsExact | core/event_detector/Rule_Knowledge_Graph.py:6-10 | the Offside conditions are the three "Attacker is ..." strings, in order |
| RuleGraph.DecidersFindNoRule | core/event_detector/Rule_Knowledge_Graph.py:12-30 | "Throw-In Rule", "Corner Rule" and "Goal Kick Rule" are absent, so those lookups find nothing |
| OffsideDetector.FarSide | core/event_detector/Offside_Detector.py:55-57 | max(x1, x2) for "right", min(x1, x2) otherwise |
| OffsideDetector.Insert | core/event_detector/Offside_Detector.py:17 | insertion adds exactly one defender |
| OffsideDetector.SortByFarSide | core/event_detector/Offside_Detector.py:17 | sorting keeps the number of defenders |
| OffsideDetector.InsertFollows | core/event_detector/Offside_Detector.py:17 | inserting a later element keeps the order relative to a front element |
| OffsideDetector.InsertPermutes | core/event_detector/Offside_Detector.py:17 | insertion adds exactly the new defender |
| OffsideDetector.InsertSorted | core/event_detector/Offside_Detector.py:17 | insertion keeps the list sorted |
| OffsideDetector.SortByFarSideSpec | core/event_detector/Offside_Detector.py:17-18 | defenders come out sorted by far side (descending only for "left") and as a permutation of the input |
| OffsideDetector.Candidates | core/event_detector/Offside_Detector.py:23-46 | no more candidates than attackers |
| OffsideDetector.CandidatesIff | core/event_detector/Offside_Detector.py:23-46 | a player is a candidate exactly when every listed condition evaluated True; unrecognised names count as False |
| OffsideDetector.UnrecognisedName | core/event_detector/Offside_Detector.py:27-43 | a condition starting with 'A' matches no branch of the evaluator |
| OffsideDetector.GraphConditionsFail | core/event_detector/Offside_Detector.py:21-45 | no attacker meets the graph's Offside conditions |
| OffsideDetector.NoGraphCandidates | core/event_detector/Offside_Detector.py:21-46 | with the graph's conditions, the candidate loop appends nothing |
| OffsideDetector.NoCandidatesFromGraph | core/event_detector/Offside_Detector.py:11-46 | `update_candidates` always leaves the list empty |
| OffsideDetector.RecognisedConditions | core/event_detector/Offside_Detector.py:32-41 | with recognised condition names, attacking right, a player qualifies exactly when beyond both the second-last defender and the ball |
| OffsideDetector.OffsideDetector.constructor | core/event_detector/Offside_Detector.py:4-9 | no candidates, nothing triggered |
| OffsideDetector.OffsideDetector.UpdateCandidates | core/event_detector/Offside_Detector.py:11-46 | the list is rebuilt from empty: [] with fewer than 2 defenders or no ball, otherwise the qualifying attackers against the second-last defender |
| OffsideDetector.OffsideDetector.CheckViolation | core/event_detector/Offside_Detector.py:48-53 | returns the possessor's id exactly when it is a candidate and records it; otherwise None and no change |
| EventDetector.FirstWithId | core/event_detector/Event_Detecor.py:21 | the first track with the id, or None exactly when none has it |
| EventDetector.Attackers | core/event_detector/Event_Detecor.py:25 | exactly the class "2" tracks of the possessing team (None included) |
| EventDetector.Defenders | core/event_detector/Event_Detecor.py:26 | exactly the class "2" tracks whose team is none of None, 0 and the possessing team |
| EventDetector.DetectStep | core/event_detector/Event_Detecor.py:18-64 | the last event is the returned pair |
| EventDetector.NoBallNoEvent | core/event_detector/Event_Detecor.py:28-32 | without a ball: (None, None), and the wait, snapshot and holder are kept |
| EventDetector.KickSnapshots | core/event_detector/Event_Detecor.py:36-39 | a kick snapshots the candidates, records the holder and starts waiting unless a possessor ends the wait at once |
| EventDetector.WaitWithoutPossessor | core/event_detector/Event_Detecor.py:42 | while waiting, possessor -1 keeps waiting with no event |
| EventDetector.PossessorEndsWait | core/event_detector/Event_Detecor.py:42-49 | a possessor ends the wait; "Offside" fires exactly when it differs from the holder and is in the snapshot |
| EventDetector.EventShape | core/event_detector/Event_Detecor.py:29-64 | event and text are both None or both set; the only event is "Offside", with text "Offside by Player {pid}"; the last event is the returned pair |
| EventDetector.OffsideTextInjective | core/event_detector/Event_Detecor.py:47 | the text names the player: distinct players give distinct texts |
| EventDetector.ResolutionExample | core/event_detector/Event_Detecor.py:42-49 | a concrete wait is resolved once, by player 17 |
| EventDetector.NeverOffside | core/event_detector/Event_Detecor.py:32-49 | with the graph's conditions, the snapshot stays empty and "Offside" is never raised |
| EventDetector.FindInSnapshot | core/event_detector/Event_Detecor.py:44-48 | the search loop finds the player exactly when it is in the snapshot |
| EventDetector.EventDetector.constructor | core/event_detector/Event_Detecor.py:8-16 | a fresh offside detector, no event, not waiting, empty snapshot |
| EventDetector.EventDetector.Detect | core/event_detector/Event_Detecor.py:18-64 | candidates are refreshed only when there is a ball, nothing is triggered, and the new state and the event are one detect step |
| OutOfPlay.ThrowInInvalid | core/event_detector/ThrowIn_Detector_broken.py:33-37 | a non-pair position or a team other than 1 or 2 gives None |
| OutOfPlay.ThrowInSpec | core/event_detector/ThrowIn_Detector_broken.py:39-52 | a throw-in is awarded exactly when x < 0 or x > field width, always to the other team, whatever y is |
| OutOfPlay.CornerGoalInvalid | core/event_detector/CornerGoal_Detector_broken.py:37-39 | invalid arguments give None |
| OutOfPlay.CornerGoalSpec | core/event_detector/CornerGoal_Detector_broken.py:41-56 | a decision is made exactly when y < 0 or y > 0.65·width: "goal_kick" after team 1, "corner" after team 2; x and goal width play no part |
| OutOfPlay.CornerGoalDefaults | core/event_detector/CornerGoal_Detector_broken.py:14-17 | with the default width 1280, y = 900 is out and y = 800 is not |
| PitchDetector.Abs | core/pitch_detector.py:26-28 | `abs` is non-negative and is ±its argument |
| PitchDetector.Filter | core/pitch_detector.py:23-29 | filtering keeps no more lines than given |
| PitchDetector.FilterIff | core/pitch_detector.py:23-29 | a line is kept exactly when it is given and accepted |
| PitchDetector.Classified | core/pitch_detector.py:25-29 | a line is horizontal exactly when abs(angle) < 30 and vertical exactly when abs(angle) > 60, never both; others are dropped |
| PitchDetector.MinOf | core/pitch_detector.py:39 | `min` is a member and a lower bound |
| PitchDetector.MaxOf | core/pitch_detector.py:40 | `max` is a member and an upper bound |
| PitchDetector.MinInt | core/pitch_detector.py:55 | `min` of the x midpoints is a member and a lower bound |
| PitchDetector.MaxInt | core/pitch_detector.py:56 | `max` of the x midpoints is a member and an upper bound |
| PitchDetector.YMids | core/pitch_detector.py:38 | one midpoint height per horizontal line |
| PitchDetector.TruncMonotone | core/pitch_detector.py:39-40 | `int()` keeps order |
| PitchDetector.PitchSpan | core/pitch_detector.py:36-40 | no span without horizontal lines; top ≤ bottom, with every midpoint between them |
| PitchDetector.LineHeight | core/pitch_detector.py:34 | a line's height is non-negative |
| PitchDetector.XMids | core/pitch_detector.py:50 | one truncated midpoint per kept vertical |
| PitchDetector.ChooseSpec | core/pitch_detector.py:53-67 | `previous_right` becomes the max of the old value and the midpoints and never decreases; halfway and right are never both set; left ≤ halfway and left < right |
| PitchDetector.NoHorizontalNoPitch | core/pitch_detector.py:36-48 | without horizontal lines every boundary is None and `previous_right` stays |
| PitchDetector.PreviousRightMonotone | core/pitch_detector.py:53-67 | once set, `previous_right` never moves left, and it is right of every vertical midpoint of the call |
| PitchDetector.SplitLines | core/pitch_detector.py:22-29 | the classification loop builds exactly the horizontal and vertical lists |
| PitchDetector.KeepSpanning | core/pitch_detector.py:42-48 | the loop keeps exactly the verticals within 15% of the pitch height |
| PitchDetector.PitchDetector.constructor | core/pitch_detector.py:5-9 | no last lines, cache interval 30, frame count 0, no previous right |
| PitchDetector.PitchDetector.Detect | core/pitch_detector.py:11-78 | `frame_count` goes up by one, the boundaries and `previous_right` are the specified outcome, and `last_lines` is the returned dict |
| Stream.ToDetections | core/stream.py:55-60 | one detection per detector row |
| Stream.ToggleTwice | core/stream.py:41-44 | toggling twice restores half-time mode, and restores the directions exactly when both are "left" or "right" |
| Stream.DirectionsOpposite | core/stream.py:31-44 | with "left" or "right" the teams start opposite, and every toggle keeps them opposite |
| Stream.FirstBall | core/stream.py:74 | the first class "0" track, or none exactly when there is no class "0" track |
| Stream.ProcessCounts | core/stream.py:46-51 | every call counts the frame; at half time nothing else changes and no track is returned |
| Stream.DetectionCadence | core/stream.py:53-60 | detections are rerun exactly when the frame count is a multiple of `detect_every`, and are reused unchanged otherwise |
| Stream.PossessionSticky | core/stream.py:75-84 | the remembered possessor changes only to a reported player ≠ -1 with a ball in sight |
| Stream.BallCountAppend | core/stream.py:65 | concatenating track lists adds their ball counts |
| Stream.BallCountClasses | core/stream.py:71 | relabelling with unchanged classes keeps the ball count |
| Stream.BallCountZero | core/stream.py:74 | no ball track exactly when the ball count is 0 |
| Stream.ResultTracks | core/stream.py:74-106 | the result holds the labelled tracks; only the first ball gains possessor and kick flag; the computed event is not returned |
| Stream.DetectionsConvertible | core/stream.py:55-60 | every detection built from detector rows can be converted by the player tracker |
| Stream.SentNoBall | core/player_tracker.py:16-21 | no detection handed to ByteTrack has class 0 |
| Stream.PlayersNoBall | core/player_tracker.py:36-55 | if ByteTrack reports only classes it was given, no player track is of class "0" |
| Stream.LabellingKeepsBalls | core/stream.py:71 | team labelling keeps the number of balls |
| Stream.AtMostOneBall | core/stream.py:63-71 | if ByteTrack reports only classes it was given, at most one class "0" track reaches the result |
| Stream.LiveProcessor.constructor | core/stream.py:14-32 | count 0, no detections, no possessor, not at half time, team 1 attacking the given side, team 2 the flipped side |
| Stream.LiveProcessor.ToggleHalftime | core/stream.py:41-44 | the state after the toggle is the specified toggle |
| Stream.LiveProcessor.Process | core/stream.py:46-106 | the new state and the result are those of the specified frame step |

## Left out

- I/O is not part of this model: video capture, frame reading, the FastAPI app, printing and logging.
- Image processing is not part of this model: grey conversion, blurring, resizing, Canny, HoughLinesP and optical flow. Their results are parameters.
- The object detector, ByteTrack, DeepSort and KMeans are oracles. Their replies are parameters, so their internals (association, embeddings, clustering) are not modelled.
- Floating point is not modelled. Coordinates and colours are exact reals, so the `float32` casts before ByteTrack and in the flow point are not modelled.
- BallTracker.SelectBestBall: the distance term of the score is an unconstrained function `norm`, not the Euclidean norm. No bound on it is assumed, and no property proved about the selection depends on its values.
- BallTracker: one model covers both ball trackers. The wired tracker reads `t['cls']` and the newer one `d.get('cls')`. They differ only on a detection without a class, which the model's detections cannot express.
- BallTracker: the `prev_gray` image is kept as a value, and the unused `last_velocity` and `ball_id` fields are constants.
- AssignersTeamAssign.ShirtColour: the `cv2.resize` exception path, which returns black, is not modelled. The mean oracle always answers.
- AssignersTeamAssign.TeamAssigner.InitialiseTeams: a KMeans exception is modelled as the oracle returning no centres. The wired `TeamAssign` has no try block, so there KMeans always answers.
- TeamAssign and AssignersTeamAssign: tracks are updated in place in the source. The model returns the relabelled tracks as new values, so aliasing between the input list and the returned list is not modelled.
- Stream.LiveProcessor.Process: the component replies are parameters of the frame step, not calls into the component objects. These include:
  - the labelled tracks;
  - the kick verdict;
  - the possessor.

  Each component's own state is modelled in its own module.
- Stream.LiveProcessor.Process: the event detector is not called. Its result is never returned, and its state is modelled in `EventDetector`.
- Stream.LiveProcessor.Process: the `last_ball` field, which is set and never read, is not modelled. The commented-out pitch detection is not modelled either.
- Stream: the loop `track['cls'] = str(track.get('cls', '2'))` is the identity, because every track already has a string class. It is not modelled.
- Stream.AtMostOneBall: the result relies on an assumption about ByteTrack. ByteTrack must report only classes it was given, and the model states this as a precondition.
- Stream.ProcessFrame: `detect_every` must be non-zero. With 0 the source raises `ZeroDivisionError`, which is not modelled.
- PlayerBallAssign.AssignBallToPlayer: the wired variant indexes a player's box without checking its length. Class "2" tracks must therefore carry at least four values, and the `KeyError` on a missing field is not modelled.
- EventDetector.EventDetector.Detect: ball possession and the kick flag are `possessed_by`/`kicked` fields of the track. The `isinstance(..., int)` test is always true in the model.
- OffsideDetector: `last_kick_frame` and `last_kicked_by_team` are never read, so they are not modelled. The same holds for the event detector's `last_kick_frame`.
- PitchDetector.PitchDetector.Detect: `cache_interval` is stored and never used. The frame height and width are read and never used.
- Tracker.Tracker.Update: a DeepSort track whose `det_class` is present but not an integer is not modelled. A track without `det_class` falls back as the source does.
- The crashes on malformed dicts are not modelled, in either variant. Where the source would raise, the model states the needed shape as a precondition instead:
  - PlayerBallAssign.WellFormed drops the `IndexError`/`KeyError` of core/player_ball_assign.py on a class "2" box that is too short or missing.
  - AssignersBallKickDetector.Unpackable drops the `ValueError` that core/assigners/Ball_Kick_Detector.py raises when it unpacks a box of other than four values.
  - AssignersTeamAssign.BoxesUnpack drops the `ValueError` of core/assigners/team_assign.py when a goalkeeper or player box, or its `[]` default, has fewer than four values.
  - TeamAssign.BoxesUnpack drops the `KeyError`/`ValueError` of core/team_assign.py on a goalkeeper or player box that is missing or not four values.
  - PlayerTracking.Convertible, required by PlayerTracker.PlayerTracker.Update and TrackersPlayerTracker.PlayerTracker.Update, drops the `KeyError`/`ValueError` of both player trackers on a non-ball detection whose box, class or confidence is missing or does not convert.
  - BallTracker.BallBoxes drops the `KeyError`/`ValueError` of both ball trackers on a ball detection whose box is missing or not four values.
